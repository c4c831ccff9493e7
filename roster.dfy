/**
 * What the three room classes share: the Player record of
 * room-service/src/player.ts, the players Map they key by id (an
 * insertion-ordered Map, kept here as a list of players), the calls they
 * make on the game they host, and the ids of the bots they seat.
 */
module Roster {
  import opened Wrappers
  import opened StateRules
  import opened EngineGame

  /** A player; isBot is the flag a Bot sets on its profile, unset (false) for people. */
  datatype Player = Player(id: string, name: string, country: string, isBot: bool)

  /** A client message as the rooms route it, by its scope and its type; the payload only the game reads. */
  datatype RoomMessage = RoomMessage(scope: string, kind: string)

  /** The calls a room makes on the game it hosts. */
  datatype GameCall =
    | Start
    | TryStart(restore: bool)
    | OnMessage(playerId: string, message: RoomMessage)
    | OnDisconnect(playerId: string)
    | OnReconnect(playerId: string)

  /** What the rooms of room-service send: their own payloads, and the game's messages they pass on. */
  datatype Payload =
    | PlayerJoined(player: Player)
    | Welcome(players: seq<Player>, hostId: Option<string>)
    | RoomError(text: string)
    | GameStarted
    | PlayerLeft(playerId: string)
    | HostChanged(newHostId: Option<string>)
    | GameEndedNotice(reason: string)
    | FromGame(gameMessage: Message)
    | GameError(errorMessage: string)

  /** What a room of room-service emits: 'close', 'send' and 'broadcast' with their scope, a message to a bot, a call on its game, and onEmpty. */
  datatype RoomEvent =
    | Close(playerId: string, reason: string)
    | SendTo(scope: string, playerId: string, payload: Payload)
    | BroadcastAll(scope: string, payload: Payload)
    | ToBot(botId: string, payload: Payload)
    | Call(call: GameCall)
    | Emptied

  /** RoomConnectionStatus */
  datatype Status = Disconnected | Connecting | Connected | Errored

  const SCOPE_ROOM := "room"
  const SCOPE_GAME := "game"
  const START_GAME := "startGame"
  const PLAY_AGAIN := "playAgain"
  const ERR_IN_PROGRESS := "A game is already in progress."

  /** `!this.hostId`: no host yet, or the empty id. */
  predicate HostUnset(hostId: Option<string>) {
    hostId.None? || hostId.value == ""
  }

  /** `if (error)`: an error string the room acts on; the empty string is falsy and lets the game start. */
  predicate Refuses(error: Option<string>) {
    error.Some? && error.value != ""
  }

  /** The same payload to each bot, in the order the bots were seated. */
  function ToBots(bots: seq<string>, payload: Payload): (r: seq<RoomEvent>)
    ensures |r| == |bots| && forall i :: 0 <= i < |r| ==> r[i] == ToBot(bots[i], payload)
  {
    seq(|bots|, i requires 0 <= i < |bots| => ToBot(bots[i], payload))
  }

  // ---- the players Map ------------------------------------------------------

  /** The Map's keys, in insertion order. */
  function IdsOf(s: seq<Player>): (r: seq<string>)
    ensures |r| == |s|
  {
    if s == [] then [] else [s[0].id] + IdsOf(s[1..])
  }

  /** Map lookup: the player under that key, if any. */
  function Find(s: seq<Player>, id: string): (r: Option<Player>)
    ensures r.Some? <==> id in IdsOf(s)
    ensures r.Some? ==> r.value.id == id && r.value in s
  {
    if s == [] then None
    else if s[0].id == id then Some(s[0])
    else Find(s[1..], id)
  }

  /** Map insertion under the player's id: a new key goes to the end, an old key keeps its place and takes the new player. */
  function Put(s: seq<Player>, p: Player): (r: seq<Player>)
    ensures IdsOf(r) == SetAdd(IdsOf(s), p.id)
    ensures forall q :: Find(r, q) == if q == p.id then Some(p) else Find(s, q)
  {
    if s == [] then [p]
    else if s[0].id == p.id then [p] + s[1..]
    else [s[0]] + Put(s[1..], p)
  }

  /** Map deletion: the entry goes, the others keep their order. */
  function Remove(s: seq<Player>, id: string): (r: seq<Player>)
    ensures IdsOf(r) == SetDelete(IdsOf(s), id)
    ensures forall q :: Find(r, q) == if q == id then None else Find(s, q)
  {
    if s == [] then []
    else if s[0].id == id then Remove(s[1..], id)
    else var r := [s[0]] + Remove(s[1..], id); assert r[1..] == Remove(s[1..], id); r
  }

  /** A key the Map does not hold goes to the end, after every player that was there. */
  lemma {:induction false} PutAppends(s: seq<Player>, p: Player)
    requires p.id !in IdsOf(s)
    ensures Put(s, p) == s + [p]
  {
    if s != [] {
      assert IdsOf(s)[0] == s[0].id;
      PutAppends(s[1..], p);
      assert [s[0]] + (s[1..] + [p]) == s + [p];
    }
  }

  /** A key of a Map is dropped by delete, and only that key: the size falls by one. */
  lemma {:induction false} RemoveShrinks(s: seq<Player>, id: string)
    requires Distinct(IdsOf(s)) && id in IdsOf(s)
    ensures |Remove(s, id)| == |s| - 1
  {
    assert Distinct(IdsOf(s[1..])) by {
      forall i, k | 0 <= i < k < |IdsOf(s[1..])| ensures IdsOf(s[1..])[i] != IdsOf(s[1..])[k] {
        assert IdsOf(s[1..])[i] == IdsOf(s)[i + 1] && IdsOf(s[1..])[k] == IdsOf(s)[k + 1];
      }
    }
    if s[0].id == id {
      assert id !in IdsOf(s[1..]) by {
        forall k | 0 <= k < |IdsOf(s[1..])| ensures IdsOf(s[1..])[k] != id {
          assert IdsOf(s[1..])[k] == IdsOf(s)[k + 1] && IdsOf(s)[0] == id;
        }
      }
      RemoveAbsent(s[1..], id);
    } else {
      RemoveShrinks(s[1..], id);
    }
  }

  /** Deleting a key the Map does not hold changes nothing. */
  lemma {:induction false} RemoveAbsent(s: seq<Player>, id: string)
    requires id !in IdsOf(s)
    ensures Remove(s, id) == s
  {
    if s != [] {
      assert IdsOf(s)[0] == s[0].id;
      RemoveAbsent(s[1..], id);
    }
  }

  /** Entries added after a key leave what get returns for it as it was. */
  lemma {:induction false} FindExtends(s: seq<Player>, t: seq<Player>, id: string)
    requires id in IdsOf(s)
    ensures Find(s + t, id) == Find(s, id)
  {
    assert IdsOf(s)[0] == s[0].id;
    if s[0].id != id {
      assert (s + t)[1..] == s[1..] + t;
      FindExtends(s[1..], t, id);
    }
  }

  /** Every seated player is a bot (vacuously so for an empty room). */
  predicate AllBots(s: seq<Player>) {
    forall i :: 0 <= i < |s| ==> s[i].isBot
  }

  // ---- bot ids --------------------------------------------------------------

  /** The decimal digits of n, as a template string prints it. */
  function NatStr(n: nat): (r: string)
    ensures |r| >= 1
  {
    if n < 10 then ["0123456789"[n]] else NatStr(n / 10) + ["0123456789"[n % 10]]
  }

  /** `bot-${n}` */
  function BotId(n: nat): string {
    "bot-" + NatStr(n)
  }

  /**
   * What a room emits first when a player leaves: the hosted game is told
   * of the disconnect while one runs, then playerLeft is broadcast.
   */
  function LeaveNotices(active: bool, playerId: string): (r: seq<RoomEvent>)
    ensures |r| >= 1 && r[|r| - 1] == BroadcastAll(SCOPE_ROOM, PlayerLeft(playerId))
    ensures Call(OnDisconnect(playerId)) in r <==> active
  {
    (if active then [Call(OnDisconnect(playerId))] else []) + [BroadcastAll(SCOPE_ROOM, PlayerLeft(playerId))]
  }

  /** The profile a seated bot gets: `Bot ${n}` from the US, flagged as a bot. */
  function BotPlayer(id: string, n: nat): (p: Player)
    ensures p.id == id && p.isBot
  {
    Player(id, "Bot " + NatStr(n), "US", true)
  }

  /** One pass of the bot loop in join as written: a bot under the id `bot-${size + 1}` is put into the Map. */
  function BackfillStep(s: seq<Player>): seq<Player> {
    Put(s, BotPlayer(BotId(|s| + 1), |s| + 1))
  }

  /**
   * When the first player to join is a person with the id "bot-2", the
   * loop's first bot takes that key, overwriting the person, and from then
   * on every pass puts the same bot under the same key: the Map stays at
   * one entry, below four, and the loop never ends.
   */
  lemma BackfillStallsOnTakenId()
    ensures var person := Player("bot-2", "Eve", "US", false);
            var s1 := BackfillStep([person]);
            s1 == [BotPlayer("bot-2", 2)] && person !in s1
            && BackfillStep(s1) == s1 && |s1| < 4
  {
    assert NatStr(2) == "2";
    assert BotId(2) == "bot-2";
  }

  /** The length of the longest id. */
  function LongestId(ids: seq<string>): (n: nat)
    ensures forall x :: x in ids ==> |x| <= n
  {
    if ids == [] then 0
    else var rest := LongestId(ids[1..]); if |ids[0]| > rest then |ids[0]| else rest
  }

  /** c, or c with as many "-" appended as it takes to reach an id not in ids. */
  function Unused(c: string, ids: seq<string>): (r: string)
    ensures r !in ids
    ensures c !in ids ==> r == c
    decreases LongestId(ids) + 1 - |c|
  {
    if c in ids then Unused(c + "-", ids) else c
  }

  /**
   * The id a bot should join under: `bot-${size + 1}` when no player holds
   * it, else that id extended until no player holds it.
   */
  function FreshBotId(s: seq<Player>): (r: string)
    ensures r !in IdsOf(s)
    ensures BotId(|s| + 1) !in IdsOf(s) ==> r == BotId(|s| + 1)
  {
    Unused(BotId(|s| + 1), IdsOf(s))
  }

  /** The state the bot loop keeps: the players it started with first, then only bots listed in bots. */
  ghost predicate BotsAppended(ps: seq<Player>, orig: seq<Player>, bots: seq<string>) {
    |orig| <= |ps| && ps[..|orig|] == orig
    && forall i :: |orig| <= i < |ps| ==> ps[i].isBot && ps[i].id in bots
  }

  /** One pass of the bot loop keeps that state: a bot is appended and its id recorded. */
  lemma AppendBot(ps: seq<Player>, orig: seq<Player>, bots: seq<string>, bot: Player)
    requires BotsAppended(ps, orig, bots) && bot.isBot
    ensures BotsAppended(ps + [bot], orig, SetAdd(bots, bot.id))
  {
    assert (ps + [bot])[..|orig|] == ps[..|orig|];
  }
}
