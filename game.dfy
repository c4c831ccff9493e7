/**
 * The class CallbreakGame of callbreak-engine/src/game.ts: checks phase and
 * turn, delegates to the CallbreakState it holds, and tells the players what
 * happened. What the game emits is kept as an append-only log of events; the
 * turn timer is a flag (a pending timeout) and a deadline, and the clock is
 * the `now` parameter of the operations that read it.
 */
module EngineGame {
  import opened Wrappers
  import opened Cards
  import opened EngineLogic
  import opened StateRules
  import opened EngineState

  const DURATION_MS: int := 30000
  const ERR_FOUR_PLAYERS := "4 players required."
  const ERR_NOT_BIDDING := "Not bidding phase"
  const ERR_NOT_PLAYING := "Not playing phase"
  const ERR_NOT_YOUR_TURN := "Not your turn"
  const REASON_COMPLETED := "completed"
  const REASON_DISCONNECTED := "player_disconnected_during_bidding"
  const REASON_STALLED := "stalled"

  /** What snapshot(playerId) sends: the public state plus that player's own hand and playable cards. */
  datatype Snapshot = Snapshot(
    players: seq<string>,
    you: string,
    playerCards: Option<seq<Card>>,
    turn: int,
    phase: Phase,
    roundNumber: int,
    bids: map<string, int>,
    playedCards: seq<Play>,
    tricksWon: map<string, int>,
    validCards: seq<Card>,
    roundHistory: seq<RoundHistory>,
    points: map<string, int>,
    winner: Option<string>)

  /** The extra fields of a gameEnded payload and of an 'ended' event. */
  datatype EndDetails = NoDetails | WinnerIs(winnerId: Option<string>) | PlayerIs(playerId: string)

  /** The typed payloads the game sends or broadcasts. */
  datatype Message =
    | GameState(snapshot: Snapshot)
    | TurnTimer(msLeft: int)
    | TurnTimerFor(playerId: string, msLeft: int)
    | GetBid
    | GetCard(playedCards: seq<Play>)
    | PlayerBid(playerId: string, bid: int)
    | BidMade
    | PlayerCard(playerId: string, card: Card)
    | TrickWon(winnerId: string)
    | GameEnded(reason: string, details: EndDetails)

  /** The events the game emits: 'send' to one player, 'broadcast', 'error' and 'ended'. */
  datatype Event =
    | Send(to: string, message: Message)
    | Broadcast(message: Message)
    | Error(player: string, text: string)
    | Ended(reason: string, details: EndDetails)

  /** A client message as onMessage dispatches on its type. */
  datatype ClientMessage = RequestGameState | BidRequest(bid: int) | PlayCardRequest(card: Card) | OtherRequest(kind: string)

  /** What toJSON returns. */
  datatype GameJson = GameJson(state: StateJson, disconnected: seq<string>, timerDisabled: bool)

  // ---- the disconnected Set, kept in insertion order -----------------------

  /** Set.add: a new member goes to the end, an old one stays where it is. */
  function SetAdd(s: seq<string>, x: string): (r: seq<string>)
    ensures Distinct(s) ==> Distinct(r)
    ensures forall y :: y in r <==> y in s || y == x
  {
    if x in s then s else s + [x]
  }

  /** Set.delete: the member goes, the rest keep their order. */
  function SetDelete(s: seq<string>, x: string): (r: seq<string>)
    ensures forall y :: y in r <==> y in s && y != x
    ensures |r| <= |s|
  {
    if s == [] then []
    else (if s[0] == x then [] else [s[0]]) + SetDelete(s[1..], x)
  }

  /** Deleting from a list without repeats leaves a list without repeats. */
  lemma {:induction false} SetDeleteDistinct(s: seq<string>, x: string)
    requires Distinct(s)
    ensures Distinct(SetDelete(s, x))
  {
    if s != [] {
      assert Distinct(s[1..]);
      SetDeleteDistinct(s[1..], x);
      var rest := SetDelete(s[1..], x);
      if s[0] != x {
        assert s[0] !in rest;
        var r := [s[0]] + rest;
        forall i, k | 0 <= i < k < |r|
          ensures r[i] != r[k]
        {
          if i == 0 {
            assert r[k] == rest[k - 1];
          } else {
            assert r[i] == rest[i - 1] && r[k] == rest[k - 1];
          }
        }
      }
    }
  }

  /** new Set(array): the members in order of first appearance. */
  function Dedup(s: seq<string>): (r: seq<string>)
    ensures Distinct(r)
    ensures forall y :: y in r <==> y in s
  {
    if s == [] then [] else SetAdd(Dedup(s[..|s| - 1]), s[|s| - 1])
  }

  /** A list without repeats comes out of a Set unchanged, so turning it into a Set and back gives the same list. */
  lemma {:induction false} DedupDistinct(s: seq<string>)
    requires Distinct(s)
    ensures Dedup(s) == s
  {
    if s != [] {
      var init := s[..|s| - 1];
      assert Distinct(init);
      DedupDistinct(init);
      assert s[|s| - 1] !in init;
      assert init + [s[|s| - 1]] == s;
    }
  }

  // ---- the snapshot, on the state's toJSON value ---------------------------

  /** currentPlayerId: the id at the turn's seat. */
  function CurrentOf(j: StateJson): string
    requires 0 <= j.turn < |j.players|
  {
    j.players[j.turn]
  }

  /** playerCards[playerId], undefined for a player who holds no hand. */
  function HandOf(j: StateJson, p: string): Option<seq<Card>> {
    if p in j.playerCards then Some(j.playerCards[p]) else None
  }

  /** computeValidCards of the player's hand (none for a missing hand) against the cards on the table. */
  function PlayableFor(j: StateJson, p: string): (r: seq<Card>)
    ensures forall c :: c in r ==> p in j.playerCards && c in j.playerCards[p]
    ensures r == [] <==> p !in j.playerCards || j.playerCards[p] == []
  {
    if p in j.playerCards then ComputeValidCards(j.playerCards[p], TableCards(j.playedCards)) else []
  }

  /**
   * snapshot(playerId): the state with the Maps as plain objects, only that
   * player's hand, and the playable cards only while playing on their turn.
   */
  function SnapshotOf(j: StateJson, p: string): (s: Snapshot)
    requires 0 <= j.turn < |j.players|
    ensures s.you == p && s.playerCards == HandOf(j, p)
    ensures forall c :: c in s.validCards ==> s.playerCards.Some? && c in s.playerCards.value
    ensures s.validCards != [] <==> j.phase == Playing && CurrentOf(j) == p && p in j.playerCards && j.playerCards[p] != []
    ensures j.phase == Playing && CurrentOf(j) == p ==> s.validCards == PlayableFor(j, p)
  {
    var validCards := if j.phase == Playing && CurrentOf(j) == p then PlayableFor(j, p) else [];
    Snapshot(j.players, p, HandOf(j, p), j.turn, j.phase, j.roundNumber, j.bids, j.playedCards, j.tricksWon,
             validCards, j.roundHistory, j.points, j.winner)
  }

  /** A card the snapshot offers as playable passes every check of a played card. */
  lemma OfferedCardsPlayable(j: StateJson, p: string, c: Card)
    requires 0 <= j.turn < |j.players|
    requires c in SnapshotOf(j, p).validCards
    ensures PlayError(j, p, c) == None
  {
    ValidCardsArePlayable(j.playerCards[p], TableCards(j.playedCards), c);
  }

  /** What one player's snapshot shows does not depend on the other players' hands. */
  lemma SnapshotHidesOtherHands(j1: StateJson, j2: StateJson, p: string)
    requires 0 <= j1.turn < |j1.players|
    requires j1.(playerCards := map[]) == j2.(playerCards := map[])
    requires HandOf(j1, p) == HandOf(j2, p)
    ensures SnapshotOf(j1, p) == SnapshotOf(j2, p)
  {
    assert j1.players == j2.players && j1.turn == j2.turn && j1.phase == j2.phase && j1.playedCards == j2.playedCards;
  }

  /** sendGameState: each listed player is sent their own snapshot, in order. */
  function StateSends(j: StateJson, ids: seq<string>): (r: seq<Event>)
    requires 0 <= j.turn < |j.players|
    ensures |r| == |ids|
  {
    seq(|ids|, k requires 0 <= k < |ids| => Send(ids[k], GameState(SnapshotOf(j, ids[k]))))
  }

  /** One more player, one more snapshot at the end. */
  lemma StateSendsSnoc(j: StateJson, ids: seq<string>, i: nat)
    requires 0 <= j.turn < |j.players| && i < |ids|
    ensures StateSends(j, ids[..i + 1]) == StateSends(j, ids[..i]) + [Send(ids[i], GameState(SnapshotOf(j, ids[i])))]
  {
  }

  /** notifyTurn: a getBid to the bidder, a getCard with the table to the player, nothing once the round or game is over. */
  function TurnNotice(j: StateJson): (r: seq<Event>)
    requires 0 <= j.turn < |j.players|
    ensures |r| <= 1
    ensures r != [] <==> j.phase == Bidding || j.phase == Playing
    ensures forall e :: e in r ==> e.Send? && e.to == CurrentOf(j)
  {
    if j.phase == Bidding then [Send(CurrentOf(j), GetBid)]
    else if j.phase == Playing then [Send(CurrentOf(j), GetCard(j.playedCards))]
    else []
  }

  // ---- the checks and the state changes, on the toJSON value ---------------

  /** The message a bid is refused with: the game's phase and turn checks, then submitBid's range check. */
  function BidError(j: StateJson, p: string, bid: int): (r: Option<string>)
    requires 0 <= j.turn < |j.players|
    ensures r == None <==> j.phase == Bidding && CurrentOf(j) == p && 1 <= bid <= 8
  {
    if j.phase != Bidding then Some(ERR_NOT_BIDDING)
    else if CurrentOf(j) != p then Some(ERR_NOT_YOUR_TURN)
    else if !(1 <= bid <= 8) then Some(ERR_BID_RANGE)
    else None
  }

  /** The message a card is refused with: the game's phase and turn checks, then playCard's hand and rule checks. */
  function PlayError(j: StateJson, p: string, c: Card): (r: Option<string>)
    requires 0 <= j.turn < |j.players|
    ensures r == None <==> j.phase == Playing && CurrentOf(j) == p && p in j.playerCards && c in j.playerCards[p]
                           && IsValidPlay(j.playerCards[p], TableCards(j.playedCards), c)
  {
    if j.phase != Playing then Some(ERR_NOT_PLAYING)
    else if CurrentOf(j) != p then Some(ERR_NOT_YOUR_TURN)
    else if p !in j.playerCards then Some(ERR_NO_HAND)
    else if c !in j.playerCards[p] then Some(ERR_NOT_HELD)
    else if !IsValidPlay(j.playerCards[p], TableCards(j.playedCards), c) then Some(ERR_INVALID_PLAY)
    else None
  }

  /** playCard's effect: the card moves from the hand to the table, and the turn moves on while fewer than four are down. */
  function PlayOn(j: StateJson, p: string, c: Card): StateJson
    requires p in j.playerCards
  {
    var played := j.playedCards + [Play(p, c)];
    j.(playerCards := j.playerCards[p := Without(j.playerCards[p], c)], playedCards := played,
       turn := if |played| < 4 then (j.turn + 1) % 4 else j.turn)
  }

  /** The gameEnded broadcast and the 'ended' event of a game that stops, with the same reason and details. */
  function EndEvents(reason: string, details: EndDetails): (r: seq<Event>)
    ensures |r| == 2 && r[0].Broadcast? && r[1].Ended? && r[1].reason == reason
  {
    [Broadcast(GameEnded(reason, details)), Ended(reason, details)]
  }

  // ---- the class ----------------------------------------------------------


  class CallbreakGame {
    /** The ids of the players Map the game was made with, in insertion order. */
    const players: seq<string>
    const timerDisabled: bool
    /** The state; null until start() or fromJSON sets it. */
    var state: CallbreakState?
    /** The disconnected Set, in insertion order. */
    var disconnected: seq<string>
    var turnDeadlineMs: int
    /** Whether a turn timeout is pending (timeoutHandle is set). */
    var timerArmed: bool

    ghost predicate Valid()
      reads this`state, state
    {
      state != null && state.Valid()
    }

    /** new CallbreakGame(players, options): the timer is off only when options.timer is false. */
    constructor (ids: seq<string>, timer: Option<bool>)
      ensures players == ids && timerDisabled == (timer == Some(false))
      ensures state == null && disconnected == [] && turnDeadlineMs == 0 && !timerArmed
    {
      players := ids;
      timerDisabled := timer == Some(false);
      state := null;
      disconnected := [];
      turnDeadlineMs := 0;
      timerArmed := false;
    }

    /** allowStart: an error unless exactly four players are present. */
    function AllowStart(): (r: Option<string>)
      ensures r == None <==> |players| == 4
      ensures r != None ==> r == Some(ERR_FOUR_PLAYERS)
    {
      if |players| != 4 then Some(ERR_FOUR_PLAYERS) else None
    }

    function CurrentPlayerId(): string
      requires Valid()
      reads this`state, state
    {
      state.players[state.turn]
    }

    function Snapshot(p: string): Snapshot
      requires Valid()
      reads this`state, state
    {
      SnapshotOf(state.ToJson(), p)
    }

    /** remainingTimeMs: -1 with the timer off, else the time to the deadline and never below 0. */
    function RemainingTimeMs(now: int): (ms: int)
      reads this`turnDeadlineMs
      ensures ms == -1 <==> timerDisabled
      ensures !timerDisabled && turnDeadlineMs <= now ==> ms == 0
      ensures !timerDisabled && now <= turnDeadlineMs ==> now + ms == turnDeadlineMs
    {
      if timerDisabled then -1
      else if turnDeadlineMs - now > 0 then turnDeadlineMs - now else 0
    }

    /** resyncPlayer: the player's snapshot and the time left, to that player only. */
    function ResyncEvents(p: string, now: int): seq<Event>
      requires Valid()
      reads this`state, state, this`turnDeadlineMs
    {
      [Send(p, GameState(Snapshot(p))), Send(p, TurnTimer(RemainingTimeMs(now)))]
    }

    /** The catch of onMessage: the error to the sender, then a resync. */
    function Refusal(p: string, message: string, now: int): seq<Event>
      requires Valid()
      reads this`state, state, this`turnDeadlineMs
    {
      [Error(p, message)] + ResyncEvents(p, now)
    }

    /** sendGameState: every player's own snapshot of the current state. */
    function Sends(): seq<Event>
      requires Valid()
      reads this`state, state
    {
      StateSends(state.ToJson(), players)
    }

    /** notifyTurn and the broadcast of startTurnTimer: the prompt of the player to move and the time they have. */
    function PromptEvents(): seq<Event>
      requires Valid()
      reads this`state, state
    {
      TurnNotice(state.ToJson()) + [Broadcast(TurnTimerFor(CurrentPlayerId(), TimerShown()))]
    }

    /** The time left startTurnTimer announces: -1 with the timer off, else the full 30 s. */
    function TimerShown(): int {
      if timerDisabled then -1 else DURATION_MS
    }

    /** The timer after startTurnTimer at time now: untouched when off, else pending with the deadline 30 s away. */
    ghost predicate TimerStarted(now: int, armed0: bool, deadline0: int)
      reads this`timerArmed, this`turnDeadlineMs
    {
      if timerDisabled then timerArmed == armed0 && turnDeadlineMs == deadline0
      else timerArmed && turnDeadlineMs == now + DURATION_MS
    }

    /** The trick of state j0 collected: credited to its winner and filed, the table cleared, the winner leading, the rest of the round as it was. */
    ghost predicate Collected(j0: StateJson)
      requires Valid() && j0.playedCards != [] && |j0.players| == 4 && state.players == j0.players
      reads this`state, state
    {
      state.playerCards == j0.playerCards && state.roundNumber == j0.roundNumber && state.bids == j0.bids
      && state.currentBiddingOrder == j0.currentBiddingOrder
      && state.TrickCollected(j0.tricksWon, j0.cardsHistory, j0.playedCards, j0.trickLeadPlayerIndex)
    }

    /** The last trick of the round collected: every hand empty, the round scored and archived, and round_over or game_over. */
    ghost predicate Scored(j0: StateJson)
      requires Valid()
      reads this`state, state
    {
      AllHandsEmpty(state.playerCards)
      && Keyed(state.players, j0.points) && Keyed(state.players, state.bids) && Keyed(state.players, state.tricksWon)
      && state.RoundEnded(j0.points, j0.roundHistory, j0.winner)
    }

    /** A trick that is not the round's last: cards remain, play goes on and the scores stay as they were. */
    ghost predicate Unscored(j0: StateJson)
      requires Valid()
      reads this`state, state
    {
      !AllHandsEmpty(state.playerCards) && state.phase == Playing
      && state.points == j0.points && state.roundHistory == j0.roundHistory && state.winner == j0.winner
    }

    /**
     * What follows the trickWon of the full trick of state j0: the game is
     * over with the round scored, or play goes on with the winner prompted
     * to lead, or (after round_over) a new round is dealt, sent and prompted.
     */
    ghost predicate Followed(j0: StateJson, armed0: bool, deadline0: int, now: int, out: seq<Event>)
      requires Valid() && j0.playedCards != [] && |j0.players| == 4 && state.players == j0.players
      reads this, state
    {
      match state.phase
      case GameOver =>
        Collected(j0) && Scored(j0)
        && !timerArmed && turnDeadlineMs == deadline0 && out == EndEvents(REASON_COMPLETED, WinnerIs(state.winner))
      case Playing =>
        Collected(j0) && Unscored(j0) && TimerStarted(now, armed0, deadline0) && out == PromptEvents()
      case Bidding =>
        state.roundNumber == j0.roundNumber + 1 && state.playedCards == []
        && TimerStarted(now, armed0, deadline0) && out == Sends() + PromptEvents()
      case RoundOver => false
    }

    /** After the full trick of state j0: trickWon with the winner's id is broadcast, and the rest Followed says. */
    ghost predicate TrickClosed(j0: StateJson, armed0: bool, deadline0: int, now: int, out: seq<Event>)
      requires Valid() && j0.playedCards != [] && |j0.players| == 4 && state.players == j0.players
      reads this, state
    {
      |out| > 0 && out[0] == Broadcast(TrickWon(j0.players[TrickWinner(j0.trickLeadPlayerIndex, j0.playedCards)]))
      && Followed(j0, armed0, deadline0, now, out[1..])
    }

    /** onMessage's handling of a bid: refused with the first failing check's message, or recorded and the next turn prompted. */
    twostate predicate BidHandled(p: string, bid: int, now: int, out: seq<Event>)
      requires old(Valid()) && Valid() && old(state) == state
      reads this, state
    {
      var err := BidError(old(state.ToJson()), p, bid);
      (err.Some? ==>
         unchanged(state) && timerArmed == old(timerArmed) && turnDeadlineMs == old(turnDeadlineMs)
         && out == Refusal(p, err.value, now))
      && (err.None? ==>
            state.BidTaken(p, bid) && TimerStarted(now, old(timerArmed), old(turnDeadlineMs))
            && out == [Broadcast(PlayerBid(p, bid)), Broadcast(BidMade)] + Sends() + PromptEvents())
    }

    /**
     * onMessage's handling of a card: refused with the first failing check's
     * message, or played, broadcast and shown to everyone with the card on
     * the table; then a short trick prompts the next player and a full one
     * is closed as TrickClosed says.
     */
    twostate predicate PlayHandled(p: string, card: Card, now: int, out: seq<Event>)
      requires old(Valid()) && Valid() && old(state) == state
      reads this, state
    {
      var j0 := old(state.ToJson());
      var err := PlayError(j0, p, card);
      (err.Some? ==>
         unchanged(state) && timerArmed == old(timerArmed) && turnDeadlineMs == old(turnDeadlineMs)
         && out == Refusal(p, err.value, now))
      && (err.None? ==>
            (|j0.playedCards| < 3 ==> state.CardTaken(p, card))
            && Continued(PlayOn(j0, p, card), p, card, old(timerArmed), old(turnDeadlineMs), now, out))
    }

    /**
     * What follows a card accepted into state mid: the card is broadcast and
     * every player sent the table with it; then a short trick prompts the
     * next player and a full one is closed as TrickClosed says.
     */
    ghost predicate Continued(mid: StateJson, p: string, card: Card, armed0: bool, deadline0: int, now: int, out: seq<Event>)
      requires Valid() && 0 <= mid.turn < |mid.players| == 4 && state.players == mid.players
      reads this, state
    {
      var shown := [Broadcast(PlayerCard(p, card))] + StateSends(mid, players);
      |out| >= |shown| && out[..|shown|] == shown
      && (|mid.playedCards| < 4 ==> TimerStarted(now, armed0, deadline0) && out[|shown|..] == PromptEvents())
      && (|mid.playedCards| >= 4 ==> TrickClosed(mid, armed0, deadline0, now, out[|shown|..]))
    }

    // ---- start ----

    /**
     * start: a fresh state for the players (its constructor throws on a bad
     * list), a new round, the snapshots, and the first bidder's prompt.
     */
    method Start(now: int) returns (r: Outcome<string>, events: seq<Event>)
      modifies this`state, this`timerArmed, this`turnDeadlineMs
      ensures ValidatePlayers(players).Some? ==>
        r == Fail(ValidatePlayers(players).value) && events == []
        && state == old(state) && timerArmed == old(timerArmed) && turnDeadlineMs == old(turnDeadlineMs)
      ensures ValidatePlayers(players).None? ==>
        r == Pass && Valid() && fresh(state) && state.players == players
        && state.roundNumber == 1 && state.turn == 1 && state.phase == Bidding
        && TimerStarted(now, old(timerArmed), old(turnDeadlineMs)) && events == Sends() + PromptEvents()
    {
      var created := CallbreakState.Create(players);
      if created.Failure? {
        return Fail(created.error), [];
      }
      state := created.value;
      state.NewRound();
      events := Announce(now);
      r := Pass;
    }

    // ---- onMessage ----

    /**
     * onMessage: a resync on request; a bid or a card handled as BidHandled
     * and PlayHandled say; any other type ignored.
     */
    method OnMessage(p: string, msg: ClientMessage, now: int) returns (events: seq<Event>)
      requires Valid()
      modifies this`timerArmed, this`turnDeadlineMs, state
      ensures Valid()
      ensures msg.RequestGameState? ==>
        unchanged(state) && timerArmed == old(timerArmed) && turnDeadlineMs == old(turnDeadlineMs)
        && events == ResyncEvents(p, now)
      ensures msg.BidRequest? ==> BidHandled(p, msg.bid, now, events)
      ensures msg.PlayCardRequest? ==> PlayHandled(p, msg.card, now, events)
      ensures msg.OtherRequest? ==>
        unchanged(state) && timerArmed == old(timerArmed) && turnDeadlineMs == old(turnDeadlineMs) && events == []
    {
      match msg
      case RequestGameState =>
        events := ResyncPlayer(p, now);
      case BidRequest(bid) =>
        events := HandleBid(p, bid, now);
      case PlayCardRequest(card) =>
        events := HandlePlay(p, card, now);
      case OtherRequest(_) =>
        events := [];
    }

    /** The bid case of onMessage: the game's own phase and turn checks, then submitBid. */
    method HandleBid(p: string, bid: int, now: int) returns (events: seq<Event>)
      requires Valid()
      modifies this`timerArmed, this`turnDeadlineMs, state`bids, state`turn, state`phase
      ensures Valid()
      ensures BidHandled(p, bid, now, events)
    {
      if state.phase != Bidding {
        events := Refusal(p, ERR_NOT_BIDDING, now);
      } else if CurrentPlayerId() != p {
        events := Refusal(p, ERR_NOT_YOUR_TURN, now);
      } else {
        events := AcceptBid(p, bid, now);
      }
    }

    /** submitBid from the player to move; a refusal is caught, else the bid is broadcast and the next turn announced. */
    method AcceptBid(p: string, bid: int, now: int) returns (events: seq<Event>)
      requires Valid() && state.phase == Bidding && CurrentPlayerId() == p
      modifies this`timerArmed, this`turnDeadlineMs, state`bids, state`turn, state`phase
      ensures Valid()
      ensures !(1 <= bid <= 8) ==>
        unchanged(state) && timerArmed == old(timerArmed) && turnDeadlineMs == old(turnDeadlineMs)
        && events == Refusal(p, ERR_BID_RANGE, now)
      ensures 1 <= bid <= 8 ==>
        state.BidTaken(p, bid) && TimerStarted(now, old(timerArmed), old(turnDeadlineMs))
        && events == [Broadcast(PlayerBid(p, bid)), Broadcast(BidMade)] + Sends() + PromptEvents()
    {
      var submitted := state.SubmitBid(p, bid);
      if submitted.Fail? {
        events := Refusal(p, submitted.error, now);
      } else {
        var announced := Announce(now);
        events := [Broadcast(PlayerBid(p, bid)), Broadcast(BidMade)] + announced;
      }
    }

    /** The playCard case of onMessage: the game's own phase and turn checks, then playCard. */
    method HandlePlay(p: string, card: Card, now: int) returns (events: seq<Event>)
      requires Valid()
      modifies this`timerArmed, this`turnDeadlineMs, state
      ensures Valid()
      ensures PlayHandled(p, card, now, events)
    {
      if state.phase != Playing {
        events := Refusal(p, ERR_NOT_PLAYING, now);
      } else if CurrentPlayerId() != p {
        events := Refusal(p, ERR_NOT_YOUR_TURN, now);
      } else {
        events := TryPlay(p, card, now);
      }
    }

    /**
     * playCard from the player to move; a refusal is caught, else the card
     * is broadcast and every player sent the table with it; then the next
     * player is prompted, or a full trick is closed.
     */
    method TryPlay(p: string, card: Card, now: int) returns (events: seq<Event>)
      requires Valid() && state.phase == Playing && CurrentPlayerId() == p
      modifies this`timerArmed, this`turnDeadlineMs, state
      ensures Valid()
      ensures PlayHandled(p, card, now, events)
    {
      ghost var j0 := state.ToJson();
      var played := state.PlayCard(p, card);
      if played.Fail? {
        events := Refusal(p, played.error, now);
      } else {
        events := ShowPlay(p, card, now, PlayOn(j0, p, card));
      }
    }

    /** The card just played into state mid is broadcast and shown; then the next player is prompted, or the full trick closed. */
    method ShowPlay(p: string, card: Card, now: int, ghost mid: StateJson) returns (events: seq<Event>)
      requires Valid() && state.phase == Playing && state.playedCards != [] && mid == state.ToJson()
      modifies this`timerArmed, this`turnDeadlineMs, state
      ensures Valid() && state.players == mid.players
      ensures |mid.playedCards| < 4 ==> unchanged(state)
      ensures Continued(mid, p, card, old(timerArmed), old(turnDeadlineMs), now, events)
    {
      var shown := SendGameState();
      var next;
      if |state.playedCards| < 4 {
        next := Prompt(now);
      } else {
        next := CloseTrick(now, mid);
      }
      var played := [Broadcast(PlayerCard(p, card))] + shown;
      events := played + next;
      assert events[..|played|] == played && events[|played|..] == next;
    }

    /**
     * The full-trick branch of onMessage: resolveTrick, trickWon, and then
     * the end of the game, a new round after round_over, or the next lead.
     */
    method CloseTrick(now: int, ghost j0: StateJson) returns (events: seq<Event>)
      requires Valid() && state.phase == Playing && state.playedCards != [] && j0 == state.ToJson()
      modifies this`timerArmed, this`turnDeadlineMs, state
      ensures Valid() && state.players == j0.players
      ensures TrickClosed(j0, old(timerArmed), old(turnDeadlineMs), now, events)
    {
      var won := Resolve(j0);
      var next := FollowTrick(now, j0);
      events := won + next;
      assert events[1..] == next;
    }

    /** resolveTrick on the full table of state j0, and the trickWon broadcast with the winner's id. */
    method Resolve(ghost j0: StateJson) returns (events: seq<Event>)
      requires Valid() && state.phase == Playing && state.playedCards != [] && j0 == state.ToJson()
      modifies state`tricksWon, state`cardsHistory, state`playedCards, state`turn, state`trickLeadPlayerIndex
      modifies state`points, state`roundHistory, state`phase, state`winner
      ensures Valid()
      ensures events == [Broadcast(TrickWon(j0.players[TrickWinner(j0.trickLeadPlayerIndex, j0.playedCards)]))]
      ensures Collected(j0)
      ensures AllHandsEmpty(state.playerCards) ==> Scored(j0)
      ensures !AllHandsEmpty(state.playerCards) ==> Unscored(j0)
    {
      var resolved := state.ResolveTrick();
      events := [Broadcast(TrickWon(resolved.value))];
    }

    /** After trickWon: the end of the game, a new round after round_over, or the winner prompted to lead. */
    method FollowTrick(now: int, ghost j0: StateJson) returns (events: seq<Event>)
      requires Valid() && j0.playedCards != [] && |j0.players| == 4 && state.players == j0.players
      requires Collected(j0)
      requires AllHandsEmpty(state.playerCards) ==> Scored(j0)
      requires !AllHandsEmpty(state.playerCards) ==> Unscored(j0)
      modifies this`timerArmed, this`turnDeadlineMs, state
      ensures Valid() && state.players == j0.players
      ensures Followed(j0, old(timerArmed), old(turnDeadlineMs), now, events)
    {
      if state.phase == GameOver {
        events := EndGame(REASON_COMPLETED, WinnerIs(state.winner));
      } else if state.phase == RoundOver {
        events := NextRound(now);
      } else {
        events := Prompt(now);
      }
    }

    /** After round_over: newRound deals the next round, which is sent and its first bidder prompted. */
    method NextRound(now: int) returns (events: seq<Event>)
      requires Valid() && state.roundNumber < TOTAL_ROUNDS
      modifies this`timerArmed, this`turnDeadlineMs, state
      ensures Valid() && state.players == old(state.players)
      ensures state.phase == Bidding && state.roundNumber == old(state.roundNumber) + 1 && state.playedCards == []
      ensures TimerStarted(now, old(timerArmed), old(turnDeadlineMs)) && events == Sends() + PromptEvents()
    {
      state.NewRound();
      events := Announce(now);
    }

    /** The end of the game: timers cleared, then gameEnded broadcast and 'ended' emitted with the same reason and details. */
    method EndGame(reason: string, details: EndDetails) returns (events: seq<Event>)
      modifies this`timerArmed
      ensures !timerArmed && events == EndEvents(reason, details)
    {
      ClearTimers();
      events := [Broadcast(GameEnded(reason, details)), Ended(reason, details)];
    }

    // ---- onDisconnect / onReconnect ----

    /**
     * onDisconnect: the player joins the disconnected Set; during bidding the
     * game is cancelled, its timer cleared, and gameEnded (naming the player)
     * broadcast before 'ended', which carries the reason only.
     */
    method OnDisconnect(p: string) returns (events: seq<Event>)
      requires Valid()
      modifies this`disconnected, this`timerArmed
      ensures disconnected == SetAdd(old(disconnected), p) && p in disconnected
      ensures Distinct(old(disconnected)) ==> Distinct(disconnected)
      ensures state.phase == Bidding ==>
        !timerArmed
        && events == [Broadcast(GameEnded(REASON_DISCONNECTED, PlayerIs(p))), Ended(REASON_DISCONNECTED, NoDetails)]
      ensures state.phase != Bidding ==> timerArmed == old(timerArmed) && events == []
    {
      disconnected := SetAdd(disconnected, p);
      events := [];
      if state.phase == Bidding {
        ClearTimers();
        events := [Broadcast(GameEnded(REASON_DISCONNECTED, PlayerIs(p))), Ended(REASON_DISCONNECTED, NoDetails)];
      }
    }

    /** onReconnect: the player leaves the disconnected Set and is sent their snapshot and the time left. */
    method OnReconnect(p: string, now: int) returns (events: seq<Event>)
      requires Valid()
      modifies this`disconnected
      ensures disconnected == SetDelete(old(disconnected), p) && p !in disconnected
      ensures Distinct(old(disconnected)) ==> Distinct(disconnected)
      ensures events == ResyncEvents(p, now)
    {
      if Distinct(disconnected) {
        SetDeleteDistinct(disconnected, p);
      }
      disconnected := SetDelete(disconnected, p);
      events := ResyncPlayer(p, now);
    }

    // ---- onTurnTimeout ----

    /** The cards pickRandomValidCard draws from: computeValidCards of the hand of the player to move against the table. */
    function Candidates(): seq<Card>
      requires Valid()
      reads this`state, state
    {
      PlayableFor(state.ToJson(), CurrentPlayerId())
    }

    /** While playing, every card the auto-play may draw passes all of playCard's checks. */
    lemma CandidatesPlayable(c: Card)
      requires Valid() && state.phase == Playing && c in Candidates()
      ensures state.PlayCheck(state.playerCards, state.playedCards, state.turn, CurrentPlayerId(), c) == Pass
    {
      ValidCardsArePlayable(state.playerCards[CurrentPlayerId()], TableCards(state.playedCards), c);
    }

    /**
     * onTurnTimeout as written: the bidder is bid 1 for, or the player is
     * played the candidate at `pick` (standing in for Math.random), which
     * is broadcast and shown; an empty candidate list makes playCard throw
     * and the game end as stalled. The trick is never resolved here, so a
     * fourth card leaves the table full and the same player to move.
     */
    method OnTurnTimeout(pick: nat, now: int) returns (events: seq<Event>)
      requires Valid()
      modifies this`timerArmed, this`turnDeadlineMs, state
      ensures Valid()
      ensures old(state.phase) == Bidding ==>
        state.BidTaken(old(CurrentPlayerId()), 1) && TimerStarted(now, old(timerArmed), old(turnDeadlineMs))
        && events == [Broadcast(PlayerBid(old(CurrentPlayerId()), 1)), Broadcast(BidMade)] + Sends() + PromptEvents()
      ensures old(state.phase) == Playing && old(Candidates()) == [] ==>
        unchanged(state) && !timerArmed && events == EndEvents(REASON_STALLED, NoDetails)
      ensures old(state.phase) == Playing && old(Candidates()) != [] ==>
        var id, card := old(CurrentPlayerId()), old(Candidates())[pick % |old(Candidates())|];
        old(id in state.playerCards) && state.CardTaken(id, card) && TimerStarted(now, old(timerArmed), old(turnDeadlineMs))
        && events == [Broadcast(PlayerCard(id, card))] + Sends() + PromptEvents()
      ensures old(state.phase) == Playing && old(Candidates()) != [] && |old(state.playedCards)| >= 3 ==>
        |state.playedCards| == |old(state.playedCards)| + 1 && state.phase == Playing && CurrentPlayerId() == old(CurrentPlayerId())
      ensures old(state.phase) == RoundOver || old(state.phase) == GameOver ==> Finished(old(state.ToJson()), old(timerArmed), old(turnDeadlineMs), now, events)
    {
      var id := CurrentPlayerId();
      if state.phase == Bidding {
        var bid := AutoBid(id);
        var next := Prompt(now);
        events := bid + next;
      } else if state.phase == Playing {
        var stalled, played := AutoPlay(id, pick);
        if stalled {
          return played;
        }
        var next := Prompt(now);
        events := played + next;
      } else {
        events := FinishTimeout(now);
      }
    }

    /**
     * The tail of onTurnTimeout from round_over or game_over: newRound and
     * the state sent; then on game_over the timers cleared, the state sent
     * and the end announced; otherwise the next player prompted.
     */
    ghost predicate Finished(j0: StateJson, armed0: bool, deadline0: int, now: int, out: seq<Event>)
      requires Valid()
      reads this, state
    {
      match j0.phase
      case RoundOver =>
        if j0.roundNumber < TOTAL_ROUNDS then
          state.phase == Bidding && state.roundNumber == j0.roundNumber + 1 && state.FreshRound()
          && TimerStarted(now, armed0, deadline0) && out == Sends() + PromptEvents()
        else
          state.ToJson() == j0.(phase := GameOver) && !timerArmed && turnDeadlineMs == deadline0
          && out == Sends() + Sends() + EndEvents(REASON_COMPLETED, WinnerIs(state.winner))
      case GameOver =>
        state.ToJson() == j0 && !timerArmed && turnDeadlineMs == deadline0
        && out == Sends() + EndEvents(REASON_COMPLETED, WinnerIs(state.winner))
      case _ => true
    }

    /** The bidding branch of onTurnTimeout: the minimum bid for the player to move, broadcast, and the state sent. */
    method AutoBid(id: string) returns (events: seq<Event>)
      requires Valid() && state.phase == Bidding && id == CurrentPlayerId()
      modifies state`bids, state`turn, state`phase
      ensures Valid()
      ensures state.BidTaken(id, 1) && state.phase != RoundOver && state.phase != GameOver
      ensures events == [Broadcast(PlayerBid(id, 1)), Broadcast(BidMade)] + Sends()
    {
      var submitted := state.SubmitBid(id, 1);
      var shown := SendGameState();
      events := [Broadcast(PlayerBid(id, 1)), Broadcast(BidMade)] + shown;
    }

    /**
     * The playing branch of onTurnTimeout: the candidate at `pick` is played,
     * broadcast and the state sent; with no candidate, playCard throws and
     * the catch ends the game as stalled.
     */
    method AutoPlay(id: string, pick: nat) returns (stalled: bool, events: seq<Event>)
      requires Valid() && state.phase == Playing && id == CurrentPlayerId()
      modifies this`timerArmed, state`playerCards, state`playedCards, state`turn
      ensures Valid()
      ensures stalled <==> old(Candidates()) == []
      ensures stalled ==> unchanged(state) && !timerArmed && events == EndEvents(REASON_STALLED, NoDetails)
      ensures !stalled ==>
        var card := old(Candidates())[pick % |old(Candidates())|];
        old(id in state.playerCards) && state.CardTaken(id, card) && timerArmed == old(timerArmed)
        && events == [Broadcast(PlayerCard(id, card))] + Sends()
    {
      var candidates := Candidates();
      if candidates == [] {
        ClearTimers();
        return true, EndEvents(REASON_STALLED, NoDetails);
      }
      var card := candidates[pick % |candidates|];
      CandidatesPlayable(card);
      var played := state.PlayCard(id, card);
      var shown := SendGameState();
      stalled, events := false, [Broadcast(PlayerCard(id, card))] + shown;
    }

    /** onTurnTimeout reached in round_over or game_over: what Finished says. */
    method FinishTimeout(now: int) returns (events: seq<Event>)
      requires Valid() && (state.phase == RoundOver || state.phase == GameOver)
      modifies this`timerArmed, this`turnDeadlineMs, state
      ensures Valid()
      ensures Finished(old(state.ToJson()), old(timerArmed), old(turnDeadlineMs), now, events)
    {
      if state.phase == RoundOver {
        events := NewRoundTimeout(now, state.ToJson());
      } else {
        events := EndTimeout();
      }
    }

    /**
     * onTurnTimeout reached in round_over: newRound and the state sent; then
     * the end of the game when newRound found the last round played (it
     * then only moves to game_over), else the first bidder prompted.
     */
    method NewRoundTimeout(now: int, ghost j0: StateJson) returns (events: seq<Event>)
      requires Valid() && state.phase == RoundOver && j0 == state.ToJson()
      modifies this`timerArmed, this`turnDeadlineMs, state
      ensures Valid()
      ensures Finished(j0, old(timerArmed), old(turnDeadlineMs), now, events)
    {
      if state.roundNumber < TOTAL_ROUNDS {
        state.NewRound();
        var shown := SendGameState();
        var rest := Prompt(now);
        events := shown + rest;
      } else {
        events := LastRoundTimeout(j0);
      }
    }

    /** round_over after the last round: newRound moves to game_over and nothing else, then the state is sent twice and the end announced. */
    method LastRoundTimeout(ghost j0: StateJson) returns (events: seq<Event>)
      requires Valid() && state.roundNumber >= TOTAL_ROUNDS && j0 == state.ToJson()
      modifies this`timerArmed, state
      ensures Valid() && state.ToJson() == j0.(phase := GameOver) && !timerArmed
      ensures events == Sends() + Sends() + EndEvents(REASON_COMPLETED, WinnerIs(state.winner))
    {
      state.NewRound();
      var shown := SendGameState();
      var rest := EndTimeout();
      events := shown + rest;
    }

    /** The game_over tail of onTurnTimeout: timers cleared, the state sent, and the end announced with the winner. */
    method EndTimeout() returns (events: seq<Event>)
      requires Valid()
      modifies this`timerArmed
      ensures !timerArmed && events == Sends() + EndEvents(REASON_COMPLETED, WinnerIs(state.winner))
    {
      ClearTimers();
      var shown := SendGameState();
      events := shown + EndEvents(REASON_COMPLETED, WinnerIs(state.winner));
    }

    /**
     * onTurnTimeout as evidently intended: the auto-played card goes through
     * the same path as a card the player sends, so a full trick is resolved
     * at once and the table never holds a fifth card.
     */
    method OnTurnTimeoutResolving(pick: nat, now: int) returns (events: seq<Event>)
      requires Valid()
      modifies this`timerArmed, this`turnDeadlineMs, state
      ensures Valid()
      ensures old(state.phase) == Bidding ==>
        state.BidTaken(old(CurrentPlayerId()), 1) && TimerStarted(now, old(timerArmed), old(turnDeadlineMs))
        && events == [Broadcast(PlayerBid(old(CurrentPlayerId()), 1)), Broadcast(BidMade)] + Sends() + PromptEvents()
      ensures old(state.phase) == Playing && old(Candidates()) == [] ==>
        unchanged(state) && !timerArmed && events == EndEvents(REASON_STALLED, NoDetails)
      ensures old(state.phase) == Playing && old(Candidates()) != [] ==>
        var id, card := old(CurrentPlayerId()), old(Candidates())[pick % |old(Candidates())|];
        PlayHandled(id, card, now, events)
        && state.playedCards == (if |old(state.playedCards)| < 3 then old(state.playedCards) + [Play(id, card)] else [])
      ensures old(state.phase) == RoundOver || old(state.phase) == GameOver ==> Finished(old(state.ToJson()), old(timerArmed), old(turnDeadlineMs), now, events)
    {
      var id := CurrentPlayerId();
      if state.phase == Bidding {
        var bid := AutoBid(id);
        var next := Prompt(now);
        events := bid + next;
      } else if state.phase == Playing {
        var candidates := Candidates();
        if candidates == [] {
          ClearTimers();
          return EndEvents(REASON_STALLED, NoDetails);
        }
        var card := candidates[pick % |candidates|];
        CandidatesPlayable(card);
        events := TryPlay(id, card, now);
      } else {
        events := FinishTimeout(now);
      }
    }

    // ---- toJSON / fromJSON ----

    /** toJSON: the state's snapshot, the disconnected ids in Set order, and the timer flag. */
    function ToJson(): (j: GameJson)
      requires state != null
      reads this`state, state, this`disconnected
      ensures j.state == state.ToJson() && j.disconnected == disconnected && j.timerDisabled == timerDisabled
    {
      GameJson(state.ToJson(), disconnected, timerDisabled)
    }

    /**
     * fromJSON: a game over the given players with the timer on unless the
     * data says it was off, the state rebuilt by CallbreakState.fromJSON, and
     * the disconnected ids put back into a Set.
     */
    static method FromJson(data: GameJson, ids: seq<string>) returns (r: Result<CallbreakGame, string>)
      ensures ValidatePlayers(data.state.players).Some? ==> r == Failure(ValidatePlayers(data.state.players).value)
      ensures ValidatePlayers(data.state.players).None? ==>
        r.Success? && fresh(r.value) && r.value.players == ids && r.value.state != null
        && r.value.disconnected == Dedup(data.disconnected) && !r.value.timerArmed
      ensures r.Success? && Distinct(data.disconnected) ==> r.value.ToJson() == data
    {
      var game := new CallbreakGame(ids, Some(!data.timerDisabled));
      var rebuilt := CallbreakState.FromJson(data.state);
      if rebuilt.Failure? {
        return Failure(rebuilt.error);
      }
      game.state := rebuilt.value;
      game.disconnected := Dedup(data.disconnected);
      if Distinct(data.disconnected) {
        DedupDistinct(data.disconnected);
      }
      return Success(game);
    }

    // ---- the helpers that emit ----

    /** sendGameState, notifyTurn and startTurnTimer, as after a bid and when a round starts. */
    method Announce(now: int) returns (events: seq<Event>)
      requires Valid()
      modifies this`timerArmed, this`turnDeadlineMs
      ensures TimerStarted(now, old(timerArmed), old(turnDeadlineMs)) && events == Sends() + PromptEvents()
    {
      var shown := SendGameState();
      var prompted := Prompt(now);
      events := shown + prompted;
    }

    /** notifyTurn and startTurnTimer: the player to move is prompted and the turn timer restarts. */
    method Prompt(now: int) returns (events: seq<Event>)
      requires Valid()
      modifies this`timerArmed, this`turnDeadlineMs
      ensures TimerStarted(now, old(timerArmed), old(turnDeadlineMs)) && events == PromptEvents()
    {
      var notice := NotifyTurn();
      var timer := StartTurnTimer(now);
      events := notice + timer;
    }

    /** resyncPlayer */
    method ResyncPlayer(p: string, now: int) returns (events: seq<Event>)
      requires Valid()
      ensures events == ResyncEvents(p, now)
    {
      events := [Send(p, GameState(Snapshot(p))), Send(p, TurnTimer(RemainingTimeMs(now)))];
    }

    /** sendGameState: a snapshot to every player of the Map, in its order. */
    method SendGameState() returns (events: seq<Event>)
      requires Valid()
      ensures events == Sends()
    {
      ghost var j := state.ToJson();
      events := [];
      for i := 0 to |players|
        invariant events == StateSends(j, players[..i])
      {
        StateSendsSnoc(j, players, i);
        events := events + [Send(players[i], GameState(Snapshot(players[i])))];
      }
      assert players[..|players|] == players;
    }

    /** notifyTurn */
    method NotifyTurn() returns (events: seq<Event>)
      requires Valid()
      ensures events == TurnNotice(state.ToJson())
    {
      if state.phase == Bidding {
        events := [Send(CurrentPlayerId(), GetBid)];
      } else if state.phase == Playing {
        events := [Send(CurrentPlayerId(), GetCard(state.playedCards))];
      } else {
        events := [];
      }
    }

    /** startTurnTimer: with the timer off only announces -1; else restarts the 30 s timeout and announces the time left. */
    method StartTurnTimer(now: int) returns (events: seq<Event>)
      requires Valid()
      modifies this`timerArmed, this`turnDeadlineMs
      ensures TimerStarted(now, old(timerArmed), old(turnDeadlineMs))
      ensures events == [Broadcast(TurnTimerFor(CurrentPlayerId(), TimerShown()))]
    {
      if timerDisabled {
        events := [Broadcast(TurnTimerFor(CurrentPlayerId(), -1))];
      } else {
        ClearTimers();
        turnDeadlineMs := now + DURATION_MS;
        var playerId := CurrentPlayerId();
        events := [Broadcast(TurnTimerFor(playerId, RemainingTimeMs(now)))];
        timerArmed := true;
      }
    }

    /** clearTimers: the pending timeout, if any, is cancelled. */
    method ClearTimers()
      modifies this`timerArmed
      ensures !timerArmed
    {
      timerArmed := false;
    }
  }
}
