/**
 * The class Room of room-service/src/room.ts: the roster of a room, its
 * host, the bots that fill it up to four seats, and the routing between
 * the transport, the bots and the game it hosts. The game is reached only
 * through the calls the room makes on it (logged as Call events) and the
 * events it emits back (Forward); its allowStart is a function of the
 * roster given to the room in place of the game factory.
 */
module RoomService {
  import opened Wrappers
  import opened StateRules
  import opened EngineGame
  import opened Roster

  class Room {
    const id: string
    /** allowStart of the game the factory builds over a roster. */
    const allowStart: seq<Player> -> Option<string>
    var players: seq<Player>
    var hostId: Option<string>
    /** Whether the room holds a game (game is not null). */
    var hasGame: bool
    var isActive: bool
    /** The ids of the bots Record, in the order they were seated. */
    var bots: seq<string>

    ghost predicate Valid()
      reads this
    {
      Distinct(IdsOf(players)) && (isActive ==> hasGame)
    }

    constructor (roomId: string, gameAllowStart: seq<Player> -> Option<string>)
      ensures Valid() && id == roomId && allowStart == gameAllowStart
      ensures players == [] && hostId == None && !hasGame && !isActive && bots == []
    {
      id := roomId;
      allowStart := gameAllowStart;
      players := [];
      hostId := None;
      hasGame := false;
      isActive := false;
      bots := [];
    }

    /**
     * handleMessage: a sender outside the room is ignored; a game-scoped
     * message goes to the game while one is running, a room-scoped one to
     * the lobby handling; anything else is dropped.
     */
    method HandleMessage(playerId: string, message: RoomMessage) returns (events: seq<RoomEvent>)
      requires Valid()
      modifies this
      ensures Valid()
      ensures playerId !in old(IdsOf(players)) || message.scope !in {SCOPE_GAME, SCOPE_ROOM} ==>
        unchanged(this) && events == []
      ensures playerId in old(IdsOf(players)) && message.scope == SCOPE_GAME ==>
        unchanged(this) && events == if old(isActive) then [Call(OnMessage(playerId, message))] else []
      ensures playerId in old(IdsOf(players)) && message.scope == SCOPE_ROOM && message.kind !in {START_GAME, PLAY_AGAIN} ==>
        unchanged(this) && events == []
      ensures playerId in old(IdsOf(players)) && message.scope == SCOPE_ROOM && message.kind in {START_GAME, PLAY_AGAIN} ==>
        StartHandled(playerId, events)
    {
      var player := Find(players, playerId);
      if player.None? {
        return [];
      }
      if message.scope == SCOPE_GAME && isActive {
        events := [Call(OnMessage(playerId, message))];
      } else if message.scope == SCOPE_ROOM {
        events := HandleLobbyMessage(playerId, message.kind);
      } else {
        events := [];
      }
    }

    /**
     * What a startGame (or playAgain) from playerId does: nothing unless it
     * comes from the host; a close while a game runs; the game's allowStart
     * error to the requester alone; else the game starts.
     */
    twostate predicate StartHandled(playerId: string, events: seq<RoomEvent>)
      reads this
    {
      (old(hostId) != Some(playerId) ==> unchanged(this) && events == [])
      && (old(hostId) == Some(playerId) && old(isActive) ==>
            unchanged(this) && events == [Close(playerId, ERR_IN_PROGRESS)])
      && (old(hostId) == Some(playerId) && !old(isActive) && Refuses(allowStart(old(players))) ==>
            unchanged(this) && events == [SendTo(SCOPE_ROOM, playerId, RoomError(allowStart(old(players)).value))])
      && (old(hostId) == Some(playerId) && !old(isActive) && !Refuses(allowStart(old(players))) ==>
            isActive && hasGame && unchanged(this`players, this`hostId, this`bots)
            && events == [BroadcastAll(SCOPE_ROOM, GameStarted), Call(Start)])
    }

    /** handleLobbyMessage: startGame, or playAgain from the host, which is handled as a startGame. */
    method HandleLobbyMessage(playerId: string, kind: string) returns (events: seq<RoomEvent>)
      requires Valid()
      modifies this
      ensures Valid()
      ensures kind in {START_GAME, PLAY_AGAIN} ==> StartHandled(playerId, events)
      ensures kind !in {START_GAME, PLAY_AGAIN} ==> unchanged(this) && events == []
    {
      if kind == START_GAME {
        events := StartGame(playerId);
      } else if kind == PLAY_AGAIN {
        if hostId != Some(playerId) {
          return [];
        }
        events := StartGame(playerId);
      } else {
        events := [];
      }
    }

    /** The startGame branch of handleLobbyMessage. */
    method StartGame(playerId: string) returns (events: seq<RoomEvent>)
      requires Valid()
      modifies this
      ensures Valid()
      ensures StartHandled(playerId, events)
    {
      if hostId != Some(playerId) {
        return [];
      }
      if isActive {
        return [Close(playerId, ERR_IN_PROGRESS)];
      }
      var error := allowStart(players);
      if Refuses(error) {
        return [SendTo(SCOPE_ROOM, playerId, RoomError(error.value))];
      }
      hasGame := true;
      events := [BroadcastAll(SCOPE_ROOM, GameStarted)];
      isActive := true;
      events := events + [Call(Start)];
    }

    /**
     * join: while a game runs, a known id reconnects to it and an unknown
     * one is closed, and the roster stays as it was. Otherwise the player
     * is announced, seated (replacing an entry under the same id), made
     * host if there is none, and welcomed with the roster; a person is
     * then joined by bots until four are seated.
     */
    method Join(player: Player) returns (events: seq<RoomEvent>)
      requires Valid()
      modifies this
      ensures Valid()
      ensures old(isActive) ==>
        unchanged(this)
        && events == if player.id in old(IdsOf(players)) then [Call(OnReconnect(player.id))] else [Close(player.id, ERR_IN_PROGRESS)]
      ensures !old(isActive) ==>
        var seated := Put(old(players), player);
        |seated| <= |players| && players[..|seated|] == seated
        && !isActive && hasGame == old(hasGame)
        && |events| >= 2
        && events[..2] == [BroadcastAll(SCOPE_ROOM, PlayerJoined(player)), SendTo(SCOPE_ROOM, player.id, Welcome(seated, HostAfter(old(hostId), player.id)))]
        && (!HostUnset(HostAfter(old(hostId), player.id)) ==> hostId == HostAfter(old(hostId), player.id))
      ensures !old(isActive) && player.isBot ==>
        players == Put(old(players), player) && bots == old(bots) && hostId == HostAfter(old(hostId), player.id)
      ensures !old(isActive) && !player.isBot ==>
        var seated := Put(old(players), player);
        |players| == (if |seated| < 4 then 4 else |seated|)
        && forall i :: |seated| <= i < |players| ==> players[i].isBot && players[i].id in bots
    {
      if isActive {
        if player.id in IdsOf(players) {
          events := [Call(OnReconnect(player.id))];
        } else {
          events := [Close(player.id, ERR_IN_PROGRESS)];
        }
        return;
      }
      events := Seat(player);
      if !player.isBot {
        var added := Backfill();
        events := events + added;
      }
    }

    /** The host after a player joins: the joiner when there was none (or the empty id), else the same. */
    static function HostAfter(hostId: Option<string>, joiner: string): Option<string> {
      if HostUnset(hostId) then Some(joiner) else hostId
    }

    /** The part of join outside a running game, before the bots: announce, seat, maybe host, welcome. */
    method Seat(player: Player) returns (events: seq<RoomEvent>)
      requires Valid() && !isActive
      modifies this`players, this`hostId
      ensures Valid()
      ensures players == Put(old(players), player) && hostId == HostAfter(old(hostId), player.id)
      ensures events == [BroadcastAll(SCOPE_ROOM, PlayerJoined(player)), SendTo(SCOPE_ROOM, player.id, Welcome(players, hostId))]
    {
      events := [BroadcastAll(SCOPE_ROOM, PlayerJoined(player))];
      players := Put(players, player);
      if HostUnset(hostId) {
        hostId := Some(player.id);
      }
      events := events + [SendTo(SCOPE_ROOM, player.id, Welcome(players, hostId))];
    }

    /**
     * The bot loop of join, with each bot under an id no player holds
     * (FreshBotId): every pass seats one more bot, so the room reaches four
     * and the players already seated keep their places.
     */
    method Backfill() returns (events: seq<RoomEvent>)
      requires Valid() && !isActive
      modifies this`players, this`hostId, this`bots
      ensures Valid()
      ensures |players| == (if |old(players)| < 4 then 4 else |old(players)|)
      ensures players[..|old(players)|] == old(players)
      ensures forall i :: |old(players)| <= i < |players| ==> players[i].isBot && players[i].id in bots
      ensures !HostUnset(old(hostId)) ==> hostId == old(hostId)
    {
      ghost var n0 := |players|;
      events := [];
      while |players| < 4
        invariant Valid() && !isActive
        invariant |players| >= n0 && (n0 < 4 ==> |players| <= 4) && (n0 >= 4 ==> |players| == n0)
        invariant BotsAppended(players, old(players), bots)
        invariant !HostUnset(old(hostId)) ==> hostId == old(hostId)
        decreases 4 - |players|
      {
        var botId := FreshBotId(players);
        var bot := BotPlayer(botId, |players| + 1);
        PutAppends(players, bot);
        AppendBot(players, old(players), bots, bot);
        bots := SetAdd(bots, botId);
        var seated := Seat(bot);
        events := events + seated;
      }
    }

    /**
     * leave: an unknown id is ignored. Otherwise the game hears of the
     * disconnect while one runs, the player is removed and playerLeft
     * broadcast; a room left empty or with bots only calls onEmpty, and
     * otherwise a departed host is replaced by the first remaining player.
     */
    method Leave(playerId: string) returns (events: seq<RoomEvent>)
      requires Valid()
      modifies this`players, this`hostId
      ensures Valid()
      ensures playerId !in old(IdsOf(players)) ==> unchanged(this`players, this`hostId) && events == []
      ensures playerId in old(IdsOf(players)) ==>
        players == Remove(old(players), playerId) && |players| == |old(players)| - 1
        && |events| >= |LeaveNotices(isActive, playerId)| && events[..|LeaveNotices(isActive, playerId)|] == LeaveNotices(isActive, playerId)
      ensures playerId in old(IdsOf(players)) && (players == [] || AllBots(players)) ==>
        hostId == old(hostId) && events == LeaveNotices(isActive, playerId) + [Emptied]
      ensures playerId in old(IdsOf(players)) && players != [] && !AllBots(players) && old(hostId) != Some(playerId) ==>
        hostId == old(hostId) && events == LeaveNotices(isActive, playerId)
      ensures playerId in old(IdsOf(players)) && players != [] && !AllBots(players) && old(hostId) == Some(playerId) ==>
        hostId == Some(players[0].id) && players[0].id != playerId && players[0].id in IdsOf(players)
        && events == LeaveNotices(isActive, playerId) + [BroadcastAll(SCOPE_ROOM, HostChanged(hostId))]
    {
      if playerId !in IdsOf(players) {
        return [];
      }
      events := LeaveNotices(isActive, playerId);
      RemoveShrinks(players, playerId);
      SetDeleteDistinct(IdsOf(players), playerId);
      players := Remove(players, playerId);
      if players == [] || AllBots(players) {
        events := events + [Emptied];
        return;
      }
      if hostId == Some(playerId) {
        assert IdsOf(players)[0] == players[0].id;
        hostId := Some(players[0].id);
        events := events + [BroadcastAll(SCOPE_ROOM, HostChanged(hostId))];
      }
    }

    /**
     * The listeners setupGameListeners puts on the game, for one event it
     * emits: a broadcast goes to the transport and to every bot; a send to
     * a bot's id reaches that bot only, any other goes to the transport; an
     * error goes to its player. The game's 'ended' event has no listener
     * here (the room listens for 'gameEnded'), so it changes nothing and the
     * room stays active.
     */
    method Forward(e: Event) returns (events: seq<RoomEvent>)
      requires hasGame
      ensures e.Broadcast? ==>
        |events| == 1 + |bots| && events[0] == BroadcastAll(SCOPE_GAME, FromGame(e.message))
        && forall i :: 0 <= i < |bots| ==> events[i + 1] == ToBot(bots[i], FromGame(e.message))
      ensures e.Send? && e.to in bots ==> events == [ToBot(e.to, FromGame(e.message))]
      ensures e.Send? && e.to !in bots ==> events == [SendTo(SCOPE_GAME, e.to, FromGame(e.message))]
      ensures e.Error? ==> events == [SendTo(SCOPE_GAME, e.player, GameError(e.text))]
      ensures e.Ended? ==> events == []
    {
      match e
      case Broadcast(message) =>
        events := [BroadcastAll(SCOPE_GAME, FromGame(message))];
        for i := 0 to |bots|
          invariant |events| == 1 + i && events[0] == BroadcastAll(SCOPE_GAME, FromGame(message))
          invariant forall k :: 0 <= k < i ==> events[k + 1] == ToBot(bots[k], FromGame(message))
        {
          events := events + [ToBot(bots[i], FromGame(message))];
        }
      case Send(to, message) =>
        if to in bots {
          events := [ToBot(to, FromGame(message))];
        } else {
          events := [SendTo(SCOPE_GAME, to, FromGame(message))];
        }
      case Error(player, text) =>
        events := [SendTo(SCOPE_GAME, player, GameError(text))];
      case Ended(_, _) =>
        events := [];
    }

    /** The 'gameEnded' listener: the room is no longer active, drops its game, and tells the transport and every bot. */
    method OnGameEnded(reason: string) returns (events: seq<RoomEvent>)
      requires Valid()
      modifies this`isActive, this`hasGame
      ensures Valid() && !isActive && !hasGame
      ensures events == [BroadcastAll(SCOPE_ROOM, GameEndedNotice(reason))] + ToBots(bots, GameEndedNotice(reason))
    {
      isActive := false;
      hasGame := false;
      events := [BroadcastAll(SCOPE_ROOM, GameEndedNotice(reason))] + ToBots(bots, GameEndedNotice(reason));
    }
  }
}
