/**
 * The older class Room of room-service/src/lobby.ts: a roster, a host and
 * one game, with no bots and no reconnects. The game is started through
 * tryStart(false), which the game interface of room-service/src/game.ts
 * does not declare; here it is a function of the roster given to the
 * room, and the call itself is logged as a Call event.
 */
module Lobby {
  import opened Wrappers
  import opened StateRules
  import opened EngineGame
  import opened Roster

  class Room {
    const id: string
    /** The error tryStart(false) of the game the factory builds over a roster returns, if any. */
    const tryStart: seq<Player> -> Option<string>
    var players: seq<Player>
    var hostId: Option<string>
    /** Whether the room holds a game (game is not null). */
    var hasGame: bool
    var isActive: bool

    ghost predicate Valid()
      reads this
    {
      Distinct(IdsOf(players)) && (isActive ==> hasGame)
    }

    constructor (roomId: string, gameTryStart: seq<Player> -> Option<string>)
      ensures Valid() && id == roomId && tryStart == gameTryStart
      ensures players == [] && hostId == None && !hasGame && !isActive
    {
      id := roomId;
      tryStart := gameTryStart;
      players := [];
      hostId := None;
      hasGame := false;
      isActive := false;
    }

    /**
     * handleMessage: a sender outside the room is ignored; a game-scoped
     * message goes to the game while one runs, a room-scoped one to the
     * lobby handling; anything else is dropped.
     */
    method HandleMessage(playerId: string, message: RoomMessage) returns (events: seq<RoomEvent>)
      requires Valid()
      modifies this
      ensures Valid()
      ensures playerId !in old(IdsOf(players)) || message.scope !in {SCOPE_GAME, SCOPE_ROOM} ==>
        unchanged(this) && events == []
      ensures playerId in old(IdsOf(players)) && message.scope == SCOPE_GAME ==>
        unchanged(this) && events == if old(isActive) then [Call(OnMessage(playerId, message))] else []
      ensures playerId in old(IdsOf(players)) && message.scope == SCOPE_ROOM && message.kind !in {START_GAME, PLAY_AGAIN} ==>
        unchanged(this) && events == []
      ensures playerId in old(IdsOf(players)) && message.scope == SCOPE_ROOM && message.kind in {START_GAME, PLAY_AGAIN} ==>
        StartHandled(playerId, events)
    {
      var player := Find(players, playerId);
      if player.None? {
        return [];
      }
      if message.scope == SCOPE_GAME && isActive {
        events := [Call(OnMessage(playerId, message))];
      } else if message.scope == SCOPE_ROOM {
        events := HandleLobbyMessage(playerId, message.kind);
      } else {
        events := [];
      }
    }

    /**
     * What a startGame (or playAgain) from playerId does: nothing unless it
     * comes from the host; an error to the requester while a game runs; a
     * new game is tried, and its error goes to the requester alone, or the
     * room becomes active and gameStarted is broadcast.
     */
    twostate predicate StartHandled(playerId: string, events: seq<RoomEvent>)
      reads this
    {
      (old(hostId) != Some(playerId) ==> unchanged(this) && events == [])
      && (old(hostId) == Some(playerId) && old(isActive) ==>
            unchanged(this) && events == [SendTo(SCOPE_ROOM, playerId, RoomError(ERR_IN_PROGRESS))])
      && (old(hostId) == Some(playerId) && !old(isActive) && Refuses(tryStart(old(players))) ==>
            unchanged(this)
            && events == [Call(TryStart(false)), SendTo(SCOPE_ROOM, playerId, RoomError(tryStart(old(players)).value))])
      && (old(hostId) == Some(playerId) && !old(isActive) && !Refuses(tryStart(old(players))) ==>
            isActive && hasGame && unchanged(this`players, this`hostId)
            && events == [Call(TryStart(false)), BroadcastAll(SCOPE_ROOM, GameStarted)])
    }

    /** handleLobbyMessage: startGame, or playAgain from the host, which is handled as a startGame. */
    method HandleLobbyMessage(playerId: string, kind: string) returns (events: seq<RoomEvent>)
      requires Valid()
      modifies this
      ensures Valid()
      ensures kind in {START_GAME, PLAY_AGAIN} ==> StartHandled(playerId, events)
      ensures kind !in {START_GAME, PLAY_AGAIN} ==> unchanged(this) && events == []
    {
      if kind == START_GAME {
        events := StartGame(playerId);
      } else if kind == PLAY_AGAIN {
        if hostId != Some(playerId) {
          return [];
        }
        events := StartGame(playerId);
      } else {
        events := [];
      }
    }

    /** The startGame branch of handleLobbyMessage. */
    method StartGame(playerId: string) returns (events: seq<RoomEvent>)
      requires Valid()
      modifies this
      ensures Valid()
      ensures StartHandled(playerId, events)
    {
      if hostId != Some(playerId) {
        return [];
      }
      if isActive {
        return [SendTo(SCOPE_ROOM, playerId, RoomError(ERR_IN_PROGRESS))];
      }
      var error := tryStart(players);
      events := [Call(TryStart(false))];
      if Refuses(error) {
        return events + [SendTo(SCOPE_ROOM, playerId, RoomError(error.value))];
      }
      hasGame := true;
      isActive := true;
      events := events + [BroadcastAll(SCOPE_ROOM, GameStarted)];
    }

    /**
     * join: while a game runs, the player gets an error and is not seated.
     * Otherwise the player is announced, seated (replacing an entry under
     * the same id), made host if there is none, and welcomed with the roster.
     */
    method Join(player: Player) returns (events: seq<RoomEvent>)
      requires Valid()
      modifies this`players, this`hostId
      ensures Valid()
      ensures isActive ==>
        unchanged(this`players, this`hostId) && events == [SendTo(SCOPE_ROOM, player.id, RoomError(ERR_IN_PROGRESS))]
      ensures !isActive ==>
        players == Put(old(players), player) && Find(players, player.id) == Some(player)
        && hostId == (if HostUnset(old(hostId)) then Some(player.id) else old(hostId))
        && events == [BroadcastAll(SCOPE_ROOM, PlayerJoined(player)), SendTo(SCOPE_ROOM, player.id, Welcome(players, hostId))]
    {
      if isActive {
        return [SendTo(SCOPE_ROOM, player.id, RoomError(ERR_IN_PROGRESS))];
      }
      events := [BroadcastAll(SCOPE_ROOM, PlayerJoined(player))];
      players := Put(players, player);
      if HostUnset(hostId) {
        hostId := Some(player.id);
      }
      events := events + [SendTo(SCOPE_ROOM, player.id, Welcome(players, hostId))];
    }

    /**
     * leave: an unknown id is ignored. Otherwise the game hears of the
     * disconnect while one runs, the player is removed and playerLeft
     * broadcast; an empty room calls onEmpty, and otherwise a departed host
     * is replaced by the first remaining player.
     */
    method Leave(playerId: string) returns (events: seq<RoomEvent>)
      requires Valid()
      modifies this`players, this`hostId
      ensures Valid()
      ensures playerId !in old(IdsOf(players)) ==> unchanged(this`players, this`hostId) && events == []
      ensures playerId in old(IdsOf(players)) ==>
        players == Remove(old(players), playerId) && |players| == |old(players)| - 1
      ensures playerId in old(IdsOf(players)) && players == [] ==>
        hostId == old(hostId) && events == LeaveNotices(isActive, playerId) + [Emptied]
      ensures playerId in old(IdsOf(players)) && players != [] && old(hostId) != Some(playerId) ==>
        hostId == old(hostId) && events == LeaveNotices(isActive, playerId)
      ensures playerId in old(IdsOf(players)) && players != [] && old(hostId) == Some(playerId) ==>
        hostId == Some(players[0].id) && players[0].id != playerId
        && events == LeaveNotices(isActive, playerId) + [BroadcastAll(SCOPE_ROOM, HostChanged(hostId))]
    {
      if playerId !in IdsOf(players) {
        return [];
      }
      events := LeaveNotices(isActive, playerId);
      RemoveShrinks(players, playerId);
      SetDeleteDistinct(IdsOf(players), playerId);
      players := Remove(players, playerId);
      if players == [] {
        events := events + [Emptied];
        return;
      }
      if hostId == Some(playerId) {
        assert IdsOf(players)[0] == players[0].id;
        hostId := Some(players[0].id);
        events := events + [BroadcastAll(SCOPE_ROOM, HostChanged(hostId))];
      }
    }

    /**
     * The listeners setupGameListeners puts on the game, for one event it
     * emits: broadcasts and sends are passed on with the game scope, an
     * error goes to its player. The game's 'ended' event has no listener
     * here (the room listens for 'gameEnded'), so it changes nothing.
     */
    method Forward(e: Event) returns (events: seq<RoomEvent>)
      requires hasGame
      ensures e.Broadcast? ==> events == [BroadcastAll(SCOPE_GAME, FromGame(e.message))]
      ensures e.Send? ==> events == [SendTo(SCOPE_GAME, e.to, FromGame(e.message))]
      ensures e.Error? ==> events == [SendTo(SCOPE_GAME, e.player, GameError(e.text))]
      ensures e.Ended? ==> events == []
    {
      match e
      case Broadcast(message) =>
        events := [BroadcastAll(SCOPE_GAME, FromGame(message))];
      case Send(to, message) =>
        events := [SendTo(SCOPE_GAME, to, FromGame(message))];
      case Error(player, text) =>
        events := [SendTo(SCOPE_GAME, player, GameError(text))];
      case Ended(_, _) =>
        events := [];
    }

    /** The 'gameEnded' listener: the room is no longer active, drops its game, and broadcasts gameEnded with the reason. */
    method OnGameEnded(reason: string) returns (events: seq<RoomEvent>)
      requires Valid()
      modifies this`isActive, this`hasGame
      ensures Valid() && !isActive && !hasGame
      ensures events == [BroadcastAll(SCOPE_ROOM, GameEndedNotice(reason))]
    {
      isActive := false;
      hasGame := false;
      events := [BroadcastAll(SCOPE_ROOM, GameEndedNotice(reason))];
    }
  }
}
