/**
 * The class LocalRoom of callbreak-ui/lib/LocalRoomService.ts: a room run
 * in the browser for one local player and three bots, hosting a
 * CallbreakGame with the timer off. As in the server rooms, the game is
 * reached through the calls made on it (CallOn events) and the events it
 * emits back (OnGameEvent); what the room emits on itself for the UI is
 * returned as LocalEvents. The 100 ms delay of connect is the split
 * between Connect and FinishConnect, and what localStorage holds is the
 * `saved` parameter of FinishConnect.
 */
module LocalRoomService {
  import opened Wrappers
  import opened StateRules
  import opened EngineGame
  import opened Roster

  /** What the room emits for the UI, a message to a bot, or a call on its game. */
  datatype LocalEvent =
    | StatusChanged(status: Status)
    | Opened
    | Joined(player: Player)
    | Welcomed(players: seq<Player>, hostId: Option<string>)
    | Started
    | Failed(errorText: string)
    | Relayed(message: Message)
    | ToBotLocal(botId: string, message: Message)
    | Finished(reason: string, winnerId: Option<string>)
    | CallOn(call: GameCall)

  /** What localStorage holds for the room: nothing, text that does not load, or a saved game. */
  datatype Saved = NothingSaved | Unreadable | Stored(data: GameJson)

  /** Whether CallbreakGame.fromJSON rebuilds the saved game without throwing. */
  predicate Restores(saved: Saved) {
    saved.Stored? && ValidatePlayers(saved.data.state.players).None?
  }

  /** The winnerId of an 'ended' event: present only after a completed game. */
  function WinnerIdOf(details: EndDetails): (w: Option<string>)
    ensures w.Some? ==> details.WinnerIs? && details.winnerId == w
  {
    if details.WinnerIs? then details.winnerId else None
  }

  class LocalRoom {
    var status: Status
    var errorMessage: Option<string>
    var players: seq<Player>
    var hostId: Option<string>
    /** Whether the room holds a game (game is not null). */
    var hasGame: bool
    var isActive: bool
    /** The ids of the bots Record, in the order they were seated. */
    var bots: seq<string>
    var localPlayerId: Option<string>
    var roomId: Option<string>

    ghost predicate Valid()
      reads this
    {
      Distinct(IdsOf(players)) && (isActive ==> hasGame)
    }

    constructor ()
      ensures Valid() && status == Disconnected && errorMessage == None
      ensures players == [] && hostId == None && !hasGame && !isActive && bots == []
      ensures localPlayerId == None && roomId == None
    {
      status := Disconnected;
      errorMessage := None;
      players := [];
      hostId := None;
      hasGame := false;
      isActive := false;
      bots := [];
      localPlayerId := None;
      roomId := None;
    }

    /** connect: ignored while connecting or connected; else the room is connecting for the local player id. */
    method Connect(id: string, room: string) returns (events: seq<LocalEvent>)
      modifies this`status, this`localPlayerId, this`roomId
      ensures old(status) in {Connecting, Connected} ==> unchanged(this`status, this`localPlayerId, this`roomId) && events == []
      ensures old(status) !in {Connecting, Connected} ==>
        status == Connecting && localPlayerId == Some(id) && roomId == Some(room) && events == [StatusChanged(Connecting)]
    {
      if status == Connected || status == Connecting {
        return [];
      }
      status := Connecting;
      events := [StatusChanged(Connecting)];
      localPlayerId := Some(id);
      roomId := Some(room);
    }

    /**
     * The callback connect schedules: the local player becomes host and
     * joins; a saved game that loads is resumed (listeners set,
     * gameStarted, active, every player reconnected), else a startGame
     * from the local player is handled; then the room is connected.
     */
    method FinishConnect(id: string, name: string, saved: Saved) returns (events: seq<LocalEvent>)
      requires Valid()
      modifies this
      ensures Valid()
      ensures status == Connected && hostId == Some(id) && |events| >= 2
      ensures events[|events| - 2..] == [StatusChanged(Connected), Opened]
      ensures Restores(saved) ==> isActive && hasGame
      ensures !old(isActive) ==> Find(players, id) == Some(Player(id, name, "US", false))
    {
      hostId := Some(id);
      var joined := Join(Player(id, name, "US", false));
      var next;
      if Restores(saved) {
        next := Resume();
      } else {
        next := HandleMessage(id, RoomMessage(SCOPE_ROOM, START_GAME));
      }
      status := Connected;
      events := joined + next + [StatusChanged(Connected), Opened];
    }

    /** A saved game resumed: listeners set, gameStarted, the room active, and each player reconnected in roster order. */
    method Resume() returns (events: seq<LocalEvent>)
      requires Valid()
      modifies this`hasGame, this`isActive
      ensures Valid() && hasGame && isActive
      ensures |events| == 1 + |players| && events[0] == Started
      ensures forall i :: 0 <= i < |players| ==> events[i + 1] == CallOn(OnReconnect(players[i].id))
    {
      hasGame := true;
      events := [Started];
      isActive := true;
      for i := 0 to |players|
        invariant |events| == 1 + i && events[0] == Started
        invariant forall k :: 0 <= k < i ==> events[k + 1] == CallOn(OnReconnect(players[k].id))
      {
        events := events + [CallOn(OnReconnect(players[i].id))];
      }
    }

    /** disconnect: players, bots and game cleared, no game running, and the status disconnected. */
    method Disconnect() returns (events: seq<LocalEvent>)
      modifies this`players, this`bots, this`hasGame, this`isActive, this`status
      ensures Valid()
      ensures players == [] && bots == [] && !hasGame && !isActive && status == Disconnected
      ensures events == [StatusChanged(Disconnected)]
    {
      players := [];
      bots := [];
      hasGame := false;
      isActive := false;
      status := Disconnected;
      events := [StatusChanged(Disconnected)];
    }

    /** send: the local player's message, handled as theirs; nothing without a local player id (or with the empty one). */
    method Send(message: RoomMessage) returns (events: seq<LocalEvent>)
      requires Valid()
      modifies this
      ensures Valid()
      ensures old(localPlayerId).None? || old(localPlayerId).value == "" ==> unchanged(this) && events == []
      ensures old(localPlayerId).Some? && old(localPlayerId).value != "" ==>
        var id := old(localPlayerId).value;
        (id !in old(IdsOf(players)) ==> unchanged(this) && events == [])
        && (id in old(IdsOf(players)) && message.scope == SCOPE_GAME ==>
              unchanged(this) && events == if old(isActive) then [CallOn(OnMessage(id, message))] else [])
        && (id in old(IdsOf(players)) && message.scope == SCOPE_ROOM && message.kind == START_GAME ==> StartHandled(id, events))
        && (id in old(IdsOf(players)) && message.scope != SCOPE_GAME && !(message.scope == SCOPE_ROOM && message.kind == START_GAME) ==>
              unchanged(this) && events == [])
    {
      if localPlayerId.Some? && localPlayerId.value != "" {
        events := HandleMessage(localPlayerId.value, message);
      } else {
        events := [];
      }
    }

    /**
     * join: while a game runs, a known id reconnects to it and an unknown
     * one is ignored. Otherwise the player is announced and seated, welcomed
     * when it is the local player, and, while the room has no bots yet,
     * bots are seated until four players are in.
     */
    method Join(player: Player) returns (events: seq<LocalEvent>)
      requires Valid()
      modifies this`players, this`bots
      ensures Valid()
      ensures isActive ==>
        unchanged(this`players, this`bots)
        && events == if player.id in old(IdsOf(players)) then [CallOn(OnReconnect(player.id))] else []
      ensures !isActive ==>
        var seated := Put(old(players), player);
        |seated| <= |players| && players[..|seated|] == seated && Find(players, player.id) == Some(player)
        && |events| >= 1 && events[0] == Joined(player)
      ensures !isActive && old(bots) != [] ==> players == Put(old(players), player) && bots == old(bots)
      ensures !isActive && old(bots) == [] ==>
        var seated := Put(old(players), player);
        |players| == (if |seated| < 4 then 4 else |seated|)
        && forall i :: |seated| <= i < |players| ==> players[i].isBot && players[i].id in bots
    {
      if isActive {
        if player.id in IdsOf(players) {
          events := [CallOn(OnReconnect(player.id))];
        } else {
          events := [];
        }
        return;
      }
      events := Seat(player);
      if bots == [] {
        ghost var seated := players;
        var added := Backfill();
        FindExtends(seated, players[|seated|..], player.id);
        assert players == seated + players[|seated|..];
        events := events + added;
      }
    }

    /** The part of join outside a running game, before the bots: announce, seat, and welcome the local player. */
    method Seat(player: Player) returns (events: seq<LocalEvent>)
      requires Valid() && !isActive
      modifies this`players
      ensures Valid() && players == Put(old(players), player)
      ensures events == [Joined(player)] + if Some(player.id) == localPlayerId then [Welcomed(players, hostId)] else []
    {
      events := [Joined(player)];
      players := Put(players, player);
      if Some(player.id) == localPlayerId {
        events := events + [Welcomed(players, hostId)];
      }
    }

    /**
     * The bot loop of join, with each bot under an id no player holds
     * (FreshBotId): every pass seats one more bot, so the room reaches four
     * and the players already seated keep their places.
     */
    method Backfill() returns (events: seq<LocalEvent>)
      requires Valid() && !isActive
      modifies this`players, this`bots
      ensures Valid()
      ensures |players| == (if |old(players)| < 4 then 4 else |old(players)|)
      ensures players[..|old(players)|] == old(players)
      ensures forall i :: |old(players)| <= i < |players| ==> players[i].isBot && players[i].id in bots
    {
      ghost var n0 := |players|;
      events := [];
      while |players| < 4
        invariant Valid() && !isActive
        invariant |players| >= n0 && (n0 < 4 ==> |players| <= 4) && (n0 >= 4 ==> |players| == n0)
        invariant BotsAppended(players, old(players), bots)
        decreases 4 - |players|
      {
        var botId := FreshBotId(players);
        var bot := BotPlayer(botId, |players| + 1);
        PutAppends(players, bot);
        AppendBot(players, old(players), bots, bot);
        bots := SetAdd(bots, botId);
        var seated := Seat(bot);
        events := events + seated;
      }
    }

    /**
     * handleMessage: a sender outside the room is ignored; a game-scoped
     * message goes to the game while one runs, a room-scoped startGame to
     * the lobby handling; anything else is dropped.
     */
    method HandleMessage(playerId: string, message: RoomMessage) returns (events: seq<LocalEvent>)
      requires Valid()
      modifies this
      ensures Valid()
      ensures playerId !in old(IdsOf(players)) || message.scope !in {SCOPE_GAME, SCOPE_ROOM} ==>
        unchanged(this) && events == []
      ensures playerId in old(IdsOf(players)) && message.scope == SCOPE_GAME ==>
        unchanged(this) && events == if old(isActive) then [CallOn(OnMessage(playerId, message))] else []
      ensures playerId in old(IdsOf(players)) && message.scope == SCOPE_ROOM && message.kind != START_GAME ==>
        unchanged(this) && events == []
      ensures playerId in old(IdsOf(players)) && message.scope == SCOPE_ROOM && message.kind == START_GAME ==>
        StartHandled(playerId, events)
    {
      var player := Find(players, playerId);
      if player.None? {
        return [];
      }
      if message.scope == SCOPE_GAME && isActive {
        events := [CallOn(OnMessage(playerId, message))];
      } else if message.scope == SCOPE_ROOM && message.kind == START_GAME {
        events := StartGame(playerId);
      } else {
        events := [];
      }
    }

    /**
     * What a startGame from playerId does: nothing unless it comes from the
     * host while no game runs; allowStart's error shown only when the
     * requester is the local player; else the game starts.
     */
    twostate predicate StartHandled(playerId: string, events: seq<LocalEvent>)
      reads this
    {
      (old(hostId) != Some(playerId) || old(isActive) ==> unchanged(this) && events == [])
      && (old(hostId) == Some(playerId) && !old(isActive) && |old(players)| != 4 ==>
            unchanged(this)
            && events == if Some(playerId) == old(localPlayerId) then [Failed(ERR_FOUR_PLAYERS)] else [])
      && (old(hostId) == Some(playerId) && !old(isActive) && |old(players)| == 4 ==>
            isActive && hasGame && unchanged(this`players, this`hostId, this`bots, this`status)
            && events == [Started, CallOn(Start)])
    }

    /** The startGame branch of handleLobbyMessage. */
    method StartGame(playerId: string) returns (events: seq<LocalEvent>)
      requires Valid()
      modifies this
      ensures Valid()
      ensures StartHandled(playerId, events)
    {
      if hostId != Some(playerId) || isActive {
        return [];
      }
      var game := new CallbreakGame(IdsOf(players), Some(false));
      var error := game.AllowStart();
      if error.Some? {
        if Some(playerId) == localPlayerId {
          return [Failed(error.value)];
        }
        return [];
      }
      hasGame := true;
      events := [Started];
      isActive := true;
      events := events + [CallOn(Start)];
    }

    /**
     * The listeners setupGameListeners puts on the game, for one event it
     * emits: 'ended' ends the room's game; any other is passed on by Relay.
     */
    method OnGameEvent(e: Event) returns (events: seq<LocalEvent>)
      requires Valid() && hasGame
      modifies this`isActive, this`hasGame
      ensures Valid()
      ensures e.Ended? ==> !isActive && !hasGame && events == [Finished(e.reason, WinnerIdOf(e.details))]
      ensures !e.Ended? ==> unchanged(this`isActive, this`hasGame) && Relays(e, events)
    {
      if e.Ended? {
        isActive := false;
        hasGame := false;
        events := [Finished(e.reason, WinnerIdOf(e.details))];
      } else {
        events := Relay(e);
      }
    }

    /**
     * The 'broadcast', 'send' and 'error' listeners: a broadcast goes to the
     * UI and to every bot; a send reaches the bot it names, or the UI when
     * it names the local player, and no one else; an error is shown only
     * when it is the local player's.
     */
    ghost predicate Relays(e: Event, events: seq<LocalEvent>)
      reads this`bots, this`localPlayerId
    {
      && (e.Broadcast? ==>
            |events| == 1 + |bots| && events[0] == Relayed(e.message)
            && forall i :: 0 <= i < |bots| ==> events[i + 1] == ToBotLocal(bots[i], e.message))
      && (e.Send? && e.to in bots ==> events == [ToBotLocal(e.to, e.message)])
      && (e.Send? && e.to !in bots ==> events == if Some(e.to) == localPlayerId then [Relayed(e.message)] else [])
      && (e.Error? ==> events == if Some(e.player) == localPlayerId then [Failed(e.text)] else [])
    }

    /** The three listeners that pass game events on, for one event other than 'ended'. */
    method Relay(e: Event) returns (events: seq<LocalEvent>)
      requires !e.Ended?
      ensures Relays(e, events)
    {
      match e
      case Broadcast(message) =>
        events := [Relayed(message)];
        for i := 0 to |bots|
          invariant |events| == 1 + i && events[0] == Relayed(message)
          invariant forall k :: 0 <= k < i ==> events[k + 1] == ToBotLocal(bots[k], message)
        {
          events := events + [ToBotLocal(bots[i], message)];
        }
      case Send(to, message) =>
        if to in bots {
          events := [ToBotLocal(to, message)];
        } else if Some(to) == localPlayerId {
          events := [Relayed(message)];
        } else {
          events := [];
        }
      case Error(player, text) =>
        if Some(player) == localPlayerId {
          events := [Failed(text)];
        } else {
          events := [];
        }
    }
  }
}
