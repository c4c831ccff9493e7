/**
 * roomReducer and initialState of callbreak-ui/contexts/RoomContext.tsx:
 * the client's view of the room it is in (the RoomState record of
 * callbreak-ui/lib/RoomState.ts), updated by one action at a time.
 */
module RoomContext {
  import opened Wrappers
  import Roster

  /** A player as the client lists it. */
  datatype RosterEntry = RosterEntry(id: string, name: string, country: string, picture: string)

  datatype RoomState = RoomState(
    id: string,
    name: string,
    roomId: string,
    players: seq<RosterEntry>,
    hostId: string,
    status: Roster.Status,
    errorMessage: Option<string>,
    manualDisconnect: bool)

  /** The actions the reducer handles, and any other type it is dispatched. */
  datatype RoomAction =
    | SetRoom(newId: string, newName: string, newRoomId: string)
    | SetStatus(newStatus: Roster.Status)
    | SetError(message: string)
    | SetPlayers(newPlayers: seq<RosterEntry>)
    | SetHost(newHostId: string)
    | PlayerJoined(player: RosterEntry)
    | PlayerLeft(playerId: string)
    | ManualDisconnect
    | Reset
    | Unknown(kind: string)

  function InitialState(): (s: RoomState)
    ensures s.players == [] && s.status == Roster.Disconnected && s.errorMessage == None && !s.manualDisconnect
  {
    RoomState("", "", "", [], "", Roster.Disconnected, None, false)
  }

  /** The roster entries whose id is not `id`, in join order. */
  function WithoutId(players: seq<RosterEntry>, id: string): (r: seq<RosterEntry>)
    ensures |r| <= |players|
    ensures forall p :: p in r <==> p in players && p.id != id
  {
    if players == [] then []
    else if players[0].id == id then WithoutId(players[1..], id)
    else [players[0]] + WithoutId(players[1..], id)
  }

  /** The filter keeps order: filtering a list is filtering its two halves and joining them. */
  lemma {:induction false} WithoutIdSplits(s: seq<RosterEntry>, t: seq<RosterEntry>, id: string)
    ensures WithoutId(s + t, id) == WithoutId(s, id) + WithoutId(t, id)
  {
    if s == [] {
      assert s + t == t;
    } else {
      assert (s + t)[0] == s[0] && (s + t)[1..] == s[1..] + t;
      WithoutIdSplits(s[1..], t, id);
      if s[0].id != id {
        assert [s[0]] + (WithoutId(s[1..], id) + WithoutId(t, id)) == ([s[0]] + WithoutId(s[1..], id)) + WithoutId(t, id);
      }
    }
  }

  /** A list without the id is left as it is by the filter. */
  lemma {:induction false} WithoutAbsentId(s: seq<RosterEntry>, id: string)
    requires forall p :: p in s ==> p.id != id
    ensures WithoutId(s, id) == s
  {
    if s != [] {
      assert s[0] in s;
      WithoutAbsentId(s[1..], id);
    }
  }

  function Reduce(state: RoomState, action: RoomAction): (r: RoomState)
    ensures action.SetRoom? ==>
      r == InitialState().(id := action.newId, name := action.newName, roomId := action.newRoomId)
    ensures action.SetStatus? ==> r == state.(status := action.newStatus)
    ensures action.SetError? ==> r == state.(status := Roster.Errored, errorMessage := Some(action.message))
    ensures action.SetPlayers? ==> r == state.(players := action.newPlayers)
    ensures action.SetHost? ==> r == state.(hostId := action.newHostId)
    ensures action.PlayerJoined? ==>
      |r.players| == |state.players| + 1 && r.players[..|state.players|] == state.players && r.players[|state.players|..] == [action.player]
      && r == state.(players := r.players)
    ensures action.PlayerLeft? ==>
      r == state.(players := r.players)
      && forall p :: p in r.players <==> p in state.players && p.id != action.playerId
    ensures action.ManualDisconnect? ==> r == InitialState().(manualDisconnect := true)
    ensures action.Reset? || action.Unknown? ==> r == if action.Reset? then InitialState() else state
  {
    match action
    case SetRoom(id, name, roomId) => InitialState().(id := id, name := name, roomId := roomId, manualDisconnect := false)
    case SetStatus(status) => state.(status := status)
    case SetError(message) => state.(status := Roster.Errored, errorMessage := Some(message))
    case SetPlayers(players) => state.(players := players)
    case SetHost(hostId) => state.(hostId := hostId)
    case PlayerJoined(player) => state.(players := state.players + [player])
    case PlayerLeft(playerId) => state.(players := WithoutId(state.players, playerId))
    case ManualDisconnect => InitialState().(manualDisconnect := true)
    case Reset => InitialState()
    case Unknown(_) => state
  }

  /** A player that leaves twice has left once: PLAYER_LEFT is idempotent. */
  lemma {:induction false} LeftTwiceIsLeftOnce(state: RoomState, playerId: string)
    ensures Reduce(Reduce(state, PlayerLeft(playerId)), PlayerLeft(playerId)) == Reduce(state, PlayerLeft(playerId))
  {
    WithoutAbsentId(WithoutId(state.players, playerId), playerId);
  }

  /** A player with a new id who joins and then leaves leaves the state as it was. */
  lemma JoinThenLeave(state: RoomState, player: RosterEntry)
    requires forall p :: p in state.players ==> p.id != player.id
    ensures Reduce(Reduce(state, PlayerJoined(player)), PlayerLeft(player.id)) == state
  {
    WithoutIdSplits(state.players, [player], player.id);
    WithoutAbsentId(state.players, player.id);
    assert WithoutId([player], player.id) == [];
  }

  /** The leave of one player keeps the others in the order they joined. */
  lemma LeaveKeepsOrder(state: RoomState, before: seq<RosterEntry>, gone: RosterEntry, after: seq<RosterEntry>)
    requires state.players == before + [gone] + after
    requires forall p :: p in before ==> p.id != gone.id
    requires forall p :: p in after ==> p.id != gone.id
    ensures Reduce(state, PlayerLeft(gone.id)).players == before + after
  {
    WithoutIdSplits(before + [gone], after, gone.id);
    WithoutIdSplits(before, [gone], gone.id);
    WithoutAbsentId(before, gone.id);
    WithoutAbsentId(after, gone.id);
    assert WithoutId([gone], gone.id) == [];
    assert WithoutId(before + [gone], gone.id) == before;
  }

  /** After SET_ROOM, MANUAL_DISCONNECT or RESET nothing of the earlier state is left. */
  lemma ResetsForget(s1: RoomState, s2: RoomState, action: RoomAction)
    requires action.SetRoom? || action.ManualDisconnect? || action.Reset?
    ensures Reduce(s1, action) == Reduce(s2, action)
    ensures Reduce(s1, action).players == [] && Reduce(s1, action).errorMessage == None
    ensures Reduce(s1, action).manualDisconnect <==> action.ManualDisconnect?
  {
  }
}
