/**
 * The event backlog of the class Room of callbreak-ui/lib/room.ts. Every
 * event the room emits is numbered, stored in a backlog of at most 100
 * events (the oldest dropped on overflow) and handed to the listener when
 * one is subscribed; the listener acknowledges an event by its id, which
 * removes it from the backlog. What the listener is handed is returned as
 * a list of deliveries; Date.now() is the parameter `now`.
 */
module ClientRoom {
  import opened Roster

  /** An emitted event as the backlog stores it. */
  datatype StoredEvent = StoredEvent(id: nat, kind: string, payload: string, ts: int)

  /** What the listener is called with: the event's type and payload, and the id its ack removes. */
  datatype Delivery = Delivery(kind: string, payload: string, ackId: nat)

  const MAX_BACKLOG: nat := 100

  /** The payload of a 'status' event. */
  function StatusText(s: Status): string {
    match s
    case Disconnected => "disconnected"
    case Connecting => "connecting"
    case Connected => "connected"
    case Errored => "error"
  }

  function DeliveryOf(e: StoredEvent): (d: Delivery)
    ensures d.kind == e.kind && d.payload == e.payload && d.ackId == e.id
  {
    Delivery(e.kind, e.payload, e.id)
  }

  /** Ids strictly increasing along the backlog. */
  predicate Ascending(b: seq<StoredEvent>) {
    forall i, k :: 0 <= i < k < |b| ==> b[i].id < b[k].id
  }

  /** Ids strictly increasing along the sequence. */
  predicate Increasing(ids: seq<nat>) {
    forall i, k :: 0 <= i < k < |ids| ==> ids[i] < ids[k]
  }

  /** The stored events whose id is not `id`, in backlog order. */
  function DropId(b: seq<StoredEvent>, id: nat): (r: seq<StoredEvent>)
    ensures |r| <= |b|
    ensures forall e :: e in r <==> e in b && e.id != id
  {
    if b == [] then []
    else if b[0].id == id then DropId(b[1..], id)
    else [b[0]] + DropId(b[1..], id)
  }

  /** In an ascending backlog every event after the first has a larger id. */
  lemma HeadBelow(b: seq<StoredEvent>)
    requires b != [] && Ascending(b)
    ensures forall e :: e in b[1..] ==> b[0].id < e.id
  {
    forall e | e in b[1..] ensures b[0].id < e.id {
      var k :| 0 <= k < |b[1..]| && b[1..][k] == e;
      assert b[k + 1] == e;
    }
  }

  /** An event below every id of an ascending backlog can go in front of it. */
  lemma ConsAscending(x: StoredEvent, b: seq<StoredEvent>)
    requires Ascending(b) && forall e :: e in b ==> x.id < e.id
    ensures Ascending([x] + b)
  {
    forall i, k | 0 <= i < k < |[x] + b| ensures ([x] + b)[i].id < ([x] + b)[k].id {
      assert ([x] + b)[k] == b[k - 1];
      if i == 0 {
        assert b[k - 1] in b;
      } else {
        assert ([x] + b)[i] == b[i - 1];
      }
    }
  }

  /** The events left after an ack keep their relative order: along a backlog whose ids increase, they still increase. */
  lemma {:induction false} DropIdKeepsOrder(b: seq<StoredEvent>, id: nat)
    requires Ascending(b)
    ensures Ascending(DropId(b, id))
  {
    if b != [] {
      var rest := b[1..];
      assert Ascending(rest);
      DropIdKeepsOrder(rest, id);
      if b[0].id != id {
        HeadBelow(b);
        ConsAscending(b[0], DropId(rest, id));
      }
    }
  }

  /** An ack removes one event when its id is in the backlog, none otherwise. */
  lemma {:induction false} DropIdCount(b: seq<StoredEvent>, id: nat)
    requires Ascending(b)
    ensures |DropId(b, id)| == |b| - (if exists e :: e in b && e.id == id then 1 else 0)
  {
    if b != [] {
      var rest := b[1..];
      assert Ascending(rest);
      DropIdCount(rest, id);
      if b[0].id == id {
        assert !exists e :: e in rest && e.id == id by {
          forall e | e in rest ensures e.id != id {
            var k :| 0 <= k < |rest| && rest[k] == e;
            assert b[k + 1] == e;
          }
        }
      } else {
        assert (exists e :: e in b && e.id == id) <==> (exists e :: e in rest && e.id == id) by {
          forall e | e in b && e.id == id ensures e in rest {
            var k :| 0 <= k < |b| && b[k] == e;
            assert k != 0 && rest[k - 1] == e;
          }
        }
      }
    }
  }

  /** An event whose id is above every stored id keeps the backlog ascending when pushed. */
  lemma PushAscending(b: seq<StoredEvent>, e: StoredEvent)
    requires Ascending(b) && forall x :: x in b ==> x.id < e.id
    ensures Ascending(b + [e])
  {
    forall i, k | 0 <= i < k < |b + [e]| ensures (b + [e])[i].id < (b + [e])[k].id {
      if k == |b| {
        assert (b + [e])[i] in b;
      }
    }
  }

  class Room {
    var status: Status
    var backlog: seq<StoredEvent>
    var idCounter: nat
    /** Whether a listener is subscribed. */
    var listening: bool
    /** Every id emit has handed out, in order. */
    ghost var issued: seq<nat>

    /**
     * The backlog holds at most 100 events, in the order they were
     * emitted; every id handed out is below the counter.
     */
    ghost predicate Valid()
      reads this
    {
      |backlog| <= MAX_BACKLOG
      && Ascending(backlog)
      && Increasing(issued)
      && (forall i :: 0 <= i < |issued| ==> issued[i] < idCounter)
      && (forall e :: e in backlog ==> e.id in issued)
    }

    constructor ()
      ensures Valid() && status == Disconnected && backlog == [] && idCounter == 0 && !listening && issued == []
    {
      status := Disconnected;
      backlog := [];
      idCounter := 0;
      listening := false;
      issued := [];
    }

    /**
     * emit: the event takes the next id, above every id handed out before;
     * it is stored, and delivered at once only when a listener is set.
     */
    method Emit(kind: string, payload: string, now: int) returns (out: seq<Delivery>)
      requires Valid()
      modifies this`idCounter, this`backlog, this`issued
      ensures Valid()
      ensures var e := StoredEvent(old(idCounter), kind, payload, now);
        && issued == old(issued) + [e.id]
        && (forall i :: 0 <= i < |old(issued)| ==> old(issued)[i] < e.id)
        && Stored(old(backlog), e)
        && out == if listening then [DeliveryOf(e)] else []
    {
      var e := StoredEvent(idCounter, kind, payload, now);
      idCounter := idCounter + 1;
      issued := issued + [e.id];
      Store(e);
      if listening {
        out := [DeliveryOf(e)];
      } else {
        out := [];
      }
    }

    /** The backlog after storing e: e pushed at its end, and the oldest event shifted off once it holds more than 100. */
    twostate predicate Stored(b0: seq<StoredEvent>, e: StoredEvent)
      reads this
    {
      backlog == if |b0| < MAX_BACKLOG then b0 + [e] else b0[1..] + [e]
    }

    /** store: push, then shift when the backlog has grown past its bound. */
    method Store(e: StoredEvent)
      requires |backlog| <= MAX_BACKLOG && Ascending(backlog)
      requires forall x :: x in backlog ==> x.id < e.id
      modifies this`backlog
      ensures Stored(old(backlog), e)
      ensures |backlog| <= MAX_BACKLOG && Ascending(backlog) && backlog[|backlog| - 1] == e
      ensures forall x :: x in backlog ==> x in old(backlog) || x == e
    {
      PushAscending(backlog, e);
      backlog := backlog + [e];
      if |backlog| > MAX_BACKLOG {
        backlog := backlog[1..];
      }
    }

    /** subscribe: the listener is set and handed every backlogged event, oldest first. */
    method Subscribe() returns (out: seq<Delivery>)
      requires Valid()
      modifies this`listening
      ensures Valid() && listening
      ensures |out| == |backlog| && forall i :: 0 <= i < |backlog| ==> out[i] == DeliveryOf(backlog[i])
    {
      listening := true;
      var pending := backlog;
      out := [];
      for i := 0 to |pending|
        invariant |out| == i && forall k :: 0 <= k < i ==> out[k] == DeliveryOf(pending[k])
      {
        out := out + [DeliveryOf(pending[i])];
      }
    }

    /** The function subscribe returns: the listener is cleared. */
    method Unsubscribe()
      requires Valid()
      modifies this`listening
      ensures Valid() && !listening
    {
      listening := false;
    }

    /** The ack handed with a delivery: the event with that id leaves the backlog, the others stay in order. */
    method Ack(id: nat)
      requires Valid()
      modifies this`backlog
      ensures Valid()
      ensures backlog == DropId(old(backlog), id)
      ensures forall e :: e in backlog <==> e in old(backlog) && e.id != id
      ensures |backlog| == |old(backlog)| - (if exists e :: e in old(backlog) && e.id == id then 1 else 0)
    {
      DropIdKeepsOrder(backlog, id);
      DropIdCount(backlog, id);
      backlog := DropId(backlog, id);
    }

    /** getBacklog: the events still unacknowledged, oldest first, as a value later emits and acks do not change. */
    method GetBacklog() returns (r: seq<StoredEvent>)
      requires Valid()
      ensures |r| <= MAX_BACKLOG && Ascending(r)
      ensures r == backlog
    {
      r := backlog;
    }

    /** disconnect (its WebSocket part aside): the status is disconnected and a status event is emitted. */
    method Disconnect(now: int) returns (out: seq<Delivery>)
      requires Valid()
      modifies this`status, this`idCounter, this`backlog, this`issued
      ensures Valid() && status == Disconnected
      ensures var e := StoredEvent(old(idCounter), "status", StatusText(Disconnected), now);
        issued == old(issued) + [e.id] && Stored(old(backlog), e) && out == if listening then [DeliveryOf(e)] else []
    {
      status := Disconnected;
      out := Emit("status", StatusText(status), now);
    }
  }
}
