/** The relay thread: it splits what comes off the socket into a position queue and a queue for
    everything else. */
module Relay {
  import opened Events
  import opened Queues

  datatype Lane = Positions | Gui | Discarded

  /** Where the relay sends an event. */
  function LaneOf(e: Event): Lane {
    if e.Empty? then Discarded
    else match TypeOf(e)
      case None => Discarded
      case Some(t) => if t == POSITION || t == POSITION_DEBUG then Positions else Gui
  }

  /** Which kinds of event go where: both position types to the position queue, every other typed
      event to the gui queue, whatever has no readable type nowhere. */
  lemma LaneByKind(e: Event)
    ensures LaneOf(e) == Positions <==> e.Position? || e.PositionDebug? || (e.Opaque? && e.kind in {1, 20})
    ensures LaneOf(e) == Gui <==>
      e.TimeStamp? || e.Recolor? || e.Exit? || e.Text? || (e.Opaque? && e.kind !in {1, 20})
    ensures LaneOf(e) == Discarded <==> e.Untyped? || e.Empty?
  {
  }

  /** The events of one lane, in arrival order. */
  function OnLane(lane: Lane, events: seq<Event>): seq<Event> {
    if events == [] then []
    else
      var last := events[|events| - 1];
      OnLane(lane, events[..|events| - 1]) + (if LaneOf(last) == lane then [last] else [])
  }

  lemma {:induction false} OnLaneAppend(lane: Lane, a: seq<Event>, b: seq<Event>)
    ensures OnLane(lane, a + b) == OnLane(lane, a) + OnLane(lane, b)
  {
    if b == [] {
      assert a + b == a;
    } else {
      OnLaneAppend(lane, a, b[..|b| - 1]);
      assert (a + b)[..|a + b| - 1] == a + b[..|b| - 1];
    }
  }

  /** The arrival numbers, below n, of the events of one lane. */
  function NumbersOn(lane: Lane, events: seq<Event>, n: nat): seq<nat>
    requires n <= |events|
  {
    if n == 0 then []
    else NumbersOn(lane, events, n - 1) + (if LaneOf(events[n - 1]) == lane then [n - 1] else [])
  }

  predicate Ascending(q: seq<nat>) {
    forall i, j :: 0 <= i < j < |q| ==> q[i] < q[j]
  }

  /** The lanes are a stable partition of the arrivals: every arrival is on exactly the lane its type
      demands, once, and each lane keeps arrival order. */
  lemma {:induction false} LanesPartition(lane: Lane, events: seq<Event>, n: nat)
    requires n <= |events|
    ensures Ascending(NumbersOn(lane, events, n))
    ensures forall i: nat :: i in NumbersOn(lane, events, n) <==> i < n && LaneOf(events[i]) == lane
  {
    if n > 0 {
      LanesPartition(lane, events, n - 1);
      var q := NumbersOn(lane, events, n - 1);
      assert forall k :: 0 <= k < |q| ==> q[k] in q;
    }
  }

  /** What the relay puts on a lane are those arrivals. */
  lemma {:induction false} OnLaneByNumber(lane: Lane, events: seq<Event>)
    ensures |OnLane(lane, events)| == |NumbersOn(lane, events, |events|)|
    ensures forall k :: 0 <= k < |OnLane(lane, events)| ==>
      NumbersOn(lane, events, |events|)[k] < |events| && OnLane(lane, events)[k] == events[NumbersOn(lane, events, |events|)[k]]
  {
    if events != [] {
      var init := events[..|events| - 1];
      OnLaneByNumber(lane, init);
      NumbersPrefix(lane, init, events, |init|);
    }
  }

  lemma {:induction false} NumbersPrefix(lane: Lane, a: seq<Event>, b: seq<Event>, n: nat)
    requires n <= |a| <= |b| && a == b[..|a|]
    ensures NumbersOn(lane, a, n) == NumbersOn(lane, b, n)
  {
    if n > 0 { NumbersPrefix(lane, a, b, n - 1); }
  }

  /** The relay loop. `running` are the values g_gameRunning has when it is read after each pop; the
      queue holds what the blocking front() calls of those rounds return. */
  method RelayWorkerThread(ws: ThreadSafeQueue<Event>, positions: ThreadSafeQueue<Event>, guis: ThreadSafeQueue<Event>,
                           running: seq<bool>)
    requires ws != positions && ws != guis && positions != guis
    requires 0 < |running| <= |ws.queue|
    requires forall i :: 0 <= i < |running| ==> (running[i] <==> i < |running| - 1)
    modifies ws, positions, guis
    ensures ws.queue == old(ws.queue)[|running|..]
    ensures positions.queue == old(positions.queue) + OnLane(Positions, old(ws.queue)[..|running|])
    ensures guis.queue == old(guis.queue) + OnLane(Gui, old(ws.queue)[..|running|])
  {
    ghost var arrived := ws.queue;
    var n := 0;
    var again := true;
    while again
      invariant n <= |running| && (again <==> n < |running|)
      invariant ws.queue == arrived[n..]
      invariant positions.queue == old(positions.queue) + OnLane(Positions, arrived[..n])
      invariant guis.queue == old(guis.queue) + OnLane(Gui, arrived[..n])
      decreases |running| - n
    {
      var e := ws.Front();
      assert arrived[..n + 1][..n] == arrived[..n] && arrived[..n + 1][n] == e;
      var lane := LaneOf(e);
      if lane == Positions {
        positions.Push(e);
      } else if lane == Gui {
        guis.Push(e);
      }
      ws.Pop();
      again := running[n];
      n := n + 1;
    }
  }
}
