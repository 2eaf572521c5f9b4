/** The client's message pipeline as an interleaving of three threads: the socket thread that adds
    arrivals, the relay thread, and the frame loop with its priority gate and its batch pass. Events
    are named by their arrival number; every queue operation and every unlocked read of a size is
    one atomic step. */
module Pipeline {
  import opened Events
  import opened Relay
  import opened Runs

  datatype RelayPc = Fetching | Using | Routed | Testing | Stopped

  /** The frame loop's place: before each test of a queue, between a test and what it guards, and
      inside the batch pass, with its loop index. */
  datatype FramePc =
    | AtPositions
    | HasPosition
    | AtGui
    | HasGui        // guiJsonQueue was seen non-empty
    | MayShowGui    // and then at most two positions were seen queued
    | AtBatch
    | BatchRaised
    | BatchLoop(i: nat)
    | BatchPop(i: nat)

  /** `taken`: arrivals the relay has popped. `shown`: what the frame loop has handled, in order.
      `passed`: what has left the position queue, handled or dropped, and `shownGui` what has left
      the other. `alarms` and `passes` count raisings of g_handleBatch and completed batch passes;
      `mark` is how much had left the position queue when the last pass began. */
  datatype Pipe = Pipe(
    arrived: seq<Event>, taken: nat, relay: RelayPc, running: bool,
    positions: seq<nat>, guis: seq<nat>, frame: FramePc,
    shown: seq<nat>, passed: seq<nat>, shownGui: seq<nat>,
    raised: bool, alarms: nat, passes: nat, mark: nat)

  const START := Pipe([], 0, Fetching, true, [], [], AtPositions, [], [], [], false, 0, 0, 0)

  datatype Step =
    | Arrive(e: Event)
    | RelayFront
    | RelayPush
    | RelayPop
    | RelayTest
    | Frame       // the frame loop's next step, determined by where it is
    | Alarm       // relayBatchHandlerThread, which raises the flag once
    | Stop        // g_gameRunning is cleared

  predicate Enabled(s: Pipe, step: Step) {
    match step
    case Arrive(_) => true
    case RelayFront => s.relay.Fetching? && s.taken < |s.arrived|
    case RelayPush => s.relay.Using? && s.taken < |s.arrived|
    case RelayPop => s.relay.Routed?
    case RelayTest => s.relay.Testing?
    case Frame => true
    case Alarm => s.alarms == 0
    case Stop => true
  }

  function Next(s: Pipe, step: Step): Pipe
    requires Enabled(s, step)
  {
    match step
    case Arrive(e) => s.(arrived := s.arrived + [e])
    case RelayFront => s.(relay := Using)
    case RelayPush =>
      var t := s.(relay := Routed);
      (match LaneOf(s.arrived[s.taken])
       case Positions => t.(positions := s.positions + [s.taken])
       case Gui => t.(guis := s.guis + [s.taken])
       case Discarded => t)
    case RelayPop => s.(taken := s.taken + 1, relay := Testing)
    case RelayTest => s.(relay := if s.running then Fetching else Stopped)
    case Frame => NextFrame(s)
    case Alarm => s.(raised := true, alarms := s.alarms + 1)
    case Stop => s.(running := false)
  }

  function NextFrame(s: Pipe): Pipe {
    match s.frame
    case AtPositions => s.(frame := if s.positions == [] then AtGui else HasPosition)
    case HasPosition =>
      if s.positions == [] then s else
      s.(frame := AtGui, positions := s.positions[1..],
         shown := s.shown + [s.positions[0]], passed := s.passed + [s.positions[0]])
    case AtGui => s.(frame := if s.guis == [] then AtBatch else HasGui)
    case HasGui => s.(frame := if |s.positions| <= MAX_BATCHED_POSITIONS_THRESHOLD then MayShowGui else AtBatch)
    case MayShowGui =>
      if s.guis == [] then s else
      s.(frame := AtBatch, guis := s.guis[1..],
         shown := s.shown + [s.guis[0]], shownGui := s.shownGui + [s.guis[0]])
    case AtBatch => s.(frame := if s.raised then BatchRaised else AtPositions)
    case BatchRaised =>
      if |s.positions| > MAX_BATCHED_POSITIONS_THRESHOLD
      then s.(frame := BatchLoop(0), mark := |s.passed|)
      else s.(frame := AtPositions)
    case BatchLoop(i) =>
      if i < |s.positions| - 1 then s.(frame := BatchPop(i))
      else s.(frame := AtPositions, raised := false, passes := s.passes + 1)
    case BatchPop(i) =>
      if s.positions == [] then s else
      s.(frame := BatchLoop(i + 1), positions := s.positions[1..], passed := s.passed + [s.positions[0]])
  }

  ghost const PIPELINE := Machine(START, Enabled, Next)

  ghost predicate Reachable(s: Pipe) { PIPELINE.Reachable(s) }

  // Counting stale events -------------------------------------------------------------------------

  /** How many entries of q arrived before e. */
  function Below(q: seq<nat>, e: nat): nat {
    if q == [] then 0 else (if q[0] < e then 1 else 0) + Below(q[1..], e)
  }

  lemma {:induction false} BelowAppend(q: seq<nat>, r: seq<nat>, e: nat)
    ensures Below(q + r, e) == Below(q, e) + Below(r, e)
  {
    if q == [] {
      assert q + r == r;
    } else {
      BelowAppend(q[1..], r, e);
      assert (q + r)[1..] == q[1..] + r;
    }
  }

  lemma {:induction false} BelowSize(q: seq<nat>, e: nat)
    ensures Below(q, e) <= |q|
  {
    if q != [] { BelowSize(q[1..], e); }
  }

  // The invariant ---------------------------------------------------------------------------------

  /** How many arrivals the relay has already put where they belong. */
  function Sorted(s: Pipe): nat {
    if s.relay.Routed? then s.taken + 1 else s.taken
  }

  predicate Counts(s: Pipe) {
    && s.taken <= |s.arrived| && (s.relay.Using? || s.relay.Routed? ==> s.taken < |s.arrived|)
    && s.passes + (if s.raised then 1 else 0) <= s.alarms <= 1
    && (s.frame.BatchRaised? || s.frame.BatchLoop? || s.frame.BatchPop? ==> s.raised)
  }

  /** Everything ever put on a lane has left it or is still queued there, in arrival order. */
  predicate Conserved(s: Pipe)
    requires Sorted(s) <= |s.arrived|
  {
    && s.passed + s.positions == NumbersOn(Positions, s.arrived, Sorted(s))
    && s.shownGui + s.guis == NumbersOn(Gui, s.arrived, Sorted(s))
  }

  /** What the frame loop knows between a test and what it guards. */
  predicate Guarded(s: Pipe) {
    match s.frame
    case HasPosition => s.positions != []
    case HasGui => s.guis != []
    case MayShowGui => s.guis != [] && Below(s.positions, s.guis[0]) <= MAX_BATCHED_POSITIONS_THRESHOLD
    case BatchLoop(i) => s.positions != [] && i <= |s.positions| && s.mark + i == |s.passed|
    case BatchPop(i) => i < |s.positions| - 1 && s.mark + i == |s.passed|
    case _ => true
  }

  /** Everything shown has left one of the two queues. */
  predicate ShownLeft(s: Pipe) {
    forall k :: 0 <= k < |s.shown| ==> s.shown[k] in s.passed || s.shown[k] in s.shownGui
  }

  /** Of the events that arrived before the gui event at place k, few were handled later or are
      still queued. */
  predicate FewStale(s: Pipe, k: nat)
    requires k < |s.shown|
  {
    Below(s.shown[k + 1..], s.shown[k]) + Below(s.positions, s.shown[k]) <= MAX_BATCHED_POSITIONS_THRESHOLD
  }

  predicate NeverStale(s: Pipe) {
    forall k :: 0 <= k < |s.shown| && s.shown[k] in s.shownGui ==> FewStale(s, k)
  }

  /** Gui events are handled in arrival order. */
  predicate GuiInOrder(s: Pipe) {
    forall j, k :: 0 <= j < k < |s.shown| && s.shown[j] in s.shownGui && s.shown[k] in s.shownGui ==> s.shown[j] < s.shown[k]
  }

  predicate Inv(s: Pipe) {
    Counts(s) && Conserved(s) && Guarded(s) && ShownLeft(s) && GuiInOrder(s) && NeverStale(s)
  }

  /** What conservation says about single entries. */
  lemma Ordered(s: Pipe)
    requires Counts(s) && Conserved(s)
    ensures forall n :: n in s.passed || n in s.positions ==> n < Sorted(s) && LaneOf(s.arrived[n]) == Positions
    ensures forall n :: n in s.shownGui || n in s.guis ==> n < Sorted(s) && LaneOf(s.arrived[n]) == Gui
    ensures s.guis != [] ==> forall n :: n in s.shownGui ==> n < s.guis[0]
  {
    LanesPartition(Positions, s.arrived, Sorted(s));
    LanesPartition(Gui, s.arrived, Sorted(s));
    var p, g := s.passed + s.positions, s.shownGui + s.guis;
    assert forall n :: n in s.passed || n in s.positions ==> n in p;
    assert forall n :: n in s.shownGui || n in s.guis ==> n in g;
    if s.guis != [] {
      forall n | n in s.shownGui ensures n < s.guis[0] {
        var k :| 0 <= k < |s.shownGui| && s.shownGui[k] == n;
        assert g[k] < g[|s.shownGui|];
      }
    }
  }

  // Conservation ---------------------------------------------------------------------------------

  lemma MoveHead(left: seq<nat>, q: seq<nat>)
    requires q != []
    ensures (left + [q[0]]) + q[1..] == left + q
  {
  }

  lemma ConservedArrive(s: Pipe, e: Event)
    requires Counts(s) && Conserved(s)
    ensures Conserved(Next(s, Arrive(e)))
  {
    NumbersPrefix(Positions, s.arrived, s.arrived + [e], Sorted(s));
    NumbersPrefix(Gui, s.arrived, s.arrived + [e], Sorted(s));
  }

  lemma ConservedPush(s: Pipe)
    requires Counts(s) && Conserved(s) && Enabled(s, RelayPush)
    ensures Conserved(Next(s, RelayPush))
  {
    assert s.passed + (s.positions + [s.taken]) == (s.passed + s.positions) + [s.taken];
    assert s.shownGui + (s.guis + [s.taken]) == (s.shownGui + s.guis) + [s.taken];
  }

  lemma ConservedFrame(s: Pipe)
    requires Counts(s) && Conserved(s)
    ensures Conserved(NextFrame(s))
  {
    if s.frame.HasPosition? || s.frame.BatchPop? {
      if s.positions != [] { MoveHead(s.passed, s.positions); }
    } else if s.frame.MayShowGui? {
      if s.guis != [] { MoveHead(s.shownGui, s.guis); }
    }
  }

  lemma CountsStep(s: Pipe, step: Step)
    requires Counts(s) && Guarded(s) && Enabled(s, step)
    ensures Counts(Next(s, step))
  {
  }

  lemma ConservedStep(s: Pipe, step: Step)
    requires Counts(s) && Conserved(s) && Guarded(s) && Enabled(s, step)
    ensures Counts(Next(s, step)) && Conserved(Next(s, step))
  {
    CountsStep(s, step);
    match step
    case Arrive(e) => ConservedArrive(s, e);
    case RelayPush => ConservedPush(s);
    case Frame => ConservedFrame(s);
    case _ =>
  }

  // The gate -------------------------------------------------------------------------------------

  lemma GuardedPush(s: Pipe)
    requires Counts(s) && Conserved(s) && Guarded(s) && Enabled(s, RelayPush)
    ensures Guarded(Next(s, RelayPush))
  {
    Ordered(s);
    if s.guis != [] {
      assert s.guis[0] in s.guis;
      BelowAppend(s.positions, [s.taken], s.guis[0]);
    }
  }

  lemma GuardedFrame(s: Pipe)
    requires Guarded(s)
    ensures Guarded(NextFrame(s))
  {
    if s.guis != [] { BelowSize(s.positions, s.guis[0]); }
  }

  lemma GuardedStep(s: Pipe, step: Step)
    requires Counts(s) && Conserved(s) && Guarded(s) && Enabled(s, step)
    ensures Guarded(Next(s, step))
  {
    match step
    case RelayPush => GuardedPush(s);
    case Frame => GuardedFrame(s);
    case _ =>
  }

  // Stale events ---------------------------------------------------------------------------------

  /** An entry that was shown before and has now left the gui queue had left it before. */
  lemma ShownBefore(s: Pipe, k: nat)
    requires Counts(s) && Conserved(s) && ShownLeft(s) && k < |s.shown| && s.guis != []
    ensures s.shown[k] != s.guis[0]
  {
    Ordered(s);
    assert s.guis[0] in s.guis;
    assert s.shown[k] in s.passed || s.shown[k] in s.shownGui;
  }

  /** Handling h and removing it from q moves it from one count to the other. */
  lemma CountMoves(shown: seq<nat>, k: nat, h: nat, e: nat)
    requires k < |shown|
    ensures Below((shown + [h])[k + 1..], e) == Below(shown[k + 1..], e) + (if h < e then 1 else 0)
  {
    assert (shown + [h])[k + 1..] == shown[k + 1..] + [h];
    BelowAppend(shown[k + 1..], [h], e);
  }

  lemma StaleShowPosition(s: Pipe, k: nat)
    requires Inv(s) && s.frame.HasPosition?
    requires k < |NextFrame(s).shown| && NextFrame(s).shown[k] in s.shownGui
    ensures FewStale(NextFrame(s), k)
  {
    Ordered(s);
    var h := s.positions[0];
    assert h in s.positions;
    assert k < |s.shown|;
    CountMoves(s.shown, k, h, s.shown[k]);
    assert FewStale(s, k);
  }

  lemma StaleShowGui(s: Pipe, k: nat)
    requires Inv(s) && s.frame.MayShowGui?
    requires k < |NextFrame(s).shown| && NextFrame(s).shown[k] in NextFrame(s).shownGui
    ensures FewStale(NextFrame(s), k)
  {
    Ordered(s);
    var h := s.guis[0];
    if k < |s.shown| {
      ShownBefore(s, k);
      assert FewStale(s, k);
      CountMoves(s.shown, k, h, s.shown[k]);
    } else {
      assert NextFrame(s).shown[k + 1..] == [];
    }
  }

  lemma StalePush(s: Pipe, k: nat)
    requires Inv(s) && Enabled(s, RelayPush) && k < |s.shown| && s.shown[k] in s.shownGui
    ensures FewStale(Next(s, RelayPush), k)
  {
    Ordered(s);
    assert FewStale(s, k);
    BelowAppend(s.positions, [s.taken], s.shown[k]);
  }

  lemma StaleFrame(s: Pipe, k: nat)
    requires Inv(s) && k < |NextFrame(s).shown| && NextFrame(s).shown[k] in NextFrame(s).shownGui
    ensures FewStale(NextFrame(s), k)
  {
    match s.frame
    case HasPosition => StaleShowPosition(s, k);
    case MayShowGui => StaleShowGui(s, k);
    case _ => assert FewStale(s, k); StaleKeeps(s, NextFrame(s), k);
  }

  lemma StaleStep(s: Pipe, step: Step, k: nat)
    requires Inv(s) && Enabled(s, step)
    requires k < |Next(s, step).shown| && Next(s, step).shown[k] in Next(s, step).shownGui
    ensures FewStale(Next(s, step), k)
  {
    match step
    case Frame => StaleFrame(s, k);
    case RelayPush => StalePush(s, k);
    case _ => assert FewStale(s, k);
  }

  /** The other steps show nothing, and at most take the head off the position queue. */
  lemma StaleKeeps(s: Pipe, t: Pipe, k: nat)
    requires k < |s.shown| && FewStale(s, k) && t.shown == s.shown
    requires t.positions == s.positions || (s.positions != [] && t.positions == s.positions[1..])
    ensures FewStale(t, k)
  {
  }

  lemma OrderShowGui(s: Pipe)
    requires Counts(s) && Conserved(s) && ShownLeft(s) && GuiInOrder(s) && s.frame.MayShowGui?
    ensures GuiInOrder(NextFrame(s))
  {
    if s.guis != [] {
      Ordered(s);
      assert s.guis[0] in s.guis;
      forall j | 0 <= j < |s.shown| ensures s.shown[j] != s.guis[0] { ShownBefore(s, j); }
    }
  }

  lemma OrderFrame(s: Pipe)
    requires Counts(s) && Conserved(s) && ShownLeft(s) && GuiInOrder(s)
    ensures GuiInOrder(NextFrame(s))
  {
    if s.frame.MayShowGui? {
      OrderShowGui(s);
    } else if s.frame.HasPosition? && s.positions != [] {
      Ordered(s);
      assert s.positions[0] in s.positions;
    }
  }

  lemma OrderStep(s: Pipe, step: Step)
    requires Counts(s) && Conserved(s) && ShownLeft(s) && GuiInOrder(s) && Enabled(s, step)
    ensures GuiInOrder(Next(s, step))
  {
    if step.Frame? { OrderFrame(s); }
  }

  lemma ShownStep(s: Pipe, step: Step)
    requires ShownLeft(s) && Guarded(s) && Enabled(s, step)
    ensures ShownLeft(Next(s, step))
  {
  }

  lemma InvStep(s: Pipe, step: Step)
    requires Inv(s) && Enabled(s, step)
    ensures Inv(Next(s, step))
  {
    var t := Next(s, step);
    ConservedStep(s, step);
    GuardedStep(s, step);
    ShownStep(s, step);
    OrderStep(s, step);
    forall k | 0 <= k < |t.shown| && t.shown[k] in t.shownGui
      ensures FewStale(t, k)
    {
      StaleStep(s, step, k);
    }
  }

  lemma ReachableInv(s: Pipe)
    requires Reachable(s)
    ensures Inv(s)
  {
    forall s, step | Inv(s) && PIPELINE.CanStep(s, step) ensures Inv(PIPELINE.next(s, step)) {
      InvStep(s, step);
    }
    PIPELINE.ReachableInv(Inv, s);
  }

  // Main results ---------------------------------------------------------------------------------

  predicate OnGui(s: Pipe, k: nat)
    requires k < |s.shown|
  {
    s.shown[k] < |s.arrived| && LaneOf(s.arrived[s.shown[k]]) == Gui
  }

  /** Bounded overtaking, over whole runs and every interleaving: after a gui event (an exit, say)
      has been handled, at most two events that arrived before it are handled later, and those are
      positions. */
  lemma AtMostTwoStale(s: Pipe, k: nat)
    requires Reachable(s) && k < |s.shown| && OnGui(s, k)
    ensures Below(s.shown[k + 1..], s.shown[k]) <= MAX_BATCHED_POSITIONS_THRESHOLD
    ensures forall j :: k < j < |s.shown| && s.shown[j] < s.shown[k] ==> LaneOf(s.arrived[s.shown[j]]) == Positions
  {
    ReachableInv(s);
    Ordered(s);
    assert s.shown[k] in s.passed || s.shown[k] in s.shownGui;
    assert FewStale(s, k);
    forall j | k < j < |s.shown| && s.shown[j] < s.shown[k]
      ensures LaneOf(s.arrived[s.shown[j]]) == Positions
    {
      var n := s.shown[j];
      assert n in s.passed || n in s.shownGui;
    }
  }

  // The bound is attained: three positions of a player and then its exit.

  lemma ArriveOne(s: Pipe, e: Event) returns (t: Pipe)
    requires Reachable(s)
    ensures Reachable(t) && t == s.(arrived := s.arrived + [e])
  {
    PIPELINE.ReachableStep(s, Arrive(e));
    t := Next(s, Arrive(e));
  }

  /** One round of the relay. */
  lemma SortOne(s: Pipe) returns (t: Pipe)
    requires Reachable(s) && s.relay.Fetching? && s.running && s.taken < |s.arrived|
    requires LaneOf(s.arrived[s.taken]) != Discarded
    ensures Reachable(t) && t == if LaneOf(s.arrived[s.taken]) == Positions
      then s.(taken := s.taken + 1, positions := s.positions + [s.taken])
      else s.(taken := s.taken + 1, guis := s.guis + [s.taken])
  {
    PIPELINE.ReachableStep(s, RelayFront);
    var s1 := Next(s, RelayFront);
    PIPELINE.ReachableStep(s1, RelayPush);
    var s2 := Next(s1, RelayPush);
    PIPELINE.ReachableStep(s2, RelayPop);
    var s3 := Next(s2, RelayPop);
    PIPELINE.ReachableStep(s3, RelayTest);
    t := Next(s3, RelayTest);
  }

  /** The frame loop from the top of a frame past the position queue. */
  lemma ShowOne(s: Pipe) returns (t: Pipe)
    requires Reachable(s) && s.frame.AtPositions? && s.positions != []
    ensures Reachable(t) && t == s.(frame := AtGui, positions := s.positions[1..],
      shown := s.shown + [s.positions[0]], passed := s.passed + [s.positions[0]])
  {
    PIPELINE.ReachableStep(s, Frame);
    PIPELINE.ReachableStep(NextFrame(s), Frame);
    t := NextFrame(NextFrame(s));
  }

  /** And from there to the top of the next frame, with no batch pass due. */
  lemma EndFrame(s: Pipe) returns (t: Pipe)
    requires Reachable(s) && s.frame.AtGui? && !s.raised && |s.positions| <= MAX_BATCHED_POSITIONS_THRESHOLD
    ensures Reachable(t) && t == if s.guis == [] then s.(frame := AtPositions)
      else s.(frame := AtPositions, guis := s.guis[1..], shown := s.shown + [s.guis[0]], shownGui := s.shownGui + [s.guis[0]])
  {
    PIPELINE.ReachableStep(s, Frame);
    var s1 := NextFrame(s);
    PIPELINE.ReachableStep(s1, Frame);
    t := NextFrame(s1);
    if s.guis != [] {
      PIPELINE.ReachableStep(t, Frame);
      var s3 := NextFrame(t);
      PIPELINE.ReachableStep(s3, Frame);
      t := NextFrame(s3);
    }
  }

  function ThreeThenExit(u: Uuid, car: Car): seq<Event> {
    [Position(u, car), Position(u, car), Position(u, car), Exit(u)]
  }

  lemma FourArrive(u: Uuid, car: Car) returns (s: Pipe)
    ensures Reachable(s) && s == START.(arrived := ThreeThenExit(u, car))
  {
    assert PIPELINE.CanRun(START, []) && PIPELINE.Outcome(START, []) == START;
    s := ArriveOne(START, Position(u, car));
    s := ArriveOne(s, Position(u, car));
    s := ArriveOne(s, Position(u, car));
    s := ArriveOne(s, Exit(u));
  }

  lemma FourSorted(u: Uuid, car: Car) returns (s: Pipe)
    ensures Reachable(s)
    ensures s == START.(arrived := ThreeThenExit(u, car), taken := 4, positions := [0, 1, 2], guis := [3])
  {
    s := FourArrive(u, car);
    s := SortOne(s);
    s := SortOne(s);
    s := SortOne(s);
    s := SortOne(s);
  }

  /** A reachable state in which an exit was followed by two older positions of the same player. */
  lemma TwoStaleHappens(u: Uuid, car: Car) returns (s: Pipe)
    ensures Reachable(s) && s.arrived == ThreeThenExit(u, car) && s.shown == [0, 3, 1, 2]
  {
    s := FourSorted(u, car);
    s := ShowOne(s);
    s := EndFrame(s);
    s := ShowOne(s);
    s := EndFrame(s);
    s := ShowOne(s);
  }

  /** Relay conservation: the arrivals the relay has sorted are split, each lane in arrival order and
      nothing twice, into what was ever put on the position queue, what was ever put on the gui queue,
      and the discarded rest. */
  lemma RelayConserves(s: Pipe)
    requires Reachable(s)
    ensures Sorted(s) <= |s.arrived|
    ensures s.passed + s.positions == NumbersOn(Positions, s.arrived, Sorted(s))
    ensures s.shownGui + s.guis == NumbersOn(Gui, s.arrived, Sorted(s))
    ensures forall n :: 0 <= n < Sorted(s) ==>
      (n in s.passed + s.positions) == (LaneOf(s.arrived[n]) == Positions)
      && (n in s.shownGui + s.guis) == (LaneOf(s.arrived[n]) == Gui)
  {
    ReachableInv(s);
    LanesPartition(Positions, s.arrived, Sorted(s));
    LanesPartition(Gui, s.arrived, Sorted(s));
  }

  /** Wherever the frame loop is about to pop, the queue it pops is not empty. */
  lemma NeverPopsEmpty(s: Pipe)
    requires Reachable(s)
    ensures s.frame.HasPosition? || s.frame.BatchPop? ==> s.positions != []
    ensures s.frame.MayShowGui? ==> s.guis != []
  {
    ReachableInv(s);
  }

  /** What the position queue held when the present batch pass began, and what it has received since. */
  function SincePass(s: Pipe): seq<nat>
    requires s.mark <= |s.passed|
  {
    (s.passed + s.positions)[s.mark..]
  }

  /** The batch pass under concurrent arrivals: when its loop ends, it has dropped exactly the older
      half, rounded down, of everything the queue held when it began or received since, and the rest is
      in the queue, which is not empty. Each raising of the flag pays for at most one pass, and it is
      raised at most once. */
  lemma BatchPassHalves(s: Pipe)
    requires Reachable(s)
    ensures s.frame.BatchLoop? && s.frame.i >= |s.positions| - 1 ==>
      && s.mark <= |s.passed| && s.frame.i == |SincePass(s)| / 2
      && s.passed[s.mark..] == SincePass(s)[..s.frame.i] && s.positions == SincePass(s)[s.frame.i..] && s.positions != []
    ensures s.passes <= s.alarms <= 1
    ensures s.frame.BatchLoop? || s.frame.BatchPop? ==> s.passes == 0
  {
    ReachableInv(s);
  }

  lemma FrameOn(s: Pipe, t: Pipe) returns (u: Pipe)
    requires PIPELINE.Leads(s, t)
    ensures PIPELINE.Leads(s, u) && u == NextFrame(t)
  {
    u := NextFrame(t);
    PIPELINE.LeadsOn(s, t, Frame);
  }

  /** The state after the pass has dropped k more. */
  function Dropping(s: Pipe, k: nat): Pipe
    requires k <= |s.positions|
  {
    s.(positions := s.positions[k..], passed := s.passed + s.positions[..k])
  }

  lemma DroppingOn(s: Pipe, k: nat)
    requires 0 < k <= |s.positions|
    ensures Dropping(s.(positions := s.positions[1..], passed := s.passed + [s.positions[0]]), k - 1) == Dropping(s, k)
  {
    assert s.positions[1..][k - 1..] == s.positions[k..];
    assert s.positions[..k] == [s.positions[0]] + s.positions[1..][..k - 1];
    assert (s.passed + [s.positions[0]]) + s.positions[1..][..k - 1] == s.passed + s.positions[..k];
  }

  /** How many of p positions a pass that has dropped i still drops. */
  function StillToDrop(i: nat, p: nat): int {
    (i + p) / 2 - i
  }

  lemma PopsOne(s: Pipe) returns (t: Pipe)
    requires s.frame.BatchLoop? && s.frame.i < |s.positions| - 1
    ensures PIPELINE.Leads(s, t)
    ensures t == s.(frame := BatchLoop(s.frame.i + 1), positions := s.positions[1..], passed := s.passed + [s.positions[0]])
  {
    PIPELINE.LeadsNowhere(s);
    var s1 := FrameOn(s, s);
    t := FrameOn(s, s1);
  }

  lemma {:induction false} LoopRuns(s: Pipe) returns (t: Pipe)
    requires s.frame.BatchLoop? && s.positions != [] && s.frame.i <= |s.positions|
    ensures PIPELINE.Leads(s, t)
    ensures var k := StillToDrop(s.frame.i, |s.positions|);
      0 <= k <= |s.positions| && t == Dropping(s, k).(frame := AtPositions, raised := false, passes := s.passes + 1)
    decreases |s.positions|
  {
    var i := s.frame.i;
    if i < |s.positions| - 1 {
      var s1 := PopsOne(s);
      t := LoopRuns(s1);
      PIPELINE.LeadsFar(s, s1, t);
      assert StillToDrop(i + 1, |s.positions| - 1) == StillToDrop(i, |s.positions|) - 1;
      DroppingOn(s, StillToDrop(i, |s.positions|));
    } else {
      PIPELINE.LeadsNowhere(s);
      t := FrameOn(s, s);
      assert s.positions[0..] == s.positions && s.passed + s.positions[..0] == s.passed;
    }
  }

  /** The pass takes place: with the flag raised and more than two positions queued where the frame loop
      tests for it, the loop begins a pass, and undisturbed it ends with the older half dropped, the rest
      in order, and the flag cleared. */
  lemma PassRuns(s: Pipe) returns (t: Pipe)
    requires s.frame.AtBatch? && s.raised && |s.positions| > 2
    ensures PIPELINE.Leads(s, t)
    ensures t.frame.AtPositions? && !t.raised && t.passes == s.passes + 1
    ensures t.positions == s.positions[|s.positions| / 2..] && t.passed == s.passed + s.positions[..|s.positions| / 2]
    ensures t.guis == s.guis && t.shown == s.shown
  {
    PIPELINE.LeadsNowhere(s);
    var s1 := FrameOn(s, s);
    var s2 := FrameOn(s, s1);
    t := LoopRuns(s2);
    PIPELINE.LeadsFar(s, s2, t);
  }

  /** It does happen: a reachable state in which a pass is due. */
  lemma PassIsDue(u: Uuid, car: Car) returns (s: Pipe)
    ensures Reachable(s) && s.frame.AtBatch? && s.raised && s.positions == [1, 2, 4] && s.passes == 0
  {
    s := FourSorted(u, car);
    s := ArriveOne(s, Position(u, car));
    s := SortOne(s);
    PIPELINE.ReachableStep(s, Alarm);
    s := Next(s, Alarm);
    s := ShowOne(s);
    PIPELINE.ReachableStep(s, Frame);
    s := NextFrame(s);
    PIPELINE.ReachableStep(s, Frame);
    s := NextFrame(s);
  }

  // The relay's end --------------------------------------------------------------------------------

  predicate StopsForCause(s: Pipe) {
    s.relay.Stopped? ==> !s.running
  }

  /** The relay does not stop while the game runs. */
  lemma RelayKeepsOn(s: Pipe)
    requires Reachable(s) && s.running
    ensures !s.relay.Stopped?
  {
    PIPELINE.ReachableInv(StopsForCause, s);
  }

  /** What the relay may still take once the flag is cleared: the element it has or is waiting for. */
  function StillToTake(s: Pipe): nat {
    if s.relay.Testing? || s.relay.Stopped? then 0 else 1
  }

  /** After the game is stopped the relay takes at most one more element, whatever else happens. */
  lemma {:induction false} StopsAfterOne(s: Pipe, steps: seq<Step>)
    requires PIPELINE.CanRun(s, steps) && !s.running
    ensures var t := PIPELINE.Outcome(s, steps); !t.running && s.taken <= t.taken && t.taken + StillToTake(t) <= s.taken + StillToTake(s)
    decreases |steps|
  {
    if steps != [] { StopsAfterOne(Next(s, steps[0]), steps[1..]); }
  }

  /** And with an element there for it, it does stop. */
  lemma RelayStops(s: Pipe) returns (t: Pipe)
    requires Reachable(s) && s.running && s.taken < |s.arrived|
    ensures PIPELINE.Leads(s, t) && t.relay.Stopped? && t.taken <= s.taken + 1
  {
    RelayKeepsOn(s);
    PIPELINE.LeadsNowhere(s);
    t := Next(s, Stop);
    PIPELINE.LeadsOn(s, s, Stop);
    if t.relay.Fetching? { PIPELINE.LeadsOn(s, t, RelayFront); t := Next(t, RelayFront); }
    if t.relay.Using? { PIPELINE.LeadsOn(s, t, RelayPush); t := Next(t, RelayPush); }
    if t.relay.Routed? { PIPELINE.LeadsOn(s, t, RelayPop); t := Next(t, RelayPop); }
    PIPELINE.LeadsOn(s, t, RelayTest);
    t := Next(t, RelayTest);
  }
}
