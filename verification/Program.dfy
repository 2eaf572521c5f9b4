/** The whole program, queue by queue, refines the protocol. Here a client is the view its frames work
    on, its write queue and both socket directions; a frame is five steps, between which anything may
    arrive and any other client or server goroutine may act. Every run of this program is a run of the
    replication protocol, so what is proved of every reachable protocol state holds of the program. */
module Program {
  import opened Events
  import opened Broadcast
  import opened Runs
  import opened Session
  import opened GameClient
  import Relay
  import R = Replication

  /** `up`: positions written to the socket and not yet routed. `down`: what the server has written to
      the client's connection and the relay has not sorted yet. */
  datatype Node = Node(view: View, color: Color, up: seq<Car>, handler: Loop<Car>, down: seq<Event>)

  datatype System = System(
    nodes: map<Uuid, Node>,
    members: set<Uuid>,
    awaiting: set<Uuid>,
    serving: set<Uuid>,
    spoiled: set<(Uuid, Uuid)>)

  const INIT := System(map[], {}, {}, {}, {})

  datatype Step =
    // the server
    | Connect(c: Uuid, color: Color, view: View)
    | Add(c: Uuid)
    | Begin(c: Uuid)
    | Reach(c: Uuid, b: Uuid)
    | Deliver(c: Uuid, b: Uuid)
    | Finish(c: Uuid)
    | Route(c: Uuid)
    | Remove(c: Uuid)
    | Tell(b: Uuid, e: Event)        // any message that is neither a position nor an exit
    // the client's threads
    | Sort(c: Uuid)                  // the relay takes the oldest message
    | Write(c: Uuid)                 // the write worker takes the oldest entry
    | Alarm(c: Uuid)                 // the batch flag is raised
    | Paint(c: Uuid, color: Color)   // a new colour is chosen
    // the parts of a frame
    | Look(c: Uuid)
    | Listen(c: Uuid)
    | Steers(c: Uuid, keys: Keys)
    | Speak(c: Uuid)
    | Thin(c: Uuid)

  /** A client as it starts: at the origin, knowing nobody, with nothing queued. */
  predicate Starting(v: View) {
    v.at == ORIGIN && !v.move && v.players == map[] && v.positions == [] && v.guis == [] && v.outbox == []
  }

  predicate Enabled(g: System, step: Step) {
    match step
    case Connect(c, _, view) => c !in g.nodes && Starting(view)
    case Add(c) => c in g.awaiting && c in g.nodes
    case Begin(c) => c in g.nodes && c !in g.awaiting && g.nodes[c].handler.Queued?
    case Reach(c, b) => c in g.nodes && CanReach(g.nodes[c].handler, PeersOf(c), g.members, b)
    case Deliver(c, b) => c in g.nodes && b in g.nodes && c != b && SendingTo(g.nodes[c].handler, b) && b in g.serving
    case Finish(c) => c in g.nodes && CanFinish(g.nodes[c].handler, PeersOf(c), g.members)
    case Route(c) => c in g.nodes && g.nodes[c].handler.Idle? && g.nodes[c].up != []
    case Remove(c) => c in g.members && c in g.serving
    case Tell(b, e) => b in g.nodes && Relay.LaneOf(e) != Relay.Positions && !e.Exit?
    case Sort(c) => c in g.nodes && g.nodes[c].down != []
    case Write(c) => c in g.nodes && g.nodes[c].view.outbox != []
    case _ => step.c in g.nodes
  }

  function Put(g: System, c: Uuid, n: Node): System {
    g.(nodes := g.nodes[c := n])
  }

  function PutView(g: System, c: Uuid, v: View): System
    requires c in g.nodes
  {
    Put(g, c, g.nodes[c].(view := v))
  }

  function Next(g: System, step: Step): System
    requires Enabled(g, step)
  {
    match step
    case Connect(c, color, view) =>
      Put(g, c, Node(view, color, [], Queued(Car(ORIGIN, color)), [])).(awaiting := g.awaiting + {c})
    case Add(c) =>
      g.(members := g.members + {c}, awaiting := g.awaiting - {c})
    case Begin(c) =>
      Put(g, c, g.nodes[c].(handler := Begun(g.nodes[c].handler, g.members)))
    case Reach(c, b) =>
      Put(g, c, g.nodes[c].(handler := Reached(g.nodes[c].handler, b)))
    case Deliver(c, b) =>
      var n := g.nodes[c];
      Put(Put(g, c, n.(handler := Delivered(n.handler, b))), b, Told(g.nodes[b], Position(c, n.handler.msg)))
    case Finish(c) =>
      Put(g, c, g.nodes[c].(handler := Idle)).(serving := g.serving + {c})
    case Route(c) =>
      var n := g.nodes[c];
      Put(g, c, n.(up := n.up[1..], handler := Queued(n.up[0])))
    case Remove(c) =>
      var left := g.members - {c};
      g.(nodes := map x | x in g.nodes :: if x in left then Told(g.nodes[x], Exit(c)) else g.nodes[x], members := left)
    case Tell(b, e) =>
      Put(g, b, Told(g.nodes[b], e))
    case Sort(c) =>
      Put(g, c, Sorted(g.nodes[c]))
    case Write(c) =>
      Put(g, c, Written(g.nodes[c]))
    case Alarm(c) =>
      PutView(g, c, g.nodes[c].view.(handleBatch := true))
    case Paint(c, color) =>
      Put(g, c, g.nodes[c].(color := color))
    case Look(c) =>
      if g.nodes[c].view.positions == [] then g else Raise(PutView(g, c, ShowPosition(g.nodes[c].view)), c)
    case Listen(c) =>
      PutView(g, c, ShowGui(g.nodes[c].view, c))
    case Steers(c, keys) =>
      Raise(PutView(g, c, Drive(g.nodes[c].view, keys)), c)
    case Speak(c) =>
      PutView(g, c, Announce(g.nodes[c].view, Identity(c, g.nodes[c].color, true), true))
    case Thin(c) =>
      var t := PutView(g, c, Batch(g.nodes[c].view));
      if Thins(g.nodes[c].view)
      then t.(spoiled := g.spoiled + R.Spoils(c, AsPeer(g.nodes[c]), Dropped(g.nodes[c].view)))
      else t
  }

  function Told(n: Node, e: Event): Node {
    n.(down := n.down + [e])
  }

  /** The relay puts one message where it belongs. */
  function Sorted(n: Node): Node
    requires n.down != []
  {
    var e, v := n.down[0], n.view;
    var w := match Relay.LaneOf(e)
      case Positions => v.(positions := v.positions + [e])
      case Gui => v.(guis := v.guis + [e])
      case Discarded => v;
    n.(view := w, down := n.down[1..])
  }

  /** The write worker puts one entry on the socket. Only positions matter to the protocol. */
  function Written(n: Node): Node
    requires n.view.outbox != []
  {
    var out := n.view.outbox;
    n.(view := n.view.(outbox := out[1..]), up := n.up + Collect([out[0]], AsCar))
  }

  /** The batch pass takes place. */
  predicate Thins(v: View) {
    v.handleBatch && |v.positions| > MAX_BATCHED_POSITIONS_THRESHOLD
  }

  function Raise(g: System, c: Uuid): System
    requires c in g.nodes
  {
    if g.nodes[c].view.move then g.(spoiled := set pair | pair in g.spoiled && pair.0 != c) else g
  }

  ghost const PROGRAM := Machine(INIT, Enabled, Next)

  ghost predicate Reachable(g: System) { PROGRAM.Reachable(g) }

  // The protocol's view of it ----------------------------------------------------------------------

  /** What f finds in a sequence, in order. */
  function Collect<E, T>(q: seq<E>, f: E -> Option<T>): seq<T> {
    if q == [] then []
    else (match f(q[0]) case Some(x) => [x] case None => []) + Collect(q[1..], f)
  }

  function AsCar(out: Outgoing): Option<Car> {
    if out.PositionOut? then Some(Car(out.at, out.color)) else None
  }

  function AsSighting(e: Event): Option<R.Sighting> {
    if e.Position? || e.PositionDebug? then Some(R.Sighting(e.who, e.car)) else None
  }

  function AsExit(e: Event): Option<Uuid> {
    if e.Exit? then Some(e.who) else None
  }

  /** How many sightings the batch pass drops. */
  function Dropped(v: View): (k: nat)
    ensures k <= |Collect(v.positions, AsSighting)|
  {
    var half := |v.positions| / 2;
    CollectConcat(v.positions[..half], v.positions[half..], AsSighting);
    assert v.positions[..half] + v.positions[half..] == v.positions;
    |Collect(v.positions[..half], AsSighting)|
  }

  function Departed(n: Node): seq<Uuid> {
    Collect(n.view.guis, AsExit) + Collect(n.down, AsExit)
  }

  function AsPeer(n: Node): R.Peer {
    R.Peer(n.view.at, n.color, n.view.move, n.view.players,
      n.up + Collect(n.view.outbox, AsCar),
      n.handler,
      Collect(n.view.positions, AsSighting) + Collect(n.down, AsSighting),
      Elements(Departed(n)))
  }

  function Elements<T>(q: seq<T>): set<T> {
    set x | x in q
  }

  function AsSystem(g: System): R.System {
    R.System(map c | c in g.nodes :: AsPeer(g.nodes[c]), g.members, g.awaiting, g.serving, g.spoiled)
  }

  predicate Distinct<T(==)>(q: seq<T>) {
    forall i, j :: 0 <= i < j < |q| ==> q[i] != q[j]
  }

  /** The queues hold what the relay puts there, and nobody's departure is told twice. */
  predicate NodeOk(n: Node) {
    InLanes(n.view.positions, n.view.guis, n.down) && Distinct(Departed(n))
  }

  predicate InLanes(positions: seq<Event>, guis: seq<Event>, down: seq<Event>) {
    && (forall i :: 0 <= i < |positions| ==> AsSighting(positions[i]).Some?)
    && (forall i :: 0 <= i < |guis| ==> AsSighting(guis[i]).None?)
    && (forall i :: 0 <= i < |down| && Relay.LaneOf(down[i]) == Relay.Positions ==> AsSighting(down[i]).Some?)
  }

  predicate Ok(g: System) {
    forall c :: c in g.nodes ==> NodeOk(g.nodes[c])
  }

  lemma {:induction false} CollectConcat<E, T>(q: seq<E>, r: seq<E>, f: E -> Option<T>)
    ensures Collect(q + r, f) == Collect(q, f) + Collect(r, f)
  {
    if q == [] {
      assert q + r == r;
    } else {
      assert (q + r)[1..] == q[1..] + r;
      CollectConcat(q[1..], r, f);
    }
  }

  lemma {:induction false} CollectAll<E, T>(q: seq<E>, f: E -> Option<T>, k: nat)
    requires k <= |q| && forall i :: 0 <= i < |q| ==> f(q[i]).Some?
    ensures |Collect(q, f)| == |q| && Collect(q, f)[k..] == Collect(q[k..], f)
    decreases |q|
  {
    if q != [] {
      CollectAll(q[1..], f, if k == 0 then 0 else k - 1);
      if k > 0 { assert q[1..][k - 1..] == q[k..]; }
    }
  }

  lemma CollectHead<E, T>(q: seq<E>, f: E -> Option<T>)
    requires q != []
    ensures Collect(q, f) == Collect([q[0]], f) + Collect(q[1..], f)
  {
    assert q == [q[0]] + q[1..];
    CollectConcat([q[0]], q[1..], f);
  }

  lemma AsSystemPut(g: System, c: Uuid, n: Node)
    ensures AsSystem(Put(g, c, n)) == R.Put(AsSystem(g), c, AsPeer(n))
  {
  }

  // What each part does to a client ----------------------------------------------------------------

  lemma DistinctAppend<T>(q: seq<T>, x: T)
    requires Distinct(q) && x !in q
    ensures Distinct(q + [x]) && Elements(q + [x]) == Elements(q) + {x}
  {
  }

  lemma DistinctTail<T>(q: seq<T>, x: T, r: seq<T>)
    requires q == [x] + r && Distinct(q)
    ensures Distinct(r) && x in Elements(q) && Elements(r) == Elements(q) - {x}
  {
    assert q[0] == x;
    forall i | 0 <= i < |r| ensures r[i] == q[i + 1] && r[i] != x {}
  }

  lemma DepartedAfterTold(n: Node, e: Event)
    ensures Departed(Told(n, e)) == if e.Exit? then Departed(n) + [e.who] else Departed(n)
  {
    CollectConcat(n.down, [e], AsExit);
    assert Collect([e], AsExit) == if e.Exit? then [e.who] else [];
  }

  lemma SightingsAfterTold(n: Node, e: Event)
    ensures AsPeer(Told(n, e)).downlink == AsPeer(n).downlink + Collect([e], AsSighting)
  {
    CollectConcat(n.down, [e], AsSighting);
    Regroup(Collect(n.view.positions, AsSighting), Collect(n.down, AsSighting), Collect([e], AsSighting));
  }

  lemma LanesAfterTold(n: Node, e: Event)
    requires InLanes(n.view.positions, n.view.guis, n.down) && (Relay.LaneOf(e) == Relay.Positions ==> AsSighting(e).Some?)
    ensures InLanes(n.view.positions, n.view.guis, Told(n, e).down)
  {
  }

  lemma ToldIs(n: Node, e: Event)
    requires NodeOk(n) && (Relay.LaneOf(e) == Relay.Positions ==> AsSighting(e).Some?)
    requires e.Exit? ==> e.who !in Departed(n)
    ensures NodeOk(Told(n, e))
    ensures AsPeer(Told(n, e)) == AsPeer(n).(
      downlink := AsPeer(n).downlink + Collect([e], AsSighting),
      exits := if e.Exit? then AsPeer(n).exits + {e.who} else AsPeer(n).exits)
  {
    SightingsAfterTold(n, e);
    DepartedAfterTold(n, e);
    LanesAfterTold(n, e);
    if e.Exit? { DistinctAppend(Departed(n), e.who); }
  }

  lemma LanesAfterSorting(n: Node)
    requires InLanes(n.view.positions, n.view.guis, n.down) && n.down != []
    ensures var w := Sorted(n); InLanes(w.view.positions, w.view.guis, w.down)
  {
  }

  /** What one element adds, moved from the head of one queue to the end of another. */
  lemma MoveOne<E, T>(q: seq<E>, r: seq<E>, f: E -> Option<T>)
    requires r != []
    ensures Collect(q + [r[0]], f) + Collect(r[1..], f) == Collect(q, f) + Collect(r, f)
    ensures f(r[0]).None? ==> Collect(r[1..], f) == Collect(r, f)
  {
    var x, rest := Collect([r[0]], f), Collect(r[1..], f);
    CollectHead(r, f);
    CollectConcat(q, [r[0]], f);
    assert (Collect(q, f) + x) + rest == Collect(q, f) + (x + rest);
  }

  lemma SightingsAfterSorting(n: Node)
    requires n.down != []
    ensures AsPeer(Sorted(n)).downlink == AsPeer(n).downlink
  {
    MoveOne(n.view.positions, n.down, AsSighting);
  }

  lemma DepartedAfterSorting(n: Node)
    requires n.down != []
    ensures Departed(Sorted(n)) == Departed(n)
  {
    MoveOne(n.view.guis, n.down, AsExit);
  }

  /** Sorting is invisible to the protocol. */
  lemma SortedIs(n: Node)
    requires NodeOk(n) && n.down != []
    ensures NodeOk(Sorted(n)) && AsPeer(Sorted(n)) == AsPeer(n)
  {
    LanesAfterSorting(n);
    SightingsAfterSorting(n);
    DepartedAfterSorting(n);
  }

  /** So is writing. */
  lemma WrittenIs(n: Node)
    requires NodeOk(n) && n.view.outbox != []
    ensures NodeOk(Written(n)) && AsPeer(Written(n)) == AsPeer(n)
  {
    CollectHead(n.view.outbox, AsCar);
    assert Departed(Written(n)) == Departed(n);
  }

  lemma LanesAfterLooking(n: Node)
    requires InLanes(n.view.positions, n.view.guis, n.down)
    ensures var v := ShowPosition(n.view); InLanes(v.positions, v.guis, n.down)
  {
  }

  lemma LookIs(n: Node)
    requires NodeOk(n)
    ensures var m := n.(view := ShowPosition(n.view));
      && NodeOk(m) && (n.view.positions == [] ==> m == n)
      && (n.view.positions != [] ==> AsPeer(n).downlink != [] && AsPeer(m) == R.HandleOldest(AsPeer(n)))
  {
    var v, m := n.view, n.(view := ShowPosition(n.view));
    LanesAfterLooking(n);
    assert Departed(m) == Departed(n);
    if v.positions != [] { HeadIs(n); }
  }

  lemma HeadOfConcat<T>(x: T, c: seq<T>, d: seq<T>)
    ensures var q := ([x] + c) + d; q != [] && q[0] == x && q[1..] == c + d
  {
  }

  lemma HeadIs(n: Node)
    requires NodeOk(n) && n.view.positions != []
    ensures var v, q := n.view, AsPeer(n).downlink;
      && AsSighting(v.positions[0]).Some?
      && q != [] && q[0] == AsSighting(v.positions[0]).value
      && q[1..] == Collect(v.positions[1..], AsSighting) + Collect(n.down, AsSighting)
  {
    var q := n.view.positions;
    assert AsSighting(q[0]).Some?;
    HeadOfConcat(AsSighting(q[0]).value, Collect(q[1..], AsSighting), Collect(n.down, AsSighting));
  }

  /** The protocol steps of one gui event. */
  function Heard(c: Uuid, e: Event): seq<R.Step> {
    match e
    case Recolor(who, color) => [R.Repainted(c, who, color)]
    case Exit(who) => [R.HandleExit(c, who)]
    case _ => []
  }

  function HeardBy(c: Uuid, v: View): seq<R.Step> {
    if v.guis != [] && |v.positions| <= MAX_BATCHED_POSITIONS_THRESHOLD then Heard(c, v.guis[0]) else []
  }

  lemma DepartedAfterListening(n: Node, c: Uuid)
    requires n.view.guis != [] && |n.view.positions| <= MAX_BATCHED_POSITIONS_THRESHOLD
    ensures var e, after := n.view.guis[0], Departed(n.(view := ShowGui(n.view, c)));
      Departed(n) == if e.Exit? then [e.who] + after else after
  {
    var e := n.view.guis[0];
    CollectHead(n.view.guis, AsExit);
    assert Collect([e], AsExit) == if e.Exit? then [e.who] else [];
  }

  /** What a protocol step of Heard does to the peer. */
  function AfterHearing(p: R.Peer, steps: seq<R.Step>): R.Peer {
    if steps == [] then p
    else match steps[0]
      case Repainted(_, who, color) => p.(players := Repaint(p.players, who, color))
      case HandleExit(_, who) => p.(players := Forget(p.players, who), exits := p.exits - {who})
      case _ => p
  }

  lemma LanesAfterListening(n: Node, c: Uuid)
    requires InLanes(n.view.positions, n.view.guis, n.down)
    ensures var v := ShowGui(n.view, c); InLanes(v.positions, v.guis, n.down)
  {
  }

  lemma DistinctAfterListening(n: Node, c: Uuid)
    requires Distinct(Departed(n)) && n.view.guis != [] && |n.view.positions| <= MAX_BATCHED_POSITIONS_THRESHOLD
    ensures var e, m := n.view.guis[0], n.(view := ShowGui(n.view, c));
      && Distinct(Departed(m)) && (e.Exit? ==> e.who in AsPeer(n).exits)
      && AsPeer(m).exits == if e.Exit? then AsPeer(n).exits - {e.who} else AsPeer(n).exits
  {
    DepartedAfterListening(n, c);
    var e, m := n.view.guis[0], n.(view := ShowGui(n.view, c));
    if e.Exit? { DistinctTail(Departed(n), e.who, Departed(m)); }
  }

  lemma GuiEffectFields(v: View, c: Uuid, e: Event, p: R.Peer)
    requires p.players == v.players
    ensures var w := GuiEffect(v, c, e);
      && w.at == v.at && w.move == v.move && w.positions == v.positions && w.outbox == v.outbox
      && w.players == AfterHearing(p, Heard(c, e)).players
  {
  }

  lemma ListenFields(n: Node, c: Uuid)
    ensures var v, w := n.view, ShowGui(n.view, c);
      && w.at == v.at && w.move == v.move && w.positions == v.positions && w.outbox == v.outbox
      && w.players == AfterHearing(AsPeer(n), HeardBy(c, v)).players
  {
    if n.view.guis != [] { GuiEffectFields(n.view, c, n.view.guis[0], AsPeer(n)); }
  }

  lemma ListenIs(n: Node, c: Uuid)
    requires NodeOk(n)
    ensures var p, steps := AsPeer(n), HeardBy(c, n.view);
      && NodeOk(n.(view := ShowGui(n.view, c)))
      && AsPeer(n.(view := ShowGui(n.view, c))) == AfterHearing(p, steps)
      && (steps != [] && steps[0].HandleExit? ==> steps[0].c in p.exits)
  {
    var w := ShowGui(n.view, c);
    LanesAfterListening(n, c);
    ListenFields(n, c);
    if n.view.guis != [] && |n.view.positions| <= MAX_BATCHED_POSITIONS_THRESHOLD {
      DistinctAfterListening(n, c);
    } else {
      assert w == n.view;
    }
    SameBut(n, w, AfterHearing(AsPeer(n), HeardBy(c, n.view)));
  }

  /** A peer that differs from n's in the players and the exits only. */
  lemma SameBut(n: Node, w: View, p: R.Peer)
    requires w.at == n.view.at && w.move == n.view.move && w.positions == n.view.positions && w.outbox == n.view.outbox
    requires p == AsPeer(n).(players := w.players, exits := Elements(Departed(n.(view := w))))
    ensures AsPeer(n.(view := w)) == p
  {
  }

  lemma SpeakIs(n: Node, c: Uuid)
    requires NodeOk(n)
    ensures var m, p := n.(view := Announce(n.view, Identity(c, n.color, true), true)), AsPeer(n);
      && NodeOk(m)
      && AsPeer(m) == if p.move then p.(uplink := p.uplink + [Car(p.at, p.color)], move := false) else p
  {
    var v, id := n.view, Identity(c, n.color, true);
    var m := n.(view := Announce(v, id, true));
    assert Departed(m) == Departed(n);
    if v.move {
      var out := PositionOut(n.color, c, v.at);
      CollectConcat(v.outbox, [out], AsCar);
      assert Collect([out], AsCar) == [Car(v.at, n.color)];
      assert AsPeer(m).uplink == AsPeer(n).uplink + [Car(v.at, n.color)];
    }
  }

  lemma LanesAfterThinning(n: Node)
    requires InLanes(n.view.positions, n.view.guis, n.down)
    ensures var v := Batch(n.view); InLanes(v.positions, v.guis, n.down)
  {
  }

  lemma ThinIs(n: Node)
    requires NodeOk(n)
    ensures var m, p, k := n.(view := Batch(n.view)), AsPeer(n), Dropped(n.view);
      && NodeOk(m)
      && (!Thins(n.view) ==> AsPeer(m) == p)
      && (Thins(n.view) ==> R.PassDrops(p.downlink, k) && k <= |p.downlink| && AsPeer(m) == p.(downlink := p.downlink[k..]))
  {
    LanesAfterThinning(n);
    var v := n.view;
    assert Departed(n.(view := Batch(v))) == Departed(n);
    if Thins(v) {
      var half := |v.positions| / 2;
      CollectAll(v.positions, AsSighting, half);
      CollectAll(v.positions[..half], AsSighting, 0);
      assert R.PassDrops(AsPeer(n).downlink, half) by { assert 2 < |v.positions| <= |AsPeer(n).downlink|; }
    }
  }

  // The simulation ---------------------------------------------------------------------------------

  /** The protocol steps that a program step amounts to: at most one. */
  function Image(g: System, step: Step): seq<R.Step>
    requires Enabled(g, step)
  {
    match step
    case Connect(c, color, _) => [R.Connect(c, color)]
    case Add(c) => [R.Add(c)]
    case Begin(c) => [R.Begin(c)]
    case Reach(c, b) => [R.Reach(c, b)]
    case Deliver(c, b) => [R.Deliver(c, b)]
    case Finish(c) => [R.Finish(c)]
    case Route(c) => if AsPeer(g.nodes[c]).uplink != [] then [R.Route(c)] else []
    case Remove(c) => [R.Remove(c)]
    case Paint(c, color) => [R.Paint(c, color)]
    case Look(c) => if g.nodes[c].view.positions != [] then [R.Handle(c)] else []
    case Listen(c) => HeardBy(c, g.nodes[c].view)
    case Steers(c, keys) => [R.Press(c, keys)]
    case Speak(c) => if g.nodes[c].view.move then [R.Send(c)] else []
    case Thin(c) => if Thins(g.nodes[c].view) then [R.Drop(c, Dropped(g.nodes[c].view))] else []
    case _ => []
  }

  /** One program step is what its image is in the protocol. */
  ghost predicate Simulated(g: System, step: Step)
    requires Enabled(g, step)
  {
    var s, t, steps := AsSystem(g), AsSystem(Next(g, step)), Image(g, step);
    Ok(Next(g, step)) && (if steps == [] then t == s else |steps| == 1 && R.Enabled(s, steps[0]) && t == R.Next(s, steps[0]))
  }

  lemma OkPut(g: System, c: Uuid, n: Node)
    requires Ok(g) && NodeOk(n)
    ensures Ok(Put(g, c, n))
  {
    var h := Put(g, c, n);
    forall x | x in h.nodes ensures NodeOk(h.nodes[x]) { assert x != c ==> h.nodes[x] == g.nodes[x]; }
  }

  lemma SamePut(g: System, c: Uuid, n: Node)
    requires c in g.nodes && AsPeer(n) == AsPeer(g.nodes[c])
    ensures AsSystem(Put(g, c, n)) == AsSystem(g)
  {
    assert AsSystem(Put(g, c, n)).peers == AsSystem(g).peers;
  }

  /** A step that changes one client. */
  lemma PutIs(g: System, c: Uuid, n: Node)
    requires Ok(g) && NodeOk(n)
    ensures Ok(Put(g, c, n)) && AsSystem(Put(g, c, n)) == R.Put(AsSystem(g), c, AsPeer(n))
    ensures c in g.nodes && AsPeer(n) == AsPeer(g.nodes[c]) ==> AsSystem(Put(g, c, n)) == AsSystem(g)
  {
    OkPut(g, c, n);
    AsSystemPut(g, c, n);
    if c in g.nodes && AsPeer(n) == AsPeer(g.nodes[c]) { SamePut(g, c, n); }
  }

  lemma SortSimulated(g: System, c: Uuid)
    requires Ok(g) && Enabled(g, Sort(c))
    ensures Simulated(g, Sort(c))
  {
    SortedIs(g.nodes[c]);
    PutIs(g, c, Sorted(g.nodes[c]));
  }

  lemma WriteSimulated(g: System, c: Uuid)
    requires Ok(g) && Enabled(g, Write(c))
    ensures Simulated(g, Write(c))
  {
    WrittenIs(g.nodes[c]);
    PutIs(g, c, Written(g.nodes[c]));
  }

  lemma TellSimulated(g: System, b: Uuid, e: Event)
    requires Ok(g) && Enabled(g, Tell(b, e))
    ensures Simulated(g, Tell(b, e))
  {
    var n := g.nodes[b];
    ToldIs(n, e);
    assert Collect([e], AsSighting) == [];
    assert AsPeer(n).downlink + [] == AsPeer(n).downlink;
    PutIs(g, b, Told(n, e));
  }

  lemma AlarmSimulated(g: System, c: Uuid)
    requires Ok(g) && Enabled(g, Alarm(c))
    ensures Simulated(g, Alarm(c))
  {
    var n := g.nodes[c];
    var m := n.(view := n.view.(handleBatch := true));
    assert Departed(m) == Departed(n);
    PutIs(g, c, m);
  }

  lemma LookSimulated(g: System, c: Uuid)
    requires Ok(g) && Enabled(g, Look(c))
    ensures Simulated(g, Look(c))
  {
    var n := g.nodes[c];
    LookIs(n);
    PutIs(g, c, n.(view := ShowPosition(n.view)));
    assert n.view.positions == [] ==> n.(view := ShowPosition(n.view)) == n;
  }

  lemma ListenPut(g: System, c: Uuid)
    requires Ok(g) && c in g.nodes
    ensures Ok(Next(g, Listen(c)))
    ensures AsSystem(Next(g, Listen(c))) == R.Put(AsSystem(g), c, AfterHearing(AsPeer(g.nodes[c]), HeardBy(c, g.nodes[c].view)))
    ensures HeardBy(c, g.nodes[c].view) == [] ==> AsSystem(Next(g, Listen(c))) == AsSystem(g)
  {
    var n := g.nodes[c];
    ListenIs(n, c);
    PutIs(g, c, n.(view := ShowGui(n.view, c)));
  }

  lemma HeardNext(s: R.System, c: Uuid, e: Event)
    requires c in s.peers && (e.Exit? || e.Recolor?)
    requires e.Exit? ==> e.who in s.peers[c].exits
    ensures var r := Heard(c, e)[0]; R.Enabled(s, r) && R.Next(s, r) == R.Put(s, c, AfterHearing(s.peers[c], [r]))
  {
  }

  lemma ListenSimulated(g: System, c: Uuid)
    requires Ok(g) && Enabled(g, Listen(c))
    ensures Simulated(g, Listen(c))
  {
    var steps := HeardBy(c, g.nodes[c].view);
    ListenPut(g, c);
    ListenIs(g.nodes[c], c);
    assert AsSystem(g).peers[c] == AsPeer(g.nodes[c]);
    if steps != [] {
      HeardNext(AsSystem(g), c, g.nodes[c].view.guis[0]);
      assert steps == [steps[0]];
    }
    Concluded(g, Listen(c), steps);
  }

  lemma Concluded(g: System, step: Step, steps: seq<R.Step>)
    requires Enabled(g, step) && Ok(Next(g, step)) && steps == Image(g, step)
    requires steps == [] ==> AsSystem(Next(g, step)) == AsSystem(g)
    requires steps != [] ==> |steps| == 1 && R.Enabled(AsSystem(g), steps[0]) && AsSystem(Next(g, step)) == R.Next(AsSystem(g), steps[0])
    ensures Simulated(g, step)
  {
  }

  lemma SteersSimulated(g: System, c: Uuid, keys: Keys)
    requires Ok(g) && Enabled(g, Steers(c, keys))
    ensures Simulated(g, Steers(c, keys))
  {
    var n := g.nodes[c];
    var m := n.(view := Drive(n.view, keys));
    assert Departed(m) == Departed(n);
    PutIs(g, c, m);
  }

  lemma SpeakSimulated(g: System, c: Uuid)
    requires Ok(g) && Enabled(g, Speak(c))
    ensures Simulated(g, Speak(c))
  {
    var n := g.nodes[c];
    SpeakIs(n, c);
    PutIs(g, c, n.(view := Announce(n.view, Identity(c, n.color, true), true)));
  }

  lemma ThinNothing(g: System, c: Uuid)
    requires Ok(g) && c in g.nodes && !Thins(g.nodes[c].view)
    ensures Simulated(g, Thin(c))
  {
    var n := g.nodes[c];
    assert n.(view := Batch(n.view)) == n;
    PutIs(g, c, n);
  }

  lemma ThinPut(g: System, c: Uuid, k: nat)
    requires Ok(g) && c in g.nodes && Thins(g.nodes[c].view) && k == Dropped(g.nodes[c].view)
    ensures var p := AsPeer(g.nodes[c]);
      && Ok(Next(g, Thin(c))) && R.PassDrops(p.downlink, k) && k <= |p.downlink|
      && AsSystem(PutView(g, c, Batch(g.nodes[c].view))) == R.Put(AsSystem(g), c, p.(downlink := p.downlink[k..]))
  {
    var n := g.nodes[c];
    ThinIs(n);
    PutIs(g, c, n.(view := Batch(n.view)));
  }

  lemma ThinSimulated(g: System, c: Uuid)
    requires Ok(g) && Enabled(g, Thin(c))
    ensures Simulated(g, Thin(c))
  {
    var n, s := g.nodes[c], AsSystem(g);
    if Thins(n.view) {
      var k := Dropped(n.view);
      ThinPut(g, c, k);
      assert s.peers[c] == AsPeer(n);
      DropNext(s, c, k);
      Concluded(g, Thin(c), [R.Drop(c, k)]);
    } else {
      ThinNothing(g, c);
    }
  }

  lemma DropNext(s: R.System, c: Uuid, k: nat)
    requires c in s.peers && R.PassDrops(s.peers[c].downlink, k)
    ensures R.Enabled(s, R.Drop(c, k)) && k <= |s.peers[c].downlink|
    ensures var p := s.peers[c];
      R.Next(s, R.Drop(c, k)) == R.Put(s, c, p.(downlink := p.downlink[k..])).(spoiled := s.spoiled + R.Spoils(c, p, k))
  {
  }

  lemma HandlerIs(g: System, c: Uuid, l: Loop<Car>, up: seq<Car>)
    requires Ok(g) && c in g.nodes
    ensures var n := g.nodes[c]; var m := n.(handler := l, up := up);
      && Ok(Put(g, c, m))
      && AsSystem(Put(g, c, m)) == R.Put(AsSystem(g), c, AsPeer(n).(handler := l, uplink := up + Collect(n.view.outbox, AsCar)))
  {
    var n := g.nodes[c];
    var m := n.(handler := l, up := up);
    assert Departed(m) == Departed(n);
    PutIs(g, c, m);
  }

  lemma ConnectSimulated(g: System, c: Uuid, color: Color, view: View)
    requires Ok(g) && Enabled(g, Connect(c, color, view))
    ensures Simulated(g, Connect(c, color, view))
  {
    var n := Node(view, color, [], Queued(Car(ORIGIN, color)), []);
    assert Departed(n) == [] && AsPeer(n) == R.Peer(ORIGIN, color, false, map[], [], Queued(Car(ORIGIN, color)), [], {});
    PutIs(g, c, n);
  }

  lemma PaintSimulated(g: System, c: Uuid, color: Color)
    requires Ok(g) && Enabled(g, Paint(c, color))
    ensures Simulated(g, Paint(c, color))
  {
    var n := g.nodes[c];
    assert Departed(n.(color := color)) == Departed(n);
    PutIs(g, c, n.(color := color));
  }

  lemma RouteSimulated(g: System, c: Uuid)
    requires Ok(g) && Enabled(g, Route(c))
    ensures Simulated(g, Route(c))
  {
    var n := g.nodes[c];
    assert AsPeer(n).uplink[1..] == n.up[1..] + Collect(n.view.outbox, AsCar);
    HandlerIs(g, c, Queued(n.up[0]), n.up[1..]);
  }

  lemma LoopIs(g: System, c: Uuid, l: Loop<Car>)
    requires Ok(g) && c in g.nodes
    ensures var n := g.nodes[c]; var m := n.(handler := l);
      Ok(Put(g, c, m)) && AsSystem(Put(g, c, m)) == R.Put(AsSystem(g), c, AsPeer(n).(handler := l))
  {
    var n := g.nodes[c];
    HandlerIs(g, c, l, n.up);
    assert n.(handler := l, up := n.up) == n.(handler := l);
  }

  lemma BeginSimulated(g: System, c: Uuid)
    requires Ok(g) && Enabled(g, Begin(c))
    ensures Simulated(g, Begin(c))
  {
    LoopIs(g, c, Begun(g.nodes[c].handler, g.members));
  }

  lemma ReachSimulated(g: System, c: Uuid, b: Uuid)
    requires Ok(g) && Enabled(g, Reach(c, b))
    ensures Simulated(g, Reach(c, b))
  {
    LoopIs(g, c, Reached(g.nodes[c].handler, b));
  }

  lemma FinishSimulated(g: System, c: Uuid)
    requires Ok(g) && Enabled(g, Finish(c))
    ensures Simulated(g, Finish(c))
  {
    LoopIs(g, c, Idle);
  }

  lemma DeliverSimulated(g: System, c: Uuid, b: Uuid)
    requires Ok(g) && Enabled(g, Deliver(c, b))
    ensures Simulated(g, Deliver(c, b))
  {
    var n := g.nodes[c];
    LoopIs(g, c, Delivered(n.handler, b));
    var h := Put(g, c, n.(handler := Delivered(n.handler, b)));
    var e := Position(c, n.handler.msg);
    ToldIs(g.nodes[b], e);
    assert Collect([e], AsSighting) == [R.Sighting(c, n.handler.msg)];
    PutIs(h, b, Told(g.nodes[b], e));
  }

  lemma RemoveAt(g: System, c: Uuid, x: Uuid)
    requires Ok(g) && Enabled(g, Remove(c)) && x in g.nodes
    requires x in g.members - {c} ==> c !in AsPeer(g.nodes[x]).exits
    ensures var m, p := Next(g, Remove(c)).nodes[x], AsPeer(g.nodes[x]);
      NodeOk(m) && AsPeer(m) == if x in g.members - {c} then p.(exits := p.exits + {c}) else p
  {
    if x in g.members - {c} {
      ToldIs(g.nodes[x], Exit(c));
      assert Collect([Exit(c)], AsSighting) == [];
    }
  }

  /** No departure is announced to a client that has not handled an earlier one of the same client. */
  lemma RemoveSimulated(g: System, c: Uuid)
    requires Ok(g) && Enabled(g, Remove(c)) && R.Scoped(AsSystem(g))
    ensures Simulated(g, Remove(c))
  {
    var s, t := AsSystem(g), Next(g, Remove(c));
    forall x | x in g.nodes
      ensures NodeOk(t.nodes[x])
      ensures AsPeer(t.nodes[x]) == if x in g.members - {c} then s.peers[x].(exits := s.peers[x].exits + {c}) else s.peers[x]
    {
      assert s.peers[x] == AsPeer(g.nodes[x]);
      RemoveAt(g, c, x);
    }
    RemovedIs(g, c);
  }

  lemma RemovedIs(g: System, c: Uuid)
    requires Enabled(g, Remove(c))
    requires var s, t := AsSystem(g), Next(g, Remove(c)); forall x :: x in g.nodes ==>
      AsPeer(t.nodes[x]) == if x in g.members - {c} then s.peers[x].(exits := s.peers[x].exits + {c}) else s.peers[x]
    ensures R.Enabled(AsSystem(g), R.Remove(c)) && AsSystem(Next(g, Remove(c))) == R.Next(AsSystem(g), R.Remove(c))
  {
    assert AsSystem(Next(g, Remove(c))).peers == R.Next(AsSystem(g), R.Remove(c)).peers;
  }

  /** Every step of the program is at most one step of the protocol. */
  lemma StepSimulated(g: System, step: Step)
    requires Ok(g) && Enabled(g, step) && R.Scoped(AsSystem(g))
    ensures Simulated(g, step)
  {
    match step
    case Connect(c, color, view) => ConnectSimulated(g, c, color, view);
    case Add(_) =>
    case Route(c) => RouteSimulated(g, c);
    case Deliver(c, b) => DeliverSimulated(g, c, b);
    case Remove(c) => RemoveSimulated(g, c);
    case Paint(c, color) => PaintSimulated(g, c, color);
    case Look(c) => LookSimulated(g, c);
    case Listen(c) => ListenSimulated(g, c);
    case Steers(c, keys) => SteersSimulated(g, c, keys);
    case Speak(c) => SpeakSimulated(g, c);
    case Thin(c) => ThinSimulated(g, c);
    case Sort(c) => SortSimulated(g, c);
    case Write(c) => WriteSimulated(g, c);
    case Tell(b, e) => TellSimulated(g, b, e);
    case Alarm(c) => AlarmSimulated(g, c);
    case Begin(c) => BeginSimulated(g, c);
    case Reach(c, b) => ReachSimulated(g, c, b);
    case Finish(c) => FinishSimulated(g, c);
  }

  ghost predicate Mirrored(g: System) {
    Ok(g) && R.Reachable(AsSystem(g))
  }

  lemma MirroredStep(g: System, step: Step)
    requires Mirrored(g) && Enabled(g, step)
    ensures Mirrored(Next(g, step))
  {
    R.ReachableInv(AsSystem(g));
    StepSimulated(g, step);
    if Image(g, step) != [] { R.ReachableStep(AsSystem(g), Image(g, step)[0]); }
  }

  /** Every state the program can reach is a state the protocol can reach. */
  lemma ProgramIsProtocol(g: System)
    requires Reachable(g)
    ensures Ok(g) && R.Reachable(AsSystem(g))
  {
    forall g, step | Mirrored(g) && PROGRAM.CanStep(g, step) ensures Mirrored(PROGRAM.next(g, step)) {
      MirroredStep(g, step);
    }
    assert AsSystem(INIT) == R.INIT;
    assert R.CanRun(R.INIT, []) && R.Outcome(R.INIT, []) == R.INIT;
    PROGRAM.ReachableInv(Mirrored, g);
  }

  // Whole frames and what the players see ----------------------------------------------------------

  /** One whole frame of c. */
  function FrameSteps(c: Uuid, keys: Keys): seq<Step> {
    [Look(c), Listen(c), Steers(c, keys), Speak(c), Thin(c)]
  }

  /** What one part of a frame does to the view. */
  function PartOf(v: View, c: Uuid, color: Color, step: Step): View {
    match step
    case Look(_) => ShowPosition(v)
    case Listen(_) => ShowGui(v, c)
    case Steers(_, keys) => Drive(v, keys)
    case Speak(_) => Announce(v, Identity(c, color, true), true)
    case Thin(_) => Batch(v)
    case _ => v
  }

  lemma PartRuns(g: System, c: Uuid, step: Step)
    requires c in g.nodes && (step.Look? || step.Listen? || step.Steers? || step.Speak? || step.Thin?) && step.c == c
    ensures Enabled(g, step)
    ensures Next(g, step).nodes == g.nodes[c := g.nodes[c].(view := PartOf(g.nodes[c].view, c, g.nodes[c].color, step))]
  {
    var n := g.nodes[c];
    if step.Look? && n.view.positions == [] { assert g.nodes == g.nodes[c := n.(view := n.view)]; }
  }

  lemma {:induction false} PartsRun(g: System, c: Uuid, steps: seq<Step>)
    requires c in g.nodes
    requires forall i :: 0 <= i < |steps| ==>
      var step := steps[i]; (step.Look? || step.Listen? || step.Steers? || step.Speak? || step.Thin?) && step.c == c
    ensures PROGRAM.CanRun(g, steps)
    ensures PROGRAM.Outcome(g, steps).nodes == g.nodes[c := g.nodes[c].(view := Parts(g.nodes[c].view, c, g.nodes[c].color, steps))]
    decreases |steps|
  {
    if steps == [] {
      assert g.nodes == g.nodes[c := g.nodes[c]];
    } else {
      PartRuns(g, c, steps[0]);
      PartsRun(Next(g, steps[0]), c, steps[1..]);
    }
  }

  function Parts(v: View, c: Uuid, color: Color, steps: seq<Step>): View
    decreases |steps|
  {
    if steps == [] then v else Parts(PartOf(v, c, color, steps[0]), c, color, steps[1..])
  }

  /** A frame, undisturbed, is what FrameOf says and changes no other client. */
  lemma FrameRuns(g: System, c: Uuid, keys: Keys)
    requires c in g.nodes
    ensures PROGRAM.CanRun(g, FrameSteps(c, keys))
    ensures PROGRAM.Outcome(g, FrameSteps(c, keys)).nodes ==
      PutView(g, c, FrameOf(g.nodes[c].view, Identity(c, g.nodes[c].color, true), Input(keys, true))).nodes
  {
    PartsRun(g, c, FrameSteps(c, keys));
    FrameIsParts(g.nodes[c].view, c, g.nodes[c].color, keys);
  }

  lemma FrameIsParts(v: View, c: Uuid, color: Color, keys: Keys)
    ensures Parts(v, c, color, FrameSteps(c, keys)) == FrameOf(v, Identity(c, color, true), Input(keys, true))
  {
    var rest1: seq<Step> := [Listen(c), Steers(c, keys), Speak(c), Thin(c)];
    var rest2: seq<Step> := [Steers(c, keys), Speak(c), Thin(c)];
    var rest3: seq<Step> := [Speak(c), Thin(c)];
    PartsStep(v, c, color, Look(c), rest1);
    PartsStep(ShowPosition(v), c, color, Listen(c), rest2);
    PartsStep(ShowGui(ShowPosition(v), c), c, color, Steers(c, keys), rest3);
    PartsStep(Drive(ShowGui(ShowPosition(v), c), keys), c, color, Speak(c), [Thin(c)]);
  }

  lemma PartsStep(v: View, c: Uuid, color: Color, step: Step, rest: seq<Step>)
    ensures Parts(v, c, color, [step] + rest) == Parts(PartOf(v, c, color, step), c, color, rest)
  {
    assert ([step] + rest)[1..] == rest;
  }

  /** Nothing of a's is on its way to the server, in the server, or waiting at b. */
  predicate Settled(g: System, a: Uuid, b: Uuid) {
    && a in g.nodes && b in g.nodes
    && !g.nodes[a].view.move && Collect(g.nodes[a].view.outbox, AsCar) == [] && g.nodes[a].up == []
    && g.nodes[a].handler.Idle?
    && NoneFrom(g.nodes[b].view.positions, a) && NoneFrom(g.nodes[b].down, a)
  }

  predicate NoneFrom(q: seq<Event>, a: Uuid) {
    forall i :: 0 <= i < |q| && AsSighting(q[i]).Some? ==> AsSighting(q[i]).value.who != a
  }

  lemma {:induction false} NoneFound(q: seq<Event>, a: Uuid)
    requires NoneFrom(q, a)
    ensures !R.Mentions(Collect(q, AsSighting), a)
  {
    if q != [] {
      NoneFound(q[1..], a);
      assert AsSighting(q[0]).Some? ==> AsSighting(q[0]).value.who != a;
    }
  }

  lemma SettledIs(g: System, a: Uuid, b: Uuid)
    requires Settled(g, a, b)
    ensures R.Settled(AsSystem(g), a, b)
  {
    var r := g.nodes[b];
    NoneFound(r.view.positions, a);
    NoneFound(r.down, a);
    assert AsPeer(r).downlink == Collect(r.view.positions, AsSighting) + Collect(r.down, AsSighting);
  }

  /** Convergence on the players' screens: in every state the program can reach, as soon as nothing of
      a's is in flight towards b and nothing of b's towards a, and no batch pass has spoiled the pair,
      b's map has a exactly where a's own car is. */
  lemma ScreensAgree(g: System, a: Uuid, b: Uuid)
    requires Reachable(g) && a in g.members && b in g.members && a != b && (a, b) !in g.spoiled
    requires Settled(g, a, b) && Settled(g, b, a)
    ensures a in g.nodes[b].view.players && g.nodes[b].view.players[a].at == g.nodes[a].view.at
  {
    ProgramIsProtocol(g);
    SettledIs(g, a, b);
    SettledIs(g, b, a);
    R.PairConverges(AsSystem(g), a, b);
  }

  // The queues between the server and the frames ---------------------------------------------------

  /** What the server tells a client arrives behind everything it was told before: a message at the one
      addressed, a delivered position at the receiver, a departure at every remaining member. */
  lemma ToldLast(g: System, step: Step, x: Uuid)
    requires Enabled(g, step) && (step.Tell? || step.Deliver? || step.Remove?) && x in g.nodes
    ensures var n, m := g.nodes[x], Next(g, step).nodes[x];
      && m.view == n.view && m.up == n.up
      && match step
         case Tell(b, e) => m.down == (if x == b then n.down + [e] else n.down)
         case Deliver(a, b) => m.down == (if x == b then n.down + [Position(a, g.nodes[a].handler.msg)] else n.down)
         case Remove(a) => m.down == (if x in g.members && x != a then n.down + [Exit(a)] else n.down)
         case _ => false
    ensures step.Remove? ==> Next(g, step).members == g.members - {step.c}
  {
  }

  /** The client once the k oldest messages have gone, in order, each to its own queue and those without
      a readable type nowhere. */
  function Relayed(n: Node, k: nat): Node
    requires k <= |n.down|
  {
    n.(down := n.down[k..], view := n.view.(
      positions := n.view.positions + Relay.OnLane(Relay.Positions, n.down[..k]),
      guis := n.view.guis + Relay.OnLane(Relay.Gui, n.down[..k])))
  }

  lemma RelayedNone(n: Node)
    ensures Relayed(n, 0) == n
  {
  }

  lemma RelayedOn(n: Node, k: nat)
    requires 0 < k <= |n.down|
    ensures Relayed(Relayed(n, 1), k - 1) == Relayed(n, k)
  {
    var first, rest := n.down[..1], n.down[1..][..k - 1];
    assert n.down[..k] == first + rest && n.down[1..][k - 1..] == n.down[k..];
    Relay.OnLaneAppend(Relay.Positions, first, rest);
    Relay.OnLaneAppend(Relay.Gui, first, rest);
    Regroup(n.view.positions, Relay.OnLane(Relay.Positions, first), Relay.OnLane(Relay.Positions, rest));
    Regroup(n.view.guis, Relay.OnLane(Relay.Gui, first), Relay.OnLane(Relay.Gui, rest));
  }

  lemma SortsOne(g: System, c: Uuid)
    requires Enabled(g, Sort(c))
    ensures Next(g, Sort(c)) == Put(g, c, Relayed(g.nodes[c], 1))
  {
    var n := g.nodes[c];
    assert n.down[..1] == [n.down[0]];
    LaneOfOne(Relay.Positions, n.down[0]);
    LaneOfOne(Relay.Gui, n.down[0]);
    assert n.view.positions + [] == n.view.positions && n.view.guis + [] == n.view.guis;
  }

  /** k rounds of the relay, and nothing else changes. */
  lemma {:induction false} SortRuns(g: System, c: Uuid, k: nat)
    requires c in g.nodes && k <= |g.nodes[c].down|
    ensures PROGRAM.CanRun(g, seq(k, _ => Sort(c)))
    ensures PROGRAM.Outcome(g, seq(k, _ => Sort(c))) == Put(g, c, Relayed(g.nodes[c], k))
    decreases k
  {
    var n := g.nodes[c];
    if k == 0 {
      RelayedNone(n);
      assert g.nodes[c := n] == g.nodes;
    } else {
      var steps: seq<Step> := seq(k, _ => Sort(c));
      SortsOne(g, c);
      RelayedOn(n, k);
      assert steps[1..] == seq(k - 1, _ => Sort(c)) && steps[0] == Sort(c);
      SortRuns(Put(g, c, Relayed(n, 1)), c, k - 1);
      TwicePut(g, c, Relayed(n, 1), Relayed(n, k));
    }
  }

  lemma TwicePut(g: System, c: Uuid, n: Node, m: Node)
    ensures Put(Put(g, c, n), c, m) == Put(g, c, m)
  {
  }

  /** What one step adds to what c is told. */
  function ToldBy(g: System, step: Step, c: Uuid): seq<Event>
    requires Enabled(g, step)
  {
    match step
    case Tell(b, e) => if b == c then [e] else []
    case Deliver(a, b) => if b == c then [Position(a, g.nodes[a].handler.msg)] else []
    case Remove(a) => if c in g.members && c != a then [Exit(a)] else []
    case _ => []
  }

  /** What leaves c's queue in one step: handled by a frame, or dropped by its batch pass. */
  function LeftBy(g: System, step: Step, c: Uuid, lane: Relay.Lane): seq<Event>
    requires c in g.nodes
  {
    var v := g.nodes[c].view;
    match step
    case Look(b) => if b == c && lane == Relay.Positions && v.positions != [] then [v.positions[0]] else []
    case Thin(b) => if b == c && lane == Relay.Positions && v.handleBatch && |v.positions| > 2 then v.positions[..|v.positions| / 2] else []
    case Listen(b) => if b == c && lane == Relay.Gui && |v.positions| <= 2 && v.guis != [] then [v.guis[0]] else []
    case _ => []
  }

  function QueueOf(v: View, lane: Relay.Lane): seq<Event> {
    match lane case Positions => v.positions case Gui => v.guis case Discarded => []
  }

  /** What waits for c's frames on that lane, in c's queue or still unsorted. */
  function Waiting(n: Node, lane: Relay.Lane): seq<Event> {
    QueueOf(n.view, lane) + Relay.OnLane(lane, n.down)
  }

  lemma OneThenRest(lane: Relay.Lane, q: seq<Event>)
    requires q != []
    ensures Relay.OnLane(lane, q) == Relay.OnLane(lane, q[..1]) + Relay.OnLane(lane, q[1..])
  {
    assert q == q[..1] + q[1..];
    Relay.OnLaneAppend(lane, q[..1], q[1..]);
  }

  lemma WaitingAfterSorting(n: Node, lane: Relay.Lane)
    requires n.down != [] && lane != Relay.Discarded
    ensures Waiting(Relayed(n, 1), lane) == Waiting(n, lane)
  {
    OneThenRest(lane, n.down);
    Regroup(QueueOf(n.view, lane), Relay.OnLane(lane, n.down[..1]), Relay.OnLane(lane, n.down[1..]));
  }

  lemma WaitingAfter(n: Node, m: Node, told: seq<Event>, lane: Relay.Lane)
    requires m.view == n.view && m.down == n.down + told
    ensures Waiting(m, lane) == Waiting(n, lane) + Relay.OnLane(lane, told)
  {
    Relay.OnLaneAppend(lane, n.down, told);
    Regroup(QueueOf(n.view, lane), Relay.OnLane(lane, n.down), Relay.OnLane(lane, told));
  }

  lemma ToldIsAppended(g: System, step: Step, c: Uuid)
    requires Enabled(g, step) && (step.Tell? || step.Deliver? || step.Remove?) && c in g.nodes
    ensures c in Next(g, step).nodes && Next(g, step).nodes[c].view == g.nodes[c].view
    ensures Next(g, step).nodes[c].down == g.nodes[c].down + ToldBy(g, step, c)
  {
    ToldLast(g, step, c);
    assert g.nodes[c].down + [] == g.nodes[c].down;
  }

  lemma TellingConserves(g: System, step: Step, c: Uuid, lane: Relay.Lane)
    requires Enabled(g, step) && c in g.nodes && (step.Tell? || step.Deliver? || step.Remove?)
    ensures c in Next(g, step).nodes
    ensures Waiting(Next(g, step).nodes[c], lane) == Waiting(g.nodes[c], lane) + Relay.OnLane(lane, ToldBy(g, step, c))
  {
    ToldIsAppended(g, step, c);
    WaitingAfter(g.nodes[c], Next(g, step).nodes[c], ToldBy(g, step, c), lane);
  }

  lemma NothingElse<T>(q: seq<T>)
    ensures [] + q == q && q + [] == q
  {
  }

  /** A part of a frame takes what it takes from the front of each queue. */
  lemma LooksAtFront(g: System, c: Uuid, lane: Relay.Lane)
    requires c in g.nodes
    ensures LeftBy(g, Look(c), c, lane) + QueueOf(ShowPosition(g.nodes[c].view), lane) == QueueOf(g.nodes[c].view, lane)
  {
    var v := g.nodes[c].view;
    if v.positions != [] { assert [v.positions[0]] + v.positions[1..] == v.positions; }
    assert [] + QueueOf(v, lane) == QueueOf(v, lane);
  }

  lemma ThinsAtFront(g: System, c: Uuid, lane: Relay.Lane)
    requires c in g.nodes
    ensures LeftBy(g, Thin(c), c, lane) + QueueOf(Batch(g.nodes[c].view), lane) == QueueOf(g.nodes[c].view, lane)
  {
    var v := g.nodes[c].view;
    assert v.positions[..|v.positions| / 2] + v.positions[|v.positions| / 2..] == v.positions;
    assert [] + QueueOf(v, lane) == QueueOf(v, lane);
  }

  lemma ListensAtFront(g: System, c: Uuid, lane: Relay.Lane)
    requires c in g.nodes
    ensures LeftBy(g, Listen(c), c, lane) + QueueOf(ShowGui(g.nodes[c].view, c), lane) == QueueOf(g.nodes[c].view, lane)
  {
    var v := g.nodes[c].view;
    if v.guis != [] {
      GuiEffectFields(v, c, v.guis[0], R.Peer(v.at, "", v.move, v.players, [], Idle, [], {}));
    }
  }

  lemma FrameConserves(g: System, step: Step, c: Uuid, lane: Relay.Lane)
    requires (step.Look? || step.Listen? || step.Steers? || step.Speak? || step.Thin?) && step.c == c && c in g.nodes
    ensures LeftBy(g, step, c, lane) + Waiting(Next(g, step).nodes[c], lane) == Waiting(g.nodes[c], lane)
  {
    var n := g.nodes[c];
    var w := PartOf(n.view, c, n.color, step);
    PartRuns(g, c, step);
    LooksAtFront(g, c, lane);
    ThinsAtFront(g, c, lane);
    ListensAtFront(g, c, lane);
    assert LeftBy(g, step, c, lane) + QueueOf(w, lane) == QueueOf(n.view, lane);
    Regroup(LeftBy(g, step, c, lane), QueueOf(w, lane), Relay.OnLane(lane, n.down));
  }

  /** Every other step leaves c's queues alone. */
  lemma OthersConserve(g: System, step: Step, c: Uuid, lane: Relay.Lane)
    requires Enabled(g, step) && c in g.nodes && !step.Tell? && !step.Deliver? && !step.Remove?
    requires (step.Sort? || step.Look? || step.Listen? || step.Steers? || step.Speak? || step.Thin?) ==> step.c != c
    ensures c in Next(g, step).nodes && Waiting(Next(g, step).nodes[c], lane) == Waiting(g.nodes[c], lane)
    ensures LeftBy(g, step, c, lane) == [] && ToldBy(g, step, c) == []
  {
  }

  /** What leaves, followed by what waits afterwards, is what waited before followed by what was told. */
  ghost predicate Conserves(g: System, step: Step, c: Uuid, lane: Relay.Lane)
    requires Enabled(g, step) && c in g.nodes
  {
    c in Next(g, step).nodes &&
    LeftBy(g, step, c, lane) + Waiting(Next(g, step).nodes[c], lane) == Waiting(g.nodes[c], lane) + Relay.OnLane(lane, ToldBy(g, step, c))
  }

  lemma TellConserves(g: System, step: Step, c: Uuid, lane: Relay.Lane)
    requires Enabled(g, step) && c in g.nodes && (step.Tell? || step.Deliver? || step.Remove?)
    ensures Conserves(g, step, c, lane)
  {
    TellingConserves(g, step, c, lane);
    NothingElse(Waiting(Next(g, step).nodes[c], lane));
    assert LeftBy(g, step, c, lane) == [];
  }

  lemma PartConserves(g: System, step: Step, c: Uuid, lane: Relay.Lane)
    requires (step.Look? || step.Listen? || step.Steers? || step.Speak? || step.Thin?) && step.c == c && c in g.nodes
    ensures Enabled(g, step) && Conserves(g, step, c, lane)
  {
    FrameConserves(g, step, c, lane);
    PartRuns(g, c, step);
    NothingElse(Waiting(g.nodes[c], lane));
    assert Relay.OnLane(lane, ToldBy(g, step, c)) == [];
  }

  lemma SortConserves(g: System, c: Uuid, lane: Relay.Lane)
    requires Enabled(g, Sort(c)) && lane != Relay.Discarded
    ensures Conserves(g, Sort(c), c, lane)
  {
    SortsOne(g, c);
    WaitingAfterSorting(g.nodes[c], lane);
    NothingElse(Waiting(g.nodes[c], lane));
  }

  lemma RestConserves(g: System, step: Step, c: Uuid, lane: Relay.Lane)
    requires Enabled(g, step) && c in g.nodes && !step.Tell? && !step.Deliver? && !step.Remove?
    requires (step.Sort? || step.Look? || step.Listen? || step.Steers? || step.Speak? || step.Thin?) ==> step.c != c
    ensures Conserves(g, step, c, lane)
  {
    OthersConserve(g, step, c, lane);
    NothingElse(Waiting(g.nodes[c], lane));
  }

  /** Every message told to c is handled, dropped by the batch pass, or still waiting, each lane in the
      order it was told. */
  lemma StepConserves(g: System, step: Step, c: Uuid, lane: Relay.Lane)
    requires Enabled(g, step) && c in g.nodes && lane != Relay.Discarded
    ensures Conserves(g, step, c, lane)
  {
    match step
    case Tell(_, _) => TellConserves(g, step, c, lane);
    case Deliver(_, _) => TellConserves(g, step, c, lane);
    case Remove(_) => TellConserves(g, step, c, lane);
    case Sort(b) => if b == c { SortConserves(g, c, lane); } else { RestConserves(g, step, c, lane); }
    case Look(b) => if b == c { PartConserves(g, step, c, lane); } else { RestConserves(g, step, c, lane); }
    case Listen(b) => if b == c { PartConserves(g, step, c, lane); } else { RestConserves(g, step, c, lane); }
    case Steers(b, _) => if b == c { PartConserves(g, step, c, lane); } else { RestConserves(g, step, c, lane); }
    case Speak(b) => if b == c { PartConserves(g, step, c, lane); } else { RestConserves(g, step, c, lane); }
    case Thin(b) => if b == c { PartConserves(g, step, c, lane); } else { RestConserves(g, step, c, lane); }
    case _ => RestConserves(g, step, c, lane);
  }

  ghost function ToldAlong(g: System, steps: seq<Step>, c: Uuid): seq<Event>
    requires PROGRAM.CanRun(g, steps)
    decreases |steps|
  {
    if steps == [] then [] else ToldBy(g, steps[0], c) + ToldAlong(Next(g, steps[0]), steps[1..], c)
  }

  ghost function LeftAlong(g: System, steps: seq<Step>, c: Uuid, lane: Relay.Lane): seq<Event>
    requires PROGRAM.CanRun(g, steps)
    decreases |steps|
  {
    if steps == [] then []
    else (if c in g.nodes then LeftBy(g, steps[0], c, lane) else []) + LeftAlong(Next(g, steps[0]), steps[1..], c, lane)
  }

  /** Over any run of the program, whatever the interleaving: what has left a client's queue, followed by
      what still waits for it, is what waited at the start followed by that lane of everything the client
      was told since. */
  lemma {:induction false} QueuesConserve(g: System, steps: seq<Step>, c: Uuid, lane: Relay.Lane)
    requires PROGRAM.CanRun(g, steps) && c in g.nodes && lane != Relay.Discarded
    ensures c in PROGRAM.Outcome(g, steps).nodes
    ensures LeftAlong(g, steps, c, lane) + Waiting(PROGRAM.Outcome(g, steps).nodes[c], lane)
         == Waiting(g.nodes[c], lane) + Relay.OnLane(lane, ToldAlong(g, steps, c))
    decreases |steps|
  {
    if steps != [] {
      var next, rest := Next(g, steps[0]), steps[1..];
      StepConserves(g, steps[0], c, lane);
      QueuesConserve(next, rest, c, lane);
      Relay.OnLaneAppend(lane, ToldBy(g, steps[0], c), ToldAlong(next, rest, c));
      Chained(LeftBy(g, steps[0], c, lane), LeftAlong(next, rest, c, lane), Waiting(PROGRAM.Outcome(g, steps).nodes[c], lane),
              Waiting(next.nodes[c], lane), Waiting(g.nodes[c], lane),
              Relay.OnLane(lane, ToldBy(g, steps[0], c)), Relay.OnLane(lane, ToldAlong(next, rest, c)));
    }
  }

  lemma Chained<T>(left: seq<T>, more: seq<T>, after: seq<T>, mid: seq<T>, before: seq<T>, told: seq<T>, toldMore: seq<T>)
    requires left + mid == before + told && more + after == mid + toldMore
    ensures (left + more) + after == before + (told + toldMore)
  {
    assert (left + more) + after == left + (mid + toldMore) == (before + told) + toldMore;
  }

  /** The client once the k oldest entries of its write queue, all positions, are on the socket. */
  function Sent(n: Node, k: nat): Node
    requires k <= |n.view.outbox| && forall i :: 0 <= i < k ==> n.view.outbox[i].PositionOut?
  {
    var out := n.view.outbox;
    n.(view := n.view.(outbox := out[k..]), up := n.up + seq(k, i requires 0 <= i < k => Car(out[i].at, out[i].color)))
  }

  lemma SentOn(n: Node, k: nat)
    requires 0 < k <= |n.view.outbox| && forall i :: 0 <= i < k ==> n.view.outbox[i].PositionOut?
    ensures Sent(Sent(n, 1), k - 1) == Sent(n, k)
  {
    var out := n.view.outbox;
    assert out[1..][k - 1..] == out[k..];
    assert Sent(Sent(n, 1), k - 1).up == Sent(n, k).up;
  }

  lemma WritesOne(g: System, c: Uuid)
    requires c in g.nodes && g.nodes[c].view.outbox != [] && g.nodes[c].view.outbox[0].PositionOut?
    ensures Next(g, Write(c)) == Put(g, c, Sent(g.nodes[c], 1))
  {
    var out := g.nodes[c].view.outbox;
    assert Collect([out[0]], AsCar) == [Car(out[0].at, out[0].color)] == seq(1, i requires 0 <= i < 1 => Car(out[i].at, out[i].color));
  }

  /** k writes put the k oldest positions on the socket, in order, and change nothing else. */
  lemma {:induction false} WriteRuns(g: System, c: Uuid, k: nat)
    requires c in g.nodes && k <= |g.nodes[c].view.outbox|
    requires forall i :: 0 <= i < k ==> g.nodes[c].view.outbox[i].PositionOut?
    ensures PROGRAM.CanRun(g, seq(k, _ => Write(c)))
    ensures PROGRAM.Outcome(g, seq(k, _ => Write(c))) == Put(g, c, Sent(g.nodes[c], k))
    decreases k
  {
    var n := g.nodes[c];
    if k == 0 {
      assert Sent(n, 0) == n && g.nodes[c := n] == g.nodes;
    } else {
      var steps: seq<Step> := seq(k, _ => Write(c));
      WritesOne(g, c);
      SentOn(n, k);
      assert steps[1..] == seq(k - 1, _ => Write(c)) && steps[0] == Write(c);
      WriteRuns(Put(g, c, Sent(n, 1)), c, k - 1);
      TwicePut(g, c, Sent(n, 1), Sent(n, k));
    }
  }

  /** The alarm lets the next batch pass over more than two positions drop the older half of them, and
      only that one. */
  lemma AlarmThins(g: System, c: Uuid)
    requires c in g.nodes && |g.nodes[c].view.positions| > 2
    ensures PROGRAM.CanRun(g, [Alarm(c), Thin(c)])
    ensures var v := g.nodes[c].view;
      PROGRAM.Outcome(g, [Alarm(c), Thin(c)]).nodes
        == PutView(g, c, v.(positions := v.positions[|v.positions| / 2..], handleBatch := false)).nodes
  {
    var next := Next(g, Alarm(c));
    PROGRAM.RunOne(next, Thin(c));
    PROGRAM.Prepend(g, Alarm(c), [Thin(c)]);
    assert [Alarm(c)] + [Thin(c)] == [Alarm(c), Thin(c)];
  }
}
