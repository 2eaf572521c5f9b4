/** The replication and discovery protocol as one transition system: every client's car, `move`
    flag, player map and uplink, every server-side handler, and every downlink. The main result is
    convergence: once nothing concerning a pair of members is in flight, each shows the other where
    it really is. */
module Replication {
  import opened Events
  import opened Broadcast
  import opened Runs

  datatype Sighting = Sighting(who: Uuid, car: Car)

  /** `uplink` is everything between sendPosition and the server's router (write queue and socket);
      `downlink` is every position between a server send and the frame loop (socket, receive queue
      and position queue); `exits` are exit notices not yet handled, in no particular order. */
  datatype Peer = Peer(
    at: Coord,
    color: Color,
    move: bool,
    players: Players,
    uplink: seq<Car>,
    handler: Loop<Car>,
    downlink: seq<Sighting>,
    exits: set<Uuid>)

  /** `awaiting`: upgraded but not yet in the server's client map. `serving`: the goroutines of the
      client run, which they do only after its arrival has been announced to everybody. A client
      that left stays in `peers`, and whatever it still has in flight may still arrive.
      `spoiled` keeps account of batch passes: (a, b) is in it if a pass at a or b cost b the news
      of where a is, or a the news of b, and a has not moved or met anyone since. */
  datatype System = System(
    peers: map<Uuid, Peer>,
    members: set<Uuid>,
    awaiting: set<Uuid>,
    serving: set<Uuid>,
    spoiled: set<(Uuid, Uuid)>)

  const INIT := System(map[], {}, {}, {}, {})

  datatype Step =
    | Connect(c: Uuid, color: Color)     // handshake done: the client runs, the server has not added it
    | Add(c: Uuid)                       // addClient
    | Begin(c: Uuid)                     // a handler starts ranging over the client map
    | Reach(c: Uuid, b: Uuid)            // the loop comes to b and starts sending on its channel
    | Deliver(c: Uuid, b: Uuid)          // b's write goroutine takes the message
    | Finish(c: Uuid)                    // the loop ends; the read goroutine starts or goes on
    | Route(c: Uuid)                     // the read goroutine takes the next position message
    | Press(c: Uuid, keys: Keys)         // the arrow keys of a frame
    | Send(c: Uuid)                      // sendPosition, and `move` is cleared
    | Handle(b: Uuid)                    // a frame handles the oldest position
    | Remove(c: Uuid)                    // removeClient and its exit broadcast
    | HandleExit(b: Uuid, c: Uuid)
    | Paint(c: Uuid, color: Color)       // a client changes its own colour
    | Repainted(b: Uuid, c: Uuid, color: Color) // a colour event is handled
    | Drop(b: Uuid, k: nat)              // a batch pass drops the k oldest positions

  predicate Mentions(q: seq<Sighting>, a: Uuid) {
    exists i :: 0 <= i < |q| && q[i].who == a
  }

  /** A batch pass over a position queue of n > 2 entries drops n / 2 of them; the queue is the
      front part of the downlink. */
  predicate PassDrops(q: seq<Sighting>, k: nat) {
    exists n :: MAX_BATCHED_POSITIONS_THRESHOLD < n <= |q| && k == n / 2
  }

  /** The players whose only news in r's queue is among its k oldest entries and is not what r
      shows already. */
  function Harmed(r: Peer, k: nat): set<Uuid>
    requires k <= |r.downlink|
  {
    set i | 0 <= i < k && Misplaced(r, k, r.downlink[i].who) :: r.downlink[i].who
  }

  predicate Misplaced(r: Peer, k: nat, a: Uuid)
    requires k <= |r.downlink|
  {
    !Mentions(r.downlink[k..], a) && !(a in r.players && LastFrom(r.downlink, a) == Some(r.players[a].at))
  }

  /** The newest position of a in q. */
  function LastFrom(q: seq<Sighting>, a: Uuid): Option<Coord> {
    if q == [] then None
    else if q[|q| - 1].who == a then Some(q[|q| - 1].car.at)
    else LastFrom(q[..|q| - 1], a)
  }

  predicate Enabled(s: System, step: Step) {
    match step
    case Connect(c, _) => c !in s.peers
    case Add(c) => c in s.awaiting && c in s.peers
    case Begin(c) => c in s.peers && c !in s.awaiting && s.peers[c].handler.Queued?
    case Reach(c, b) => c in s.peers && CanReach(s.peers[c].handler, PeersOf(c), s.members, b)
    case Deliver(c, b) => c in s.peers && b in s.peers && c != b && SendingTo(s.peers[c].handler, b) && b in s.serving
    case Finish(c) => c in s.peers && CanFinish(s.peers[c].handler, PeersOf(c), s.members)
    case Route(c) => c in s.peers && s.peers[c].handler.Idle? && s.peers[c].uplink != []
    case Press(c, _) => c in s.peers
    case Send(c) => c in s.peers && s.peers[c].move
    case Handle(b) => b in s.peers && s.peers[b].downlink != []
    case Remove(c) => c in s.members && c in s.serving
    case HandleExit(b, c) => b in s.peers && c in s.peers[b].exits
    case Paint(c, _) => c in s.peers
    case Repainted(b, c, _) => b in s.peers
    case Drop(b, k) => b in s.peers && PassDrops(s.peers[b].downlink, k)
  }

  function Put(s: System, c: Uuid, p: Peer): System {
    s.(peers := s.peers[c := p])
  }

  function Next(s: System, step: Step): System
    requires Enabled(s, step)
  {
    match step
    case Connect(c, color) =>
      var p := Peer(ORIGIN, color, false, map[], [], Queued(Car(ORIGIN, color)), [], {});
      Put(s, c, p).(awaiting := s.awaiting + {c})
    case Add(c) =>
      s.(members := s.members + {c}, awaiting := s.awaiting - {c})
    case Begin(c) =>
      var p := s.peers[c];
      Put(s, c, p.(handler := Begun(p.handler, s.members)))
    case Reach(c, b) =>
      var p := s.peers[c];
      Put(s, c, p.(handler := Reached(p.handler, b)))
    case Deliver(c, b) =>
      var p, r := s.peers[c], s.peers[b];
      Put(Put(s, c, p.(handler := Delivered(p.handler, b))),
          b, r.(downlink := r.downlink + [Sighting(c, p.handler.msg)]))
    case Finish(c) =>
      Put(s, c, s.peers[c].(handler := Idle)).(serving := s.serving + {c})
    case Route(c) =>
      var p := s.peers[c];
      Put(s, c, p.(uplink := p.uplink[1..], handler := Queued(p.uplink[0])))
    case Press(c, keys) =>
      var p := s.peers[c];
      var (to, moved) := Steer(p.at, keys);
      Raise(Put(s, c, p.(at := to, move := p.move || moved)), c)
    case Send(c) =>
      var p := s.peers[c];
      Put(s, c, p.(uplink := p.uplink + [Car(p.at, p.color)], move := false))
    case Handle(b) =>
      Raise(Put(s, b, HandleOldest(s.peers[b])), b)
    case Remove(c) =>
      var left := s.members - {c};
      s.(peers := map x | x in s.peers ::
           if x in left then s.peers[x].(exits := s.peers[x].exits + {c}) else s.peers[x],
         members := left)
    case HandleExit(b, c) =>
      var p := s.peers[b];
      Put(s, b, p.(players := Forget(p.players, c), exits := p.exits - {c}))
    case Paint(c, color) =>
      Put(s, c, s.peers[c].(color := color))
    case Repainted(b, c, color) =>
      var p := s.peers[b];
      Put(s, b, p.(players := Repaint(p.players, c, color)))
    case Drop(b, k) =>
      var p := s.peers[b];
      Put(s, b, p.(downlink := p.downlink[k..])).(spoiled := s.spoiled + Spoils(b, p, k))
  }

  /** A raised move flag announces c to everybody, so nobody is left with an old position of c. */
  function Raise(s: System, c: Uuid): System
    requires c in s.peers
  {
    if s.peers[c].move then s.(spoiled := set pair | pair in s.spoiled && pair.0 != c) else s
  }

  function Spoils(b: Uuid, p: Peer, k: nat): set<(Uuid, Uuid)>
    requires k <= |p.downlink|
  {
    (set a | a in Harmed(p, k) :: (a, b)) + (set a | a in Harmed(p, k) && a !in p.players :: (b, a))
  }

  /** Handling a position: record it, and answer a first sighting with our own position. */
  function HandleOldest(p: Peer): Peer
    requires p.downlink != []
  {
    var m := p.downlink[0];
    p.(players := Sight(p.players, m.who, m.car),
       move := p.move || m.who !in p.players,
       downlink := p.downlink[1..])
  }

  ghost const PROTOCOL := Machine(INIT, Enabled, Next)

  /** A run of the protocol from s, given by its steps. */
  ghost predicate CanRun(s: System, steps: seq<Step>) { PROTOCOL.CanRun(s, steps) }

  ghost function Outcome(s: System, steps: seq<Step>): System
    requires CanRun(s, steps)
  {
    PROTOCOL.Outcome(s, steps)
  }

  ghost predicate Reachable(s: System) { PROTOCOL.Reachable(s) }

  // Quiescence and agreement --------------------------------------------------------------------

  /** Nothing a sends is on its way to anyone, and nothing of a's is unhandled at b. */
  predicate Settled(s: System, a: Uuid, b: Uuid) {
    && a in s.peers && b in s.peers
    && !s.peers[a].move && s.peers[a].uplink == [] && s.peers[a].handler.Idle?
    && !Mentions(s.peers[b].downlink, a)
  }

  /** b has an entry for a, at a's own coordinates. */
  predicate Shows(s: System, b: Uuid, a: Uuid) {
    && a in s.peers && b in s.peers
    && a in s.peers[b].players && s.peers[b].players[a].at == s.peers[a].at
  }

  predicate Quiescent(s: System) {
    forall c :: c in s.members ==>
      && c in s.peers
      && !s.peers[c].move && s.peers[c].uplink == [] && s.peers[c].handler.Idle?
      && s.peers[c].downlink == []
  }

  /** All members show all others where they are, but for what batch passes have cost them. */
  predicate Converged(s: System) {
    forall a, b :: a in s.members && b in s.members && a != b && (a, b) !in s.spoiled ==> Shows(s, b, a)
  }

  // The invariant -------------------------------------------------------------------------------

  /** The last position p has promised to the server, while any of it is still on that side. */
  function Newest(p: Peer): Option<Coord> {
    if p.move then Some(p.at)
    else if p.uplink != [] then Some(p.uplink[|p.uplink| - 1].at)
    else if p.handler != Idle then Some(p.handler.msg.at)
    else None
  }

  predicate Honest(p: Peer) {
    Newest(p) == None || Newest(p) == Some(p.at)
  }

  /** Where r (named b) will believe p (named a) to be once all that is certain to reach it has
      been handled. */
  function Believed(a: Uuid, p: Peer, b: Uuid, r: Peer): Option<Coord> {
    if p.move || p.uplink != [] || WillReach(p.handler, b) then Newest(p)
    else if LastFrom(r.downlink, a) != None then LastFrom(r.downlink, a)
    else if a in r.players then Some(r.players[a].at)
    else None
  }

  /** p does not know r yet, but is certain to meet it and then to answer. */
  predicate WillMeet(a: Uuid, p: Peer, b: Uuid, r: Peer) {
    b !in p.players && (Mentions(p.downlink, b) || WillReach(r.handler, a))
  }

  predicate Agree(a: Uuid, p: Peer, b: Uuid, r: Peer) {
    Believed(a, p, b, r) == Some(p.at) || WillMeet(a, p, b, r)
  }

  predicate PairOk(s: System, a: Uuid, b: Uuid) {
    a in s.peers && b in s.peers && Agree(a, s.peers[a], b, s.peers[b])
  }

  /** No client has ever heard of c. */
  predicate Unheard(s: System, c: Uuid) {
    forall x :: x in s.peers ==>
      c !in s.peers[x].players && !Mentions(s.peers[x].downlink, c) && c !in s.peers[x].exits
  }

  ghost predicate Scoped(s: System) {
    && s.members <= s.peers.Keys
    && s.awaiting <= s.peers.Keys
    && s.members !! s.awaiting
    && (forall c :: c !in s.peers || c in s.awaiting ==> Unheard(s, c))
    && (forall x :: x in s.peers ==> s.peers[x].exits !! s.members)
    && (forall c :: c in s.awaiting ==> s.peers[c].handler.Queued?)
  }

  /** A client whose goroutines do not run yet has received nothing and is still being announced. */
  predicate Fresh(s: System, c: Uuid)
    requires c in s.peers
  {
    && (c in s.members || c in s.awaiting)
    && s.peers[c].downlink == [] && s.peers[c].players == map[] && s.peers[c].handler != Idle
  }

  /** Whom a loop has sent to was being served; whom it is sending to is served or still a member. */
  predicate LoopOk(s: System, c: Uuid)
    requires c in s.peers
  {
    var l := s.peers[c].handler;
    l.Ranging? ==>
      && l.done <= s.serving
      && (l.at.Some? ==> l.at.value in s.peers && l.at.value != c && (l.at.value in s.serving || l.at.value in s.members))
  }

  ghost predicate Served(s: System) {
    && s.serving <= s.peers.Keys
    && s.serving !! s.awaiting
    && (forall c :: c in s.peers && c !in s.serving ==> Fresh(s, c))
    && (forall c :: c in s.peers ==> LoopOk(s, c))
    && (forall c :: c in s.peers ==> !Mentions(s.peers[c].downlink, c))
  }

  predicate Outgoing(s: System) {
    forall c :: c in s.peers ==> Honest(s.peers[c])
  }

  predicate Pairs(s: System) {
    forall a, b :: a in s.members && b in s.members && a != b && (a, b) !in s.spoiled ==> PairOk(s, a, b)
  }

  ghost predicate Inv(s: System) {
    Scoped(s) && Served(s) && Outgoing(s) && Pairs(s)
  }

  // Position queues ----------------------------------------------------------------------------

  lemma MentionsLast(q: seq<Sighting>, a: Uuid)
    ensures Mentions(q, a) <==> LastFrom(q, a) != None
  {
    if q != [] {
      var r := q[..|q| - 1];
      MentionsLast(r, a);
      if q[|q| - 1].who != a {
        assert forall i :: 0 <= i < |q| && q[i].who == a ==> i < |r| && r[i].who == a;
        assert forall i :: 0 <= i < |r| ==> r[i] == q[i];
      }
    }
  }

  lemma LastFromAppend(q: seq<Sighting>, m: Sighting, a: Uuid)
    ensures LastFrom(q + [m], a) == if m.who == a then Some(m.car.at) else LastFrom(q, a)
    ensures Mentions(q + [m], a) <==> Mentions(q, a) || m.who == a
  {
    assert (q + [m])[..|q|] == q;
    MentionsLast(q + [m], a);
    MentionsLast(q, a);
  }

  /** Dropping a prefix keeps the newest position of everyone the rest still mentions. */
  lemma LastFromDrop(q: seq<Sighting>, k: nat, a: Uuid)
    requires k <= |q|
    ensures Mentions(q[k..], a) ==> LastFrom(q[k..], a) == LastFrom(q, a)
    ensures Mentions(q[k..], a) ==> Mentions(q, a)
    ensures Mentions(q, a) && !Mentions(q[k..], a) ==> exists i :: 0 <= i < k && q[i].who == a
  {
    if Mentions(q, a) {
      var i :| 0 <= i < |q| && q[i].who == a;
      if k <= i { assert q[k..][i - k].who == a; }
    }
    if k < |q| && q[|q| - 1].who != a {
      var r := q[..|q| - 1];
      assert q[k..][..|q[k..]| - 1] == r[k..];
      if Mentions(q[k..], a) {
        var j :| 0 <= j < |q[k..]| && q[k..][j].who == a;
        assert j < |r[k..]| && r[k..][j].who == a;
        LastFromDrop(r, k, a);
      }
    }
    if Mentions(q[k..], a) {
      var j :| 0 <= j < |q[k..]| && q[k..][j].who == a;
      assert q[k + j].who == a;
    }
  }

  // Each step keeps the invariant ----------------------------------------------------------------

  /** Nobody hears of a client before the server has added it: its announcement has not begun. */
  lemma UnheardStep(s: System, step: Step, c: Uuid, x: Uuid)
    requires Unheard(s, c) && Enabled(s, step) && x in Next(s, step).peers
    requires c !in s.members && (c in s.peers ==> c in s.awaiting && s.peers[c].handler.Queued?)
    requires c !in Next(s, step).peers || c in Next(s, step).awaiting
    ensures var p := Next(s, step).peers[x]; c !in p.players && !Mentions(p.downlink, c) && c !in p.exits
  {
    match step
    case Deliver(from, b) =>
      if x == b { LastFromAppend(s.peers[b].downlink, Sighting(from, s.peers[from].handler.msg), c); }
    case Handle(b) =>
      if x == b {
        assert Mentions(s.peers[b].downlink, s.peers[b].downlink[0].who);
        LastFromDrop(s.peers[b].downlink, 1, c);
      }
    case Drop(b, k) =>
      if x == b { LastFromDrop(s.peers[b].downlink, k, c); }
    case _ =>
  }

  lemma KnownStep(s: System, step: Step)
    requires Scoped(s) && Enabled(s, step)
    ensures forall c :: c !in Next(s, step).peers || c in Next(s, step).awaiting ==> Unheard(Next(s, step), c)
  {
    var t := Next(s, step);
    forall c | c !in t.peers || c in t.awaiting
      ensures Unheard(t, c)
    {
      assert Unheard(s, c);
      forall x | x in t.peers
        ensures c !in t.peers[x].players && !Mentions(t.peers[x].downlink, c) && c !in t.peers[x].exits
      {
        UnheardStep(s, step, c, x);
      }
    }
  }

  lemma NoticesStep(s: System, step: Step)
    requires Scoped(s) && Enabled(s, step)
    ensures forall x :: x in Next(s, step).peers ==> Next(s, step).peers[x].exits !! Next(s, step).members
  {
    var t := Next(s, step);
    forall x | x in t.peers
      ensures t.peers[x].exits !! t.members
    {
      if step.Add? { assert Unheard(s, step.c); }
    }
  }

  lemma ScopedStep(s: System, step: Step)
    requires Scoped(s) && Enabled(s, step)
    ensures Scoped(Next(s, step))
  {
    KnownStep(s, step);
    NoticesStep(s, step);
  }

  lemma FreshStep(s: System, step: Step, c: Uuid)
    requires Enabled(s, step) && c in Next(s, step).peers && c !in Next(s, step).serving
    requires c in s.peers ==> Fresh(s, c)
    ensures Fresh(Next(s, step), c)
  {
  }

  lemma LoopStep(s: System, step: Step, c: Uuid)
    requires s.members <= s.peers.Keys && Enabled(s, step) && c in Next(s, step).peers
    requires c in s.peers ==> LoopOk(s, c)
    ensures LoopOk(Next(s, step), c)
  {
  }

  lemma NoEchoStep(s: System, step: Step, c: Uuid)
    requires Served(s) && Enabled(s, step) && c in Next(s, step).peers
    ensures !Mentions(Next(s, step).peers[c].downlink, c)
  {
    match step
    case Deliver(from, b) =>
      if c == b { LastFromAppend(s.peers[b].downlink, Sighting(from, s.peers[from].handler.msg), c); }
    case Handle(b) =>
      if c == b { LastFromDrop(s.peers[b].downlink, 1, c); }
    case Drop(b, k) =>
      if c == b { LastFromDrop(s.peers[b].downlink, k, c); }
    case _ =>
  }

  lemma ServedStep(s: System, step: Step)
    requires Scoped(s) && Served(s) && Enabled(s, step)
    ensures Served(Next(s, step))
  {
    var t := Next(s, step);
    forall c | c in t.peers
      ensures LoopOk(t, c) && !Mentions(t.peers[c].downlink, c) && (c !in t.serving ==> Fresh(t, c))
    {
      LoopStep(s, step, c);
      NoEchoStep(s, step, c);
      if c !in t.serving {
        assert c in s.peers ==> Fresh(s, c);
        FreshStep(s, step, c);
      }
    }
  }

  lemma HonestStep(s: System, step: Step, c: Uuid)
    requires Enabled(s, step) && c in Next(s, step).peers
    requires c in s.peers ==> Honest(s.peers[c])
    ensures Honest(Next(s, step).peers[c])
  {
  }

  lemma OutgoingStep(s: System, step: Step)
    requires Outgoing(s) && Enabled(s, step)
    ensures Outgoing(Next(s, step))
  {
    var t := Next(s, step);
    forall c | c in t.peers ensures Honest(t.peers[c]) {
      HonestStep(s, step, c);
    }
  }

  // One pair's agreement under each change of either side.

  lemma AgreeAfterReach(a: Uuid, p: Peer, b: Uuid, r: Peer, d: Uuid)
    requires Agree(a, p, b, r) && Honest(p)
    ensures p.handler.Ranging? && p.handler.at.None? ==> Agree(a, p.(handler := Reached(p.handler, d)), b, r)
    ensures r.handler.Ranging? && r.handler.at.None? ==> Agree(a, p, b, r.(handler := Reached(r.handler, d)))
  {
  }

  lemma AgreeAfterDelivery(a: Uuid, p: Peer, b: Uuid, r: Peer)
    requires Agree(a, p, b, r) && Honest(p) && p.handler.Ranging?
    ensures Agree(a, p.(handler := Delivered(p.handler, b)),
                  b, r.(downlink := r.downlink + [Sighting(a, p.handler.msg)]))
  {
    LastFromAppend(r.downlink, Sighting(a, p.handler.msg), a);
  }

  lemma AgreeAfterDelivered(a: Uuid, p: Peer, b: Uuid, r: Peer)
    requires Agree(a, p, b, r) && r.handler.Ranging?
    ensures Agree(a, p.(downlink := p.downlink + [Sighting(b, r.handler.msg)]),
                  b, r.(handler := Delivered(r.handler, a)))
  {
    LastFromAppend(p.downlink, Sighting(b, r.handler.msg), b);
  }

  /** A third party's position does not matter to the pair. */
  lemma AgreeAfterAppend(a: Uuid, p: Peer, b: Uuid, r: Peer, m: Sighting)
    ensures m.who != a ==> (Agree(a, p, b, r.(downlink := r.downlink + [m])) <==> Agree(a, p, b, r))
    ensures m.who != b ==> (Agree(a, p.(downlink := p.downlink + [m]), b, r) <==> Agree(a, p, b, r))
  {
    LastFromAppend(r.downlink, m, a);
    LastFromAppend(p.downlink, m, b);
  }

  lemma OnlyFirst(q: seq<Sighting>, a: Uuid)
    requires q != [] && Mentions(q, a) && !Mentions(q[1..], a)
    ensures q[0].who == a && LastFrom(q, a) == Some(q[0].car.at)
  {
    forall i | 0 < i < |q| ensures q[i].who != a { assert q[1..][i - 1] == q[i]; }
    if |q| > 1 {
      var r := q[..|q| - 1];
      assert r[0].who == a;
      forall j | 0 <= j < |r[1..]| ensures r[1..][j].who != a { assert r[1..][j] == q[j + 1]; }
      OnlyFirst(r, a);
    }
  }

  lemma AgreeAfterHandle(a: Uuid, p: Peer, b: Uuid, r: Peer)
    requires Agree(a, p, b, r) && Honest(p)
    ensures r.downlink != [] ==> Agree(a, p, b, HandleOldest(r))
    ensures p.downlink != [] ==> Agree(a, HandleOldest(p), b, r)
  {
    if r.downlink != [] {
      var q := r.downlink;
      LastFromDrop(q, 1, a);
      MentionsLast(q, a);
      MentionsLast(q[1..], a);
      if Mentions(q, a) && !Mentions(q[1..], a) { OnlyFirst(q, a); }
    }
    if p.downlink != [] {
      var q := p.downlink;
      LastFromDrop(q, 1, b);
      if Mentions(q, b) && !Mentions(q[1..], b) { OnlyFirst(q, b); }
    }
  }

  /** A pass keeps the agreement of everyone it does not harm. */
  lemma AgreeAfterDrop(a: Uuid, p: Peer, b: Uuid, r: Peer, k: nat)
    requires Agree(a, p, b, r)
    ensures k <= |r.downlink| && a !in Harmed(r, k) ==> Agree(a, p, b, r.(downlink := r.downlink[k..]))
    ensures k <= |p.downlink| && (b !in Harmed(p, k) || b in p.players) ==>
      Agree(a, p.(downlink := p.downlink[k..]), b, r)
  {
    if k <= |r.downlink| {
      LastFromDrop(r.downlink, k, a);
      MentionsLast(r.downlink, a);
      MentionsLast(r.downlink[k..], a);
    }
    if k <= |p.downlink| {
      LastFromDrop(p.downlink, k, b);
    }
  }

  lemma PairAfterAdd(s: System, c: Uuid, a: Uuid, b: Uuid)
    requires Inv(s) && Enabled(s, Add(c))
    requires a in s.members + {c} && b in s.members + {c} && a != b && (a, b) !in s.spoiled
    ensures PairOk(s, a, b)
  {
    if c == a || c == b { assert Unheard(s, c); }
  }

  lemma PairAfterDeliver(s: System, c: Uuid, d: Uuid, a: Uuid, b: Uuid)
    requires Enabled(s, Deliver(c, d)) && a != b && PairOk(s, a, b) && Honest(s.peers[a])
    ensures PairOk(Next(s, Deliver(c, d)), a, b)
  {
    var p, r := s.peers[a], s.peers[b];
    var m := Sighting(c, s.peers[c].handler.msg);
    AgreeAfterAppend(a, p, b, r, m);
    if c == a && d == b { AgreeAfterDelivery(a, p, b, r); }
    if c == b && d == a { AgreeAfterDelivered(a, p, b, r); }
  }

  lemma PairAfterReach(s: System, c: Uuid, d: Uuid, a: Uuid, b: Uuid)
    requires Enabled(s, Reach(c, d)) && a != b && PairOk(s, a, b) && Honest(s.peers[a])
    ensures PairOk(Next(s, Reach(c, d)), a, b)
  {
    AgreeAfterReach(a, s.peers[a], b, s.peers[b], d);
  }

  lemma SpoilsHarmed(b: Uuid, p: Peer, k: nat, a: Uuid)
    requires k <= |p.downlink|
    ensures a in Harmed(p, k) ==> (a, b) in Spoils(b, p, k)
    ensures a in Harmed(p, k) && a !in p.players ==> (b, a) in Spoils(b, p, k)
  {
  }

  lemma PairAfterDrop(s: System, c: Uuid, k: nat, a: Uuid, b: Uuid)
    requires Enabled(s, Drop(c, k)) && a != b && PairOk(s, a, b)
    requires (a, b) !in Next(s, Drop(c, k)).spoiled
    ensures PairOk(Next(s, Drop(c, k)), a, b)
  {
    SpoilsHarmed(c, s.peers[c], k, if c == b then a else b);
    AgreeAfterDrop(a, s.peers[a], b, s.peers[b], k);
  }

  /** The steps of one handler and of the read goroutine. */
  lemma PairAfterServing(s: System, step: Step, a: Uuid, b: Uuid)
    requires Enabled(s, step) && (step.Begin? || step.Finish? || step.Route?)
    requires a in s.members && b in s.members && a != b && PairOk(s, a, b)
    ensures PairOk(Next(s, step), a, b)
  {
  }

  /** The steps a client takes without reading its queues. */
  lemma PairAfterActing(s: System, step: Step, a: Uuid, b: Uuid)
    requires Enabled(s, step) && (step.Connect? || step.Press? || step.Send? || step.Paint?)
    requires a != b && PairOk(s, a, b) && Honest(s.peers[a])
    ensures PairOk(Next(s, step), a, b)
  {
  }

  lemma PairAfterDeparting(s: System, step: Step, a: Uuid, b: Uuid)
    requires Enabled(s, step) && (step.Remove? || step.HandleExit? || step.Repainted?)
    requires a != b && PairOk(s, a, b)
    requires a !in s.peers[b].exits && b !in s.peers[a].exits
    ensures PairOk(Next(s, step), a, b)
  {
  }

  lemma PairStep(s: System, step: Step, a: Uuid, b: Uuid)
    requires Enabled(s, step) && !step.Add?
    requires a in s.members && b in s.members && a != b && PairOk(s, a, b) && Honest(s.peers[a])
    requires a !in s.peers[b].exits && b !in s.peers[a].exits
    requires step.Drop? ==> (a, b) !in Next(s, step).spoiled
    ensures PairOk(Next(s, step), a, b)
  {
    match step
    case Deliver(c, d) => PairAfterDeliver(s, c, d, a, b);
    case Handle(_) => AgreeAfterHandle(a, s.peers[a], b, s.peers[b]);
    case Reach(c, d) => PairAfterReach(s, c, d, a, b);
    case Drop(c, k) => PairAfterDrop(s, c, k, a, b);
    case Begin(_) => PairAfterServing(s, step, a, b);
    case Finish(_) => PairAfterServing(s, step, a, b);
    case Route(_) => PairAfterServing(s, step, a, b);
    case Remove(_) => PairAfterDeparting(s, step, a, b);
    case HandleExit(_, _) => PairAfterDeparting(s, step, a, b);
    case Repainted(_, _, _) => PairAfterDeparting(s, step, a, b);
    case _ => PairAfterActing(s, step, a, b);
  }

  /** A pair leaves the account only when its sender announces itself again. */
  lemma PairRestored(s: System, step: Step, a: Uuid, b: Uuid)
    requires Enabled(s, step) && a in s.peers && b in s.peers && a in Next(s, step).peers
    requires Honest(Next(s, step).peers[a]) && (a, b) in s.spoiled && (a, b) !in Next(s, step).spoiled
    ensures PairOk(Next(s, step), a, b)
  {
  }

  lemma PairsStep(s: System, step: Step)
    requires Inv(s) && Enabled(s, step) && Outgoing(Next(s, step))
    ensures Pairs(Next(s, step))
  {
    var t := Next(s, step);
    forall a, b | a in t.members && b in t.members && a != b && (a, b) !in t.spoiled
      ensures PairOk(t, a, b)
    {
      if step.Add? {
        PairAfterAdd(s, step.c, a, b);
      } else if (a, b) in s.spoiled {
        PairRestored(s, step, a, b);
      } else {
        assert PairOk(s, a, b) && Honest(s.peers[a]);
        PairStep(s, step, a, b);
      }
    }
  }

  lemma InvStep(s: System, step: Step)
    requires Inv(s) && Enabled(s, step)
    ensures Inv(Next(s, step))
  {
    ScopedStep(s, step);
    ServedStep(s, step);
    OutgoingStep(s, step);
    PairsStep(s, step);
  }

  // Main results --------------------------------------------------------------------------------

  lemma ReachableInv(s: System)
    requires Reachable(s)
    ensures Inv(s)
  {
    forall s, step | Inv(s) && PROTOCOL.CanStep(s, step) ensures Inv(PROTOCOL.next(s, step)) {
      InvStep(s, step);
    }
    PROTOCOL.ReachableInv(Inv, s);
  }

  lemma ReachableStep(s: System, step: Step)
    requires Reachable(s) && Enabled(s, step)
    ensures Reachable(Next(s, step))
  {
    PROTOCOL.ReachableStep(s, step);
  }

  /** Convergence, pair by pair. In every reachable state, whatever the order of joins, moves,
      departures and batch passes: as soon as nothing of a's is in flight towards b and nothing of
      b's towards a, b shows a exactly where a is, unless a pass has spoiled the pair. */
  lemma PairConverges(s: System, a: Uuid, b: Uuid)
    requires Reachable(s) && a in s.members && b in s.members && a != b && (a, b) !in s.spoiled
    requires Settled(s, a, b) && Settled(s, b, a)
    ensures Shows(s, b, a)
  {
    ReachableInv(s);
    assert PairOk(s, a, b);
    MentionsLast(s.peers[b].downlink, a);
  }

  /** Convergence of the whole system at quiescence, but for spoiled pairs. */
  lemma QuiescentConverges(s: System)
    requires Reachable(s) && Quiescent(s)
    ensures Converged(s)
  {
    forall a, b | a in s.members && b in s.members && a != b && (a, b) !in s.spoiled
      ensures Shows(s, b, a)
    {
      PairConverges(s, a, b);
    }
  }
}
