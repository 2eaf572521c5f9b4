/** What concurrent broadcasts do to the order of messages. Every sender has one read goroutine,
    many of them range over the client map at once, and the map changes underneath. A recipient's
    egress still carries each sender's messages in the order that sender routed them, none twice,
    and none of a finished broadcast missing for a recipient that was a member throughout. */
module SenderOrder {
  import opened Events
  import opened Broadcast
  import opened Runs

  /** The n-th thing a sender had the server fan out; number 0 is the announcement of its arrival.
      `through` is set when the loop ends: the members present from its start to its end. */
  datatype Cast<+P> = Cast(payload: P, to: Audience, through: Option<set<Uuid>>)

  datatype Sender<+P> = Sender(routed: seq<Cast<P>>, loop: Loop<nat>)

  /** One send on a recipient's egress channel. */
  datatype Entry<+P> = Entry(from: Uuid, n: nat, payload: P)

  /** `egress[b]` is everything ever sent on b's channel. */
  datatype Server<P> = Server(members: set<Uuid>, senders: map<Uuid, Sender<P>>, egress: map<Uuid, seq<Entry<P>>>)

  datatype Step<P> =
    | Join(c: Uuid, hello: P)
    | Leave(c: Uuid)
    | Route(c: Uuid, payload: P, to: Audience)
    | Begin(c: Uuid)
    | Reach(c: Uuid, b: Uuid)
    | Deliver(c: Uuid, b: Uuid)
    | Finish(c: Uuid)

  predicate Enabled<P>(s: Server<P>, step: Step<P>) {
    match step
    case Join(c, _) => c !in s.senders && c !in s.egress && c !in s.members
    case Leave(c) => c in s.members
    case Route(c, _, _) => c in s.senders && s.senders[c].loop.Idle?
    case Begin(c) => c in s.senders && s.senders[c].loop.Queued?
    case Reach(c, b) =>
      (c in s.senders && Current(s.senders[c]) && CanReach(s.senders[c].loop, Job(s.senders[c]).to, s.members, b))
    case Deliver(c, b) => c in s.senders && b in s.egress && Current(s.senders[c]) && SendingTo(s.senders[c].loop, b)
    case Finish(c) =>
      (c in s.senders && Current(s.senders[c])
       && CanFinish(s.senders[c].loop, Job(s.senders[c]).to, s.members))
  }

  /** The loop is ranging for one of the sender's casts. */
  predicate Current<P>(p: Sender<P>) {
    p.loop.Ranging? && p.loop.msg < |p.routed|
  }

  function Job<P>(p: Sender<P>): Cast<P>
    requires Current(p)
  {
    p.routed[p.loop.msg]
  }

  function Next<P>(s: Server<P>, step: Step<P>): Server<P>
    requires Enabled(s, step)
  {
    match step
    case Join(c, hello) =>
      Server(s.members + {c}, s.senders[c := Sender([Cast(hello, PeersOf(c), None)], Queued(0))], s.egress[c := []])
    case Leave(c) =>
      s.(members := s.members - {c})
    case Route(c, payload, to) =>
      var p := s.senders[c];
      s.(senders := s.senders[c := Sender(p.routed + [Cast(payload, to, None)], Queued(|p.routed|))])
    case Begin(c) =>
      var p := s.senders[c];
      s.(senders := s.senders[c := p.(loop := Begun(p.loop, s.members))])
    case Reach(c, b) =>
      var p := s.senders[c];
      s.(senders := s.senders[c := p.(loop := Reached(p.loop, b))])
    case Deliver(c, b) =>
      var p := s.senders[c];
      s.(senders := s.senders[c := p.(loop := Delivered(p.loop, b))],
         egress := s.egress[b := s.egress[b] + [Entry(c, p.loop.msg, Job(p).payload)]])
    case Finish(c) =>
      var p := s.senders[c];
      var n := p.loop.msg;
      s.(senders := s.senders[c := Sender(
        p.routed[n := p.routed[n].(through := Some(p.loop.start * s.members))], Idle)])
  }

  ghost function FanOut<P(!new)>(): Machine<Server<P>, Step<P>> {
    Machine(Server({}, map[], map[]), Enabled, Next)
  }

  ghost predicate Reachable<P(!new)>(s: Server<P>) { FanOut<P>().Reachable(s) }

  // What a recipient sees of one sender ---------------------------------------------------------

  /** a's entries appear in the order a routed them, none twice. */
  predicate InOrder<P>(log: seq<Entry<P>>, a: Uuid) {
    forall i, j :: 0 <= i < j < |log| && log[i].from == a && log[j].from == a ==> log[i].n < log[j].n
  }

  /** a's entries are what a routed, addressed to b. */
  predicate Genuine<P(==)>(log: seq<Entry<P>>, a: Uuid, routed: seq<Cast<P>>, b: Uuid) {
    forall i :: 0 <= i < |log| && log[i].from == a ==>
      log[i].n < |routed| && log[i].payload == routed[log[i].n].payload && Wants(routed[log[i].n].to, b)
  }

  predicate Carries<P>(log: seq<Entry<P>>, a: Uuid, n: nat) {
    exists i :: 0 <= i < |log| && log[i].from == a && log[i].n == n
  }

  /** Every finished cast of a that addresses b, and that b was a member throughout, is there. */
  predicate Complete<P>(log: seq<Entry<P>>, a: Uuid, routed: seq<Cast<P>>, b: Uuid) {
    forall n :: 0 <= n < |routed| && routed[n].through.Some? && b in routed[n].through.value && Wants(routed[n].to, b)
      ==> Carries(log, a, n)
  }

  /** Only the last cast can be unfinished, and everyone it concerns is known. */
  predicate SenderOk<P>(p: Sender<P>, known: set<Uuid>) {
    && p.routed != []
    && (!p.loop.Idle? ==> p.loop.msg == |p.routed| - 1 && p.routed[p.loop.msg].through.None?)
    && (p.loop.Ranging? ==> p.loop.start <= known && p.loop.done <= known && p.loop.msg < |p.routed|)
    && (p.loop.Ranging? && p.loop.at.Some? ==> Headed(p.loop, p.routed[p.loop.msg].to, known))
    && (forall n :: 0 <= n < |p.routed| && p.routed[n].through.Some? ==> p.routed[n].through.value <= known)
  }

  /** The loop is at somebody addressed that it has not sent to yet. */
  predicate Headed(l: Loop<nat>, to: Audience, known: set<Uuid>)
    requires l.Ranging? && l.at.Some?
  {
    l.at.value in known && l.at.value !in l.done && Wants(to, l.at.value)
  }

  /** b has the cast in progress exactly if the loop has visited b. */
  predicate InStep<P>(p: Sender<P>, log: seq<Entry<P>>, a: Uuid, b: Uuid) {
    && (p.loop.Queued? ==> !Carries(log, a, p.loop.msg))
    && (p.loop.Ranging? ==> (b in p.loop.done <==> Carries(log, a, p.loop.msg)))
  }

  predicate LinkOk<P(==)>(p: Sender<P>, log: seq<Entry<P>>, a: Uuid, b: Uuid) {
    InOrder(log, a) && Genuine(log, a, p.routed, b) && Complete(log, a, p.routed, b) && InStep(p, log, a, b)
  }

  ghost predicate Inv<P(!new)>(s: Server<P>) {
    && s.members <= s.egress.Keys
    && s.egress.Keys == s.senders.Keys
    && (forall a :: a in s.senders ==> SenderOk(s.senders[a], s.egress.Keys))
    && (forall b :: b in s.egress ==> KnownSenders(s.egress[b], s.senders.Keys))
    && (forall a, b :: a in s.senders && b in s.egress ==> LinkOk(s.senders[a], s.egress[b], a, b))
  }

  predicate KnownSenders<P>(log: seq<Entry<P>>, known: set<Uuid>) {
    forall i :: 0 <= i < |log| ==> log[i].from in known
  }

  // One link under each step ---------------------------------------------------------------------

  lemma LinkSilent<P>(p: Sender<P>, log: seq<Entry<P>>, known: set<Uuid>, a: Uuid, b: Uuid)
    requires SenderOk(p, known)
    requires forall i :: 0 <= i < |log| ==> log[i].from != a
    requires b !in known || (p.loop.Queued? && |p.routed| == 1)
    ensures LinkOk(p, log, a, b)
  {
  }

  lemma LinkRoute<P>(p: Sender<P>, log: seq<Entry<P>>, a: Uuid, b: Uuid, payload: P, to: Audience)
    requires LinkOk(p, log, a, b)
    ensures LinkOk(Sender(p.routed + [Cast(payload, to, None)], Queued(|p.routed|)), log, a, b)
  {
    var q := p.routed + [Cast(payload, to, None)];
    forall i | 0 <= i < |log| && log[i].from == a
      ensures log[i].n < |q| && log[i].payload == q[log[i].n].payload && Wants(q[log[i].n].to, b)
    {
      assert q[log[i].n] == p.routed[log[i].n];
    }
  }

  lemma LinkVisit<P>(p: Sender<P>, known: set<Uuid>, log: seq<Entry<P>>, a: Uuid, b: Uuid)
    requires SenderOk(p, known) && LinkOk(p, log, a, b)
    requires Current(p) && SendingTo(p.loop, b)
    ensures LinkOk(p.(loop := Delivered(p.loop, b)), log + [Entry(a, p.loop.msg, Job(p).payload)], a, b)
  {
    var e := Entry(a, p.loop.msg, Job(p).payload);
    var longer := log + [e];
    forall i | 0 <= i < |log| && log[i].from == a
      ensures log[i].n < e.n
    {
      assert log[i].n != e.n by { assert !Carries(log, a, e.n); }
    }
    forall n | 0 <= n < |p.routed| && p.routed[n].through.Some? && b in p.routed[n].through.value && Wants(p.routed[n].to, b)
      ensures Carries(longer, a, n)
    {
      CarriesMore(log, e, a, n);
    }
    assert longer[|log|] == e;
  }

  lemma CarriesMore<P>(log: seq<Entry<P>>, e: Entry<P>, a: Uuid, n: nat)
    ensures Carries(log + [e], a, n) <==> Carries(log, a, n) || (e.from == a && e.n == n)
  {
    var longer := log + [e];
    if Carries(log, a, n) {
      var i :| 0 <= i < |log| && log[i].from == a && log[i].n == n;
      assert longer[i] == log[i];
    }
    assert longer[|log|] == e;
  }

  lemma LinkOther<P>(p: Sender<P>, log: seq<Entry<P>>, a: Uuid, b: Uuid, e: Entry<P>)
    requires LinkOk(p, log, a, b) && e.from != a
    ensures LinkOk(p, log + [e], a, b)
  {
    forall n | Carries(log, a, n) ensures Carries(log + [e], a, n) { CarriesMore(log, e, a, n); }
    if !p.loop.Idle? { CarriesMore(log, e, a, p.loop.msg); }
  }

  lemma LinkFinish<P>(p: Sender<P>, known: set<Uuid>, log: seq<Entry<P>>, a: Uuid, b: Uuid, members: set<Uuid>)
    requires SenderOk(p, known) && LinkOk(p, log, a, b)
    requires Current(p) && CanFinish(p.loop, Job(p).to, members)
    ensures LinkOk(Sender(p.routed[p.loop.msg := Job(p).(through := Some(p.loop.start * members))], Idle), log, a, b)
  {
  }

  // One sender under each step -------------------------------------------------------------------

  lemma SenderGrows<P>(p: Sender<P>, known: set<Uuid>, more: set<Uuid>)
    requires SenderOk(p, known) && known <= more
    ensures SenderOk(p, more)
  {
  }

  lemma SenderRoutes<P>(p: Sender<P>, known: set<Uuid>, payload: P, to: Audience)
    requires SenderOk(p, known)
    ensures SenderOk(Sender(p.routed + [Cast(payload, to, None)], Queued(|p.routed|)), known)
  {
  }

  lemma SenderRanges<P>(p: Sender<P>, known: set<Uuid>, members: set<Uuid>, b: Uuid)
    requires SenderOk(p, known) && members <= known && b in known
    ensures p.loop.Queued? ==> SenderOk(p.(loop := Begun(p.loop, members)), known)
    ensures Current(p) && CanReach(p.loop, Job(p).to, members, b) ==> SenderOk(p.(loop := Reached(p.loop, b)), known)
    ensures Current(p) ==> SenderOk(p.(loop := Delivered(p.loop, b)), known)
  {
  }

  lemma SenderFinishes<P>(p: Sender<P>, known: set<Uuid>, members: set<Uuid>)
    requires SenderOk(p, known) && Current(p) && members <= known
    ensures SenderOk(Sender(p.routed[p.loop.msg := Job(p).(through := Some(p.loop.start * members))], Idle), known)
  {
  }

  lemma SenderStep<P(!new)>(s: Server<P>, step: Step<P>, a: Uuid)
    requires Enabled(s, step) && s.members <= s.egress.Keys
    requires a in s.senders && SenderOk(s.senders[a], s.egress.Keys)
    ensures SenderOk(Next(s, step).senders[a], Next(s, step).egress.Keys)
  {
    var p, known := s.senders[a], s.egress.Keys;
    match step
    case Join(c, _) => SenderGrows(p, known, known + {c});
    case Route(_, payload, to) => SenderRoutes(p, known, payload, to);
    case Begin(c) => if a in known { SenderRanges(p, known, s.members, a); } else { SenderGrows(p, known, known); }
    case Reach(_, b) => SenderRanges(p, known, s.members, b);
    case Deliver(_, b) => SenderRanges(p, known, s.members, b); assert Next(s, step).egress.Keys == known;
    case Finish(_) => if a == step.c { SenderFinishes(p, known, s.members); }
    case Leave(_) =>
  }

  // Every step keeps the invariant ----------------------------------------------------------------

  lemma LinkAfterJoin<P(!new)>(s: Server<P>, c: Uuid, hello: P, a: Uuid, b: Uuid)
    requires Inv(s) && Enabled(s, Join(c, hello))
    requires a in Next(s, Join(c, hello)).senders && b in Next(s, Join(c, hello)).egress
    ensures LinkOk(Next(s, Join(c, hello)).senders[a], Next(s, Join(c, hello)).egress[b], a, b)
  {
    if a == c {
      if b in s.egress { assert KnownSenders(s.egress[b], s.senders.Keys); }
      LinkSilent(Sender([Cast(hello, PeersOf(c), None)], Queued(0)), Next(s, Join(c, hello)).egress[b], {}, a, b);
    } else if b == c {
      LinkSilent(s.senders[a], [], s.egress.Keys, a, b);
    } else {
      assert LinkOk(s.senders[a], s.egress[b], a, b);
    }
  }

  lemma LinkStep<P(!new)>(s: Server<P>, step: Step<P>, a: Uuid, b: Uuid)
    requires Enabled(s, step) && !step.Join?
    requires a in s.senders && b in s.egress
    requires SenderOk(s.senders[a], s.egress.Keys) && LinkOk(s.senders[a], s.egress[b], a, b)
    ensures LinkOk(Next(s, step).senders[a], Next(s, step).egress[b], a, b)
  {
    var p, log := s.senders[a], s.egress[b];
    match step
    case Route(c, payload, to) =>
      if a == c { LinkRoute(p, log, a, b, payload, to); }
    case Deliver(c, d) =>
      if a == c && b == d {
        LinkVisit(p, s.egress.Keys, log, a, b);
      } else if b == d {
        LinkOther(p, log, a, b, Entry(c, s.senders[c].loop.msg, Job(s.senders[c]).payload));
      }
    case Finish(c) =>
      if a == c { LinkFinish(p, s.egress.Keys, log, a, b, s.members); }
    case _ =>
  }

  lemma SendersStep<P(!new)>(s: Server<P>, step: Step<P>)
    requires Inv(s) && Enabled(s, step)
    ensures forall a :: a in Next(s, step).senders ==> SenderOk(Next(s, step).senders[a], Next(s, step).egress.Keys)
  {
    var t := Next(s, step);
    forall a | a in t.senders ensures SenderOk(t.senders[a], t.egress.Keys) {
      if a in s.senders { SenderStep(s, step, a); }
    }
  }

  lemma KnownStep<P(!new)>(s: Server<P>, step: Step<P>, b: Uuid)
    requires Enabled(s, step) && b in Next(s, step).egress
    requires b in s.egress ==> KnownSenders(s.egress[b], s.senders.Keys)
    ensures KnownSenders(Next(s, step).egress[b], Next(s, step).senders.Keys)
  {
  }

  lemma KnownsStep<P(!new)>(s: Server<P>, step: Step<P>)
    requires Inv(s) && Enabled(s, step)
    ensures forall b :: b in Next(s, step).egress ==> KnownSenders(Next(s, step).egress[b], Next(s, step).senders.Keys)
  {
    var t := Next(s, step);
    forall b | b in t.egress ensures KnownSenders(t.egress[b], t.senders.Keys) {
      KnownStep(s, step, b);
    }
  }

  lemma KeysStep<P(!new)>(s: Server<P>, step: Step<P>)
    requires Enabled(s, step) && s.members <= s.egress.Keys && s.egress.Keys == s.senders.Keys
    ensures Next(s, step).members <= Next(s, step).egress.Keys
    ensures Next(s, step).egress.Keys == Next(s, step).senders.Keys
  {
  }

  lemma LinksStep<P(!new)>(s: Server<P>, step: Step<P>)
    requires Inv(s) && Enabled(s, step)
    ensures var t := Next(s, step);
      forall a, b :: a in t.senders && b in t.egress ==> LinkOk(t.senders[a], t.egress[b], a, b)
  {
    var t := Next(s, step);
    forall a, b | a in t.senders && b in t.egress
      ensures LinkOk(t.senders[a], t.egress[b], a, b)
    {
      if step.Join? {
        LinkAfterJoin(s, step.c, step.hello, a, b);
      } else {
        LinkStep(s, step, a, b);
      }
    }
  }

  lemma InvStep<P(!new)>(s: Server<P>, step: Step<P>)
    requires Inv(s) && Enabled(s, step)
    ensures Inv(Next(s, step))
  {
    KeysStep(s, step);
    SendersStep(s, step);
    KnownsStep(s, step);
    LinksStep(s, step);
  }

  lemma ReachableInv<P(!new)>(s: Server<P>)
    requires Reachable(s)
    ensures Inv(s)
  {
    var m := FanOut<P>();
    forall s, step | Inv(s) && m.CanStep(s, step) ensures Inv(m.next(s, step)) {
      InvStep(s, step);
    }
    m.ReachableInv(Inv, s);
  }

  // Main results ---------------------------------------------------------------------------------

  /** In every reachable state, whatever the interleaving of read loops, joins and departures: b's
      egress restricted to a is an in-order, duplicate-free part of what a routed and addressed to
      b, and contains every finished cast during which b was a member throughout. */
  lemma PerSenderFifo<P(!new)>(s: Server<P>, a: Uuid, b: Uuid)
    requires Reachable(s) && a in s.senders && b in s.egress
    ensures InOrder(s.egress[b], a)
    ensures Genuine(s.egress[b], a, s.senders[a].routed, b)
    ensures Complete(s.egress[b], a, s.senders[a].routed, b)
  {
    ReachableInv(s);
    assert LinkOk(s.senders[a], s.egress[b], a, b);
  }

  /** What a sender has routed stays routed: casts are only added, and only their ends are recorded. */
  lemma {:induction false} CastsStay<P(!new)>(s: Server<P>, steps: seq<Step<P>>, a: Uuid)
    requires FanOut<P>().CanRun(s, steps) && a in s.senders
    ensures var t := FanOut<P>().Outcome(s, steps);
      && a in t.senders && |s.senders[a].routed| <= |t.senders[a].routed|
      && forall n :: 0 <= n < |s.senders[a].routed| ==>
        t.senders[a].routed[n].payload == s.senders[a].routed[n].payload && t.senders[a].routed[n].to == s.senders[a].routed[n].to
    decreases |steps|
  {
    if steps != [] {
      CastsStayStep(s, steps[0], a);
      CastsStay(Next(s, steps[0]), steps[1..], a);
    }
  }

  lemma CastsStayStep<P>(s: Server<P>, step: Step<P>, a: Uuid)
    requires Enabled(s, step) && a in s.senders
    ensures var t := Next(s, step);
      && a in t.senders && |s.senders[a].routed| <= |t.senders[a].routed|
      && forall n :: 0 <= n < |s.senders[a].routed| ==>
        t.senders[a].routed[n].payload == s.senders[a].routed[n].payload && t.senders[a].routed[n].to == s.senders[a].routed[n].to
  {
  }

  /** Every sender's first cast is its announcement, and is addressed to all its peers. */
  predicate Announced<P>(s: Server<P>) {
    forall a :: a in s.senders ==> s.senders[a].routed != [] && s.senders[a].routed[0].to == PeersOf(a)
  }

  lemma AnnouncedStep<P>(s: Server<P>, step: Step<P>)
    requires Announced(s) && Enabled(s, step)
    ensures Announced(Next(s, step))
    ensures step.Join? ==> Next(s, step).senders[step.c].routed == [Cast(step.hello, PeersOf(step.c), None)]
  {
  }

  lemma ReachableAnnounced<P(!new)>(s: Server<P>)
    requires Reachable(s)
    ensures Announced(s)
  {
    var m := FanOut<P>();
    forall s, step | Announced(s) && m.CanStep(s, step) ensures Announced(m.next(s, step)) {
      AnnouncedStep(s, step);
    }
    m.ReachableInv(Announced, s);
  }

  /** The announcement of a precedes everything else that any other client gets from it which was there
      for it. */
  lemma AnnouncedFirst<P(!new)>(s: Server<P>, a: Uuid, b: Uuid) returns (first: nat)
    requires Reachable(s) && a in s.senders && b in s.egress && a != b
    requires s.senders[a].routed != [] && s.senders[a].routed[0].through.Some? && b in s.senders[a].routed[0].through.value
    ensures first < |s.egress[b]| && s.egress[b][first] == Entry(a, 0, s.senders[a].routed[0].payload)
    ensures forall i :: 0 <= i < first ==> s.egress[b][i].from != a
  {
    ReachableAnnounced(s);
    PerSenderFifo(s, a, b);
    assert Carries(s.egress[b], a, 0);
    first :| 0 <= first < |s.egress[b]| && s.egress[b][first].from == a && s.egress[b][first].n == 0;
  }

  // Departed recipients --------------------------------------------------------------------------

  /** b is no member any more, and nobody is in the middle of sending to it. */
  predicate Gone<P>(s: Server<P>, b: Uuid) {
    && b in s.egress && b !in s.members
    && forall a :: a in s.senders ==> !SendingTo(s.senders[a].loop, b)
  }

  lemma GoneStep<P>(s: Server<P>, step: Step<P>, b: Uuid)
    requires Gone(s, b) && Enabled(s, step)
    ensures Gone(Next(s, step), b) && Next(s, step).egress[b] == s.egress[b]
  {
  }

  /** Once a client has left, and the sends begun to it are over, it is sent nothing more. */
  lemma {:induction false} GoneGetsNothing<P(!new)>(s: Server<P>, steps: seq<Step<P>>, b: Uuid)
    requires FanOut<P>().CanRun(s, steps) && Gone(s, b)
    ensures b in FanOut<P>().Outcome(s, steps).egress && FanOut<P>().Outcome(s, steps).egress[b] == s.egress[b]
    decreases |steps|
  {
    if steps != [] {
      GoneStep(s, steps[0], b);
      GoneGetsNothing(Next(s, steps[0]), steps[1..], b);
    }
  }

  /** Leaving makes a client go, unless somebody is in the middle of sending to it. */
  lemma LeavingGoes<P(!new)>(s: Server<P>, b: Uuid)
    requires Inv(s) && Enabled(s, Leave(b)) && forall a :: a in s.senders ==> !SendingTo(s.senders[a].loop, b)
    ensures Gone(Next(s, Leave(b)), b) && Next(s, Leave(b)).members == s.members - {b}
  {
  }
}
