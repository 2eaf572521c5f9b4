/** What becomes of a pair that is out of agreement. Nothing repairs it but a new announcement of the
    sender, and a client that nobody steers announces itself only when it meets somebody it does not
    know. So the question is whether it is certain to meet somebody, which may take a chain of
    meetings elsewhere. The answer is exact: it is not, if and only if there is a group of clients at
    rest, with the sender among them, that no news of a stranger can reach from outside. */
module Recovery {
  import opened Events
  import opened Broadcast
  import opened Replication
  import opened Discovery
  import opened ProtocolMeasure
  import opened Sums

  /** A message of y is certain to reach x: it is there, or on its way. */
  predicate NewsComing(s: System, y: Uuid, x: Uuid)
    requires x in s.peers && y in s.peers
  {
    var p := s.peers[y];
    || Mentions(s.peers[x].downlink, y)
    || SendingTo(p.handler, x)
    || (y !in s.awaiting && x in s.members && (p.move || p.uplink != [] || WillReach(p.handler, x)))
  }

  /** If x does not know y: no news of y is coming to x, and none can arise while the group rests. */
  predicate Undisturbed(s: System, group: set<Uuid>, x: Uuid, y: Uuid)
    requires x in s.peers
  {
    x != y && y in s.peers && y !in s.peers[x].players ==>
      !NewsComing(s, y, x) && (x in s.members && y !in s.awaiting ==> y in group)
  }

  ghost predicate Quiet(s: System, group: set<Uuid>) {
    && group <= s.peers.Keys
    && (forall x :: x in group ==> !s.peers[x].move)
    && (forall x, y :: x in group && y in s.peers ==> Undisturbed(s, group, x, y))
  }

  /** a need not announce itself any more. */
  ghost predicate MayRest(s: System, a: Uuid) {
    exists group :: Quiet(s, group) && a in group
  }

  /** Nothing is on its way to or from anybody who is past the handshake, exit notices aside. */
  predicate Calm(s: System) {
    forall c :: c in s.peers ==> CalmAt(s, c)
  }

  predicate CalmAt(s: System, c: Uuid)
    requires c in s.peers
  {
    var p := s.peers[c];
    !p.move && p.downlink == [] && !p.handler.Ranging? && (c !in s.awaiting ==> p.uplink == [] && p.handler.Idle?)
  }

  lemma CalmIsQuiet(s: System)
    requires Calm(s)
    ensures Quiet(s, s.peers.Keys)
  {
    forall x, y | x in s.peers && y in s.peers ensures Undisturbed(s, s.peers.Keys, x, y) {
      assert CalmAt(s, x) && CalmAt(s, y);
    }
  }

  lemma StuckIsCalm(s: System)
    requires Reachable(s) && Stuck(s) && |Joining(s)| <= 1
    ensures Calm(s)
  {
    StuckIsQuiescent(s);
    StuckIffBlocked(s);
    ReachableInv(s);
    forall c | c in s.peers ensures CalmAt(s, c) {
      StuckIsCalmAt(s, c);
    }
  }

  lemma StuckIsCalmAt(s: System, c: Uuid)
    requires Inv(s) && Stuck(s) && Quiescent(s) && c in s.peers
    ensures CalmAt(s, c)
  {
    if c in s.awaiting {
      assert !Enabled(s, Send(c)) && !Enabled(s, Handle(c)) && Internal(Send(c)) && Internal(Handle(c));
    } else {
      NobodyJoins(s);
      StuckLoop(s, c);
    }
  }

  lemma NobodyJoins(s: System)
    requires Served(s) && Quiescent(s)
    ensures Joining(s) == {}
  {
    forall d | d in s.members ensures d in s.serving {
      assert d !in s.serving ==> Fresh(s, d);
    }
  }

  /** Where nothing is in flight, to agree is to show. */
  lemma CalmShows(s: System, a: Uuid, b: Uuid)
    requires Calm(s) && a in s.peers && b in s.peers && a != b && {a, b} !! s.awaiting
    ensures PairOk(s, a, b) <==> Shows(s, b, a)
  {
    assert CalmAt(s, a) && CalmAt(s, b);
  }

  // Agreement lasts --------------------------------------------------------------------------------

  lemma PairLasts(s: System, step: Step, a: Uuid, b: Uuid)
    requires Inv(s) && Enabled(s, step) && Internal(step)
    requires a in s.members && b in s.members && a != b && PairOk(s, a, b)
    ensures PairOk(Next(s, step), a, b)
  {
    assert Honest(s.peers[a]);
    PairStep(s, step, a, b);
  }

  lemma {:induction false} AgreementLasts(s: System, steps: seq<Step>, a: Uuid, b: Uuid)
    requires Reachable(s) && CanRun(s, steps) && AllInternal(steps)
    requires a in s.members && b in s.members && a != b && PairOk(s, a, b)
    ensures PairOk(Outcome(s, steps), a, b)
    decreases |steps|
  {
    if steps != [] {
      ReachableInv(s);
      PairLasts(s, steps[0], a, b);
      InternalStepKeeps(s, steps[0]);
      ReachableStep(s, steps[0]);
      AgreementLasts(Next(s, steps[0]), steps[1..], a, b);
    }
  }

  // A sender that is never heard of again was in a quiet group all along ----------------------------

  /** The members of a later quiet group that do not move before it either. */
  function StillBefore(s: System, group: set<Uuid>): set<Uuid> {
    set x | x in group && x in s.peers && !s.peers[x].move
  }

  lemma UndisturbedBefore(s: System, step: Step, group: set<Uuid>, x: Uuid, y: Uuid)
    requires Enabled(s, step) && Internal(step) && x in s.peers && !Next(s, step).peers[x].move
    requires Undisturbed(Next(s, step), group, x, y)
    ensures Undisturbed(s, StillBefore(s, group), x, y)
  {
    QueueAfter(s, step, x, y);
  }

  lemma QuietBefore(s: System, step: Step, group: set<Uuid>)
    requires Enabled(s, step) && Internal(step) && Quiet(Next(s, step), group)
    ensures Quiet(s, StillBefore(s, group))
  {
    InternalStepKeeps(s, step);
    var before := StillBefore(s, group);
    forall x, y | x in before && y in s.peers ensures Undisturbed(s, before, x, y) {
      assert Undisturbed(Next(s, step), group, x, y);
      UndisturbedBefore(s, step, group, x, y);
    }
  }

  /** If some run ends with a shown in the wrong place, or not at all, a was at rest throughout, in a
      quiet group. */
  lemma {:induction false} RestedThroughout(s: System, steps: seq<Step>, a: Uuid, b: Uuid)
    requires Reachable(s) && CanRun(s, steps) && AllInternal(steps) && |Joining(s)| <= 1
    requires a in s.members && b in s.members && a != b
    requires Stuck(Outcome(s, steps)) && !PairOk(Outcome(s, steps), a, b)
    ensures MayRest(s, a)
    decreases |steps|
  {
    if steps == [] {
      StuckIsCalm(s);
      CalmIsQuiet(s);
      MembersExist(s, a);
    } else {
      var next := Next(s, steps[0]);
      InternalStepKeeps(s, steps[0]);
      JoiningShrinks(s, next);
      ReachableStep(s, steps[0]);
      RestedThroughout(next, steps[1..], a, b);
      var group :| Quiet(next, group) && a in group;
      QuietBefore(s, steps[0], group);
      StillAtRest(s, steps, a, b);
      assert a in StillBefore(s, group);
    }
  }

  lemma MembersExist(s: System, a: Uuid)
    requires Reachable(s) && a in s.members
    ensures a in s.peers && a !in s.awaiting
  {
    ReachableInv(s);
  }

  lemma StillAtRest(s: System, steps: seq<Step>, a: Uuid, b: Uuid)
    requires Reachable(s) && CanRun(s, steps) && AllInternal(steps)
    requires a in s.members && b in s.members && a != b && !PairOk(Outcome(s, steps), a, b)
    ensures a in s.peers && !s.peers[a].move
  {
    ReachableInv(s);
    if PairOk(s, a, b) { AgreementLasts(s, steps, a, b); }
    assert Honest(s.peers[a]);
  }

  // From a quiet group the sender need not be heard of again ----------------------------------------

  /** The steps that keep a group quiet: no exit notice is handled, and a loop goes only where it must. */
  predicate Tame(s: System, step: Step) {
    && Internal(step) && !step.HandleExit?
    && (step.Reach? ==> step.c in s.peers && s.peers[step.c].handler.Ranging? && step.b in s.peers[step.c].handler.start)
  }

  lemma StaysStill(s: System, step: Step, group: set<Uuid>, x: Uuid)
    requires Served(s) && Quiet(s, group) && x in group && Enabled(s, step) && Tame(s, step)
    requires step == Handle(x) ==> s.peers[x].downlink[0].who in s.peers
    ensures !Next(s, step).peers[x].move
  {
    if step == Handle(x) {
      var who := s.peers[x].downlink[0].who;
      assert Mentions(s.peers[x].downlink, who);
      assert Undisturbed(s, group, x, who);
    }
  }

  lemma UndisturbedAfter(s: System, step: Step, group: set<Uuid>, x: Uuid, y: Uuid)
    requires Enabled(s, step) && Tame(s, step) && x in s.peers && y in s.peers
    requires Undisturbed(s, group, x, y) && (y in s.awaiting ==> s.peers[y].handler.Queued?)
    requires y in group ==> !Next(s, step).peers[y].move
    ensures Undisturbed(Next(s, step), group, x, y)
  {
    QueueAfter(s, step, x, y);
  }

  /** What one internal step does to the news of y in x's queue. */
  lemma QueueAfter(s: System, step: Step, x: Uuid, y: Uuid)
    requires Enabled(s, step) && Internal(step) && x in s.peers
    ensures Mentions(Next(s, step).peers[x].downlink, y) ==> Mentions(s.peers[x].downlink, y) || step == Deliver(y, x)
    ensures Mentions(s.peers[x].downlink, y) ==>
      Mentions(Next(s, step).peers[x].downlink, y) || (step == Handle(x) && s.peers[x].downlink[0].who == y)
    ensures step == Deliver(y, x) ==> Mentions(Next(s, step).peers[x].downlink, y)
  {
    if step == Handle(x) { LastFromDrop(s.peers[x].downlink, 1, y); }
    if step.Deliver? && step.b == x { LastFromAppend(s.peers[x].downlink, Sighting(step.c, s.peers[step.c].handler.msg), y); }
  }

  lemma QuietAfter(s: System, step: Step, group: set<Uuid>)
    requires Inv(s) && Quiet(s, group) && Enabled(s, step) && Tame(s, step)
    ensures Quiet(Next(s, step), group)
  {
    InternalStepKeeps(s, step);
    if step.Handle? { HeardOf(s, step.b); }
    forall x | x in group ensures !Next(s, step).peers[x].move { StaysStill(s, step, group, x); }
    forall x, y | x in group && y in s.peers ensures Undisturbed(Next(s, step), group, x, y) {
      assert Undisturbed(s, group, x, y);
      UndisturbedAfter(s, step, group, x, y);
    }
  }

  /** A tame step of a quiet group does not repair the pair. */
  lemma ApartAfter(s: System, step: Step, group: set<Uuid>, a: Uuid, b: Uuid)
    requires Inv(s) && Quiet(s, group) && a in group && Enabled(s, step) && Tame(s, step)
    requires a in s.members && b in s.members && a != b && !PairOk(s, a, b)
    ensures !PairOk(Next(s, step), a, b)
  {
    assert Honest(s.peers[a]);
    if step.Handle? { HeardOf(s, step.b); }
    StaysStill(s, step, group, a);
    assert Undisturbed(s, group, a, b);
    StaysApart(s, step, a, b);
  }

  lemma StaysApart(s: System, step: Step, a: Uuid, b: Uuid)
    requires Enabled(s, step) && Tame(s, step) && a in s.peers && b in s.peers && a != b && Honest(s.peers[a])
    requires b in s.members && a in s.members && !Next(s, step).peers[a].move && !PairOk(s, a, b)
    requires b in s.peers[a].players || (b !in s.awaiting && !NewsComing(s, b, a))
    ensures !PairOk(Next(s, step), a, b)
  {
    match step
    case Deliver(c, d) => ApartAfterDeliver(s, c, d, a, b);
    case Handle(_) => ApartAfterHandle(a, s.peers[a], b, s.peers[b]);
    case _ => ApartAfterServing(s, step, a, b);
  }

  lemma ApartAfterServing(s: System, step: Step, a: Uuid, b: Uuid)
    requires Enabled(s, step) && Tame(s, step) && !step.Deliver? && !step.Handle?
    requires a in s.peers && b in s.peers && a != b && Honest(s.peers[a])
    requires b in s.members && a in s.members && !PairOk(s, a, b)
    requires b in s.peers[a].players || (s.peers[b].uplink == [] && b !in s.awaiting)
    ensures !PairOk(Next(s, step), a, b)
  {
  }

  lemma ApartAfterDeliver(s: System, c: Uuid, d: Uuid, a: Uuid, b: Uuid)
    requires Enabled(s, Deliver(c, d)) && a in s.peers && b in s.peers && a != b && Honest(s.peers[a]) && !PairOk(s, a, b)
    ensures !PairOk(Next(s, Deliver(c, d)), a, b)
  {
    var p, r := s.peers[a], s.peers[b];
    var m := Sighting(c, s.peers[c].handler.msg);
    AgreeAfterAppend(a, p, b, r, m);
    if c == b && d == a { ApartAfterMeeting(a, p, b, r); }
    if c == a && d == b { SendingAgrees(a, p, b, r); }
    if c == a && d != b { AgreeAfterElsewhere(a, p, b, r, d); }
    if c == b && d != a { AgreeAfterElsewhere(a, p, b, r, d); }
  }

  lemma SendingAgrees(a: Uuid, p: Peer, b: Uuid, r: Peer)
    requires SendingTo(p.handler, b) && Honest(p)
    ensures Agree(a, p, b, r)
  {
  }

  lemma ApartAfterMeeting(a: Uuid, p: Peer, b: Uuid, r: Peer)
    requires SendingTo(r.handler, a) && !Agree(a, p, b, r)
    ensures !Agree(a, p.(downlink := p.downlink + [Sighting(b, r.handler.msg)]), b, r.(handler := Delivered(r.handler, a)))
  {
  }

  /** A delivery to a third party does not matter to the pair. */
  lemma AgreeAfterElsewhere(a: Uuid, p: Peer, b: Uuid, r: Peer, d: Uuid)
    ensures SendingTo(p.handler, d) && d != b ==>
      (Agree(a, p.(handler := Delivered(p.handler, d)), b, r) <==> Agree(a, p, b, r))
    ensures SendingTo(r.handler, d) && d != a ==>
      (Agree(a, p, b, r.(handler := Delivered(r.handler, d))) <==> Agree(a, p, b, r))
  {
  }

  lemma ApartAfterHandle(a: Uuid, p: Peer, b: Uuid, r: Peer)
    requires !Agree(a, p, b, r) && Honest(p)
    ensures r.downlink != [] ==> !Agree(a, p, b, HandleOldest(r))
    ensures p.downlink != [] && !HandleOldest(p).move ==> !Agree(a, HandleOldest(p), b, r)
  {
    if r.downlink != [] {
      var q := r.downlink;
      LastFromDrop(q, 1, a);
      MentionsLast(q, a);
      MentionsLast(q[1..], a);
      if Mentions(q, a) && !Mentions(q[1..], a) { OnlyFirst(q, a); }
    }
    if p.downlink != [] { LastFromDrop(p.downlink, 1, b); }
  }

  /** Where no tame step is left, nothing is in flight. */
  lemma TamelyStuck(s: System)
    requires Inv(s) && |Joining(s)| <= 1
    requires forall step :: Tame(s, step) ==> !Enabled(s, step)
    ensures Calm(s)
  {
    forall c | c in s.peers ensures CalmAt(s, c) {
      TameLoop(s, c);
      if c !in s.awaiting && s.peers[c].handler.Ranging? {
        var d := s.peers[c].handler.at.value;
        TameLoop(s, d);
        assert Fresh(s, d);
        TwoElements(Joining(s), d, s.peers[d].handler.at.value);
        assert false;
      }
    }
  }

  /** Without tame steps a loop can only be waiting for a joiner, and not for itself. */
  lemma TameLoop(s: System, c: Uuid)
    requires Inv(s) && c in s.peers
    requires forall step :: Tame(s, step) ==> !Enabled(s, step)
    ensures var p := s.peers[c];
      && !p.move && p.downlink == [] && (c in s.awaiting ==> p.handler.Queued?)
      && (c !in s.awaiting ==> !p.handler.Queued? && (p.handler.Idle? ==> p.uplink == []))
      && (p.handler.Ranging? ==> p.handler.at.Some? && p.handler.at.value in Joining(s) - {c} && p.handler.at.value in s.peers)
  {
    var l := s.peers[c].handler;
    assert Tame(s, Send(c)) && Tame(s, Begin(c)) && Tame(s, Finish(c)) && Tame(s, Route(c)) && Tame(s, Handle(c));
    assert LoopOk(s, c);
    if l.Ranging? {
      if l.at.None? {
        assert !Enabled(s, Finish(c));
        var b :| b in l.start && b in s.members && Wants(PeersOf(c), b) && b !in l.done;
        assert Enabled(s, Reach(c, b)) && Tame(s, Reach(c, b));
        assert false;
      } else {
        assert Tame(s, Deliver(c, l.at.value));
      }
    }
  }

  ghost predicate Apart(s: System, a: Uuid, b: Uuid) {
    a in s.members && b in s.members && a != b && !PairOk(s, a, b)
  }

  lemma TameStep(s: System, step: Step, group: set<Uuid>, a: Uuid, b: Uuid)
    requires Reachable(s) && Quiet(s, group) && a in group && Apart(s, a, b)
    requires Enabled(s, step) && Tame(s, step)
    ensures var t := Next(s, step);
      Reachable(t) && Quiet(t, group) && Apart(t, a, b) && |Joining(t)| <= |Joining(s)| && Measure(t) < Measure(s)
  {
    ReachableInv(s);
    QuietAfter(s, step, group);
    ApartAfter(s, step, group, a, b);
    InternalStepKeeps(s, step);
    JoiningShrinks(s, Next(s, step));
    StepLightens(s, step);
    ReachableStep(s, step);
  }

  /** Tame steps alone bring everything but the exit notices to an end, and the pair stays apart. */
  lemma {:induction false} TameRun(s: System, group: set<Uuid>, a: Uuid, b: Uuid) returns (t: System)
    requires Reachable(s) && |Joining(s)| <= 1
    requires Quiet(s, group) && a in group && Apart(s, a, b)
    ensures Leads(s, t) && Reachable(t) && Calm(t) && Apart(t, a, b)
    decreases Measure(s)
  {
    if step :| Tame(s, step) && Enabled(s, step) {
      TameStep(s, step, group, a, b);
      t := TameRun(Next(s, step), group, a, b);
      LeadsNowhere(s);
      LeadsOn(s, s, step);
      LeadsFar(s, Next(s, step), t);
    } else {
      ReachableInv(s);
      TamelyStuck(s);
      LeadsNowhere(s);
      t := s;
    }
  }

  /** In a calm state only exit notices are left to handle. */
  lemma CalmStep(s: System, step: Step, a: Uuid, b: Uuid)
    requires Inv(s) && Calm(s) && Apart(s, a, b) && Enabled(s, step) && Internal(step)
    ensures Calm(Next(s, step)) && Apart(Next(s, step), a, b)
  {
    var c := if step.Handle? || step.HandleExit? then step.b else step.c;
    assert CalmAt(s, c);
    assert step.HandleExit?;
    forall x | x in s.peers ensures CalmAt(Next(s, step), x) { assert CalmAt(s, x); }
    assert step.c !in s.members;
  }

  lemma {:induction false} CalmRun(s: System, a: Uuid, b: Uuid) returns (t: System)
    requires Reachable(s) && Calm(s) && Apart(s, a, b)
    ensures Leads(s, t) && Reachable(t) && Calm(t) && Apart(t, a, b) && Stuck(t)
    decreases Measure(s)
  {
    LeadsNowhere(s);
    if Stuck(s) {
      t := s;
    } else {
      var step := SomeStep(s);
      ReachableInv(s);
      CalmStep(s, step, a, b);
      t := CalmRun(Next(s, step), a, b);
      LeadsOn(s, s, step);
      LeadsFar(s, Next(s, step), t);
    }
  }

  /** A pair that is apart can stay so for good if the sender may rest. */
  lemma CanStayApart(s: System, a: Uuid, b: Uuid) returns (t: System)
    requires Reachable(s) && |Joining(s)| <= 1 && Apart(s, a, b) && MayRest(s, a)
    ensures Leads(s, t) && Stuck(t) && !Shows(t, b, a)
  {
    var group :| Quiet(s, group) && a in group;
    var u := TameRun(s, group, a, b);
    t := CalmRun(u, a, b);
    LeadsFar(s, u, t);
    MembersExist(t, a);
    MembersExist(t, b);
    CalmShows(t, a, b);
  }

  lemma EndsShowing(s: System, t: System, a: Uuid, b: Uuid)
    requires Reachable(s) && |Joining(s)| <= 1 && a in s.members && b in s.members && a != b
    requires PairOk(s, a, b) || !MayRest(s, a)
    requires Leads(s, t) && Stuck(t)
    ensures Shows(t, b, a)
  {
    LeadsKeeps(s, t);
    StuckIsCalm(t);
    MembersExist(t, a);
    MembersExist(t, b);
    CalmShows(t, a, b);
    if !PairOk(t, a, b) {
      var steps :| CanRun(s, steps) && AllInternal(steps) && Outcome(s, steps) == t;
      if PairOk(s, a, b) {
        AgreementLasts(s, steps, a, b);
      } else {
        RestedThroughout(s, steps, a, b);
      }
    }
  }

  /** Exactly when the protocol brings b to show a where a is. From any reachable state with at most
      one client being announced, and for any two members: however the protocol runs on, it ends with b
      showing a at a's own coordinates, if and only if the two agree already or a cannot rest. */
  lemma RecoversIff(s: System, a: Uuid, b: Uuid)
    requires Reachable(s) && |Joining(s)| <= 1 && a in s.members && b in s.members && a != b
    ensures (forall t :: Leads(s, t) && Stuck(t) ==> Shows(t, b, a)) <==> (PairOk(s, a, b) || !MayRest(s, a))
  {
    if PairOk(s, a, b) || !MayRest(s, a) {
      forall t | Leads(s, t) && Stuck(t) ensures Shows(t, b, a) { EndsShowing(s, t, a, b); }
    } else {
      var t := CanStayApart(s, a, b);
    }
  }
}
