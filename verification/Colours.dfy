/** Colours in the protocol. They may disagree when somebody repaints his car while positions are on
    their way; but as long as nobody does, every message and every map entry has its owner's colour. */
module Colours {
  import opened Events
  import opened Broadcast
  import opened Replication

  /** What c is sending is in c's colour. */
  predicate SendsOwn(s: System, c: Uuid)
    requires c in s.peers
  {
    var p := s.peers[c];
    && (!p.handler.Idle? ==> p.handler.msg.color == p.color)
    && forall i :: 0 <= i < |p.uplink| ==> p.uplink[i].color == p.color
  }

  /** What has reached x of c, and what x shows of c, is in c's colour. */
  predicate SeenTrue(s: System, c: Uuid, x: Uuid)
    requires c in s.peers && x in s.peers
  {
    var r := s.peers[x];
    && (forall i :: 0 <= i < |r.downlink| && r.downlink[i].who == c ==> r.downlink[i].car.color == s.peers[c].color)
    && (c in r.players ==> r.players[c].color == s.peers[c].color)
  }

  predicate ColoursTrue(s: System) {
    && (forall c :: c in s.peers ==> SendsOwn(s, c))
    && (forall c, x :: c in s.peers && x in s.peers ==> SeenTrue(s, c, x))
  }

  predicate Unpainted(steps: seq<Step>) {
    forall i :: 0 <= i < |steps| ==> !steps[i].Paint? && !steps[i].Repainted?
  }

  lemma SendsOwnStep(s: System, step: Step, c: Uuid)
    requires Enabled(s, step) && !step.Paint? && !step.Repainted? && c in Next(s, step).peers
    requires c in s.peers ==> SendsOwn(s, c)
    ensures SendsOwn(Next(s, step), c)
  {
  }

  /** A new client has not been seen, and sees nobody. */
  lemma SeenNew(s: System, c: Uuid, color: Color, a: Uuid, x: Uuid)
    requires Enabled(s, Connect(c, color)) && Unheard(s, c) && (a == c || x == c)
    requires a in Next(s, Connect(c, color)).peers && x in Next(s, Connect(c, color)).peers
    ensures SeenTrue(Next(s, Connect(c, color)), a, x)
  {
    if x != c && x in s.peers {
      forall i | 0 <= i < |s.peers[x].downlink| ensures s.peers[x].downlink[i].who != c {
        assert !Mentions(s.peers[x].downlink, c);
      }
    }
  }

  /** The steps that change a position queue. */
  lemma SeenQueueStep(s: System, step: Step, c: Uuid, x: Uuid)
    requires Enabled(s, step) && (step.Deliver? || step.Handle? || step.Drop?) && c in s.peers && x in s.peers
    requires SendsOwn(s, c) && SeenTrue(s, c, x)
    ensures SeenTrue(Next(s, step), c, x)
  {
  }

  lemma SeenOtherStep(s: System, step: Step, c: Uuid, x: Uuid)
    requires Enabled(s, step) && !step.Deliver? && !step.Handle? && !step.Drop? && !step.Paint? && !step.Repainted?
    requires c in s.peers && x in s.peers && SeenTrue(s, c, x)
    ensures SeenTrue(Next(s, step), c, x)
  {
  }

  lemma ColoursStep(s: System, step: Step)
    requires Scoped(s) && ColoursTrue(s) && Enabled(s, step) && !step.Paint? && !step.Repainted?
    ensures ColoursTrue(Next(s, step))
  {
    var t := Next(s, step);
    forall c | c in t.peers ensures SendsOwn(t, c) { SendsOwnStep(s, step, c); }
    forall c, x | c in t.peers && x in t.peers ensures SeenTrue(t, c, x) {
      if step.Connect? && (c == step.c || x == step.c) {
        assert Unheard(s, step.c);
        SeenNew(s, step.c, step.color, c, x);
      } else {
        if step.Deliver? || step.Handle? || step.Drop? { SeenQueueStep(s, step, c, x); } else { SeenOtherStep(s, step, c, x); }
      }
    }
  }

  /** Over any run in which nobody paints his car, what anybody shows of anybody is in the right colour,
      and so is everything on its way. */
  lemma {:induction false} ColoursStayTrue(s: System, steps: seq<Step>)
    requires Reachable(s) && ColoursTrue(s) && CanRun(s, steps) && Unpainted(steps)
    ensures ColoursTrue(Outcome(s, steps))
    decreases |steps|
  {
    if steps != [] {
      ReachableInv(s);
      ColoursStep(s, steps[0]);
      ReachableStep(s, steps[0]);
      ColoursStayTrue(Next(s, steps[0]), steps[1..]);
    }
  }

  /** A client that paints its car announces the new colour with its next position. */
  lemma PaintIsSent(s: System, c: Uuid, color: Color)
    requires c in s.peers && s.peers[c].move
    ensures Enabled(s, Paint(c, color)) && Enabled(Next(s, Paint(c, color)), Send(c))
    ensures Next(Next(s, Paint(c, color)), Send(c)).peers[c].uplink == s.peers[c].uplink + [Car(s.peers[c].at, color)]
  {
  }

  /** With nothing in flight, agreement is then agreement on the whole car. */
  lemma CarsAgree(steps: seq<Step>, a: Uuid, b: Uuid)
    requires CanRun(INIT, steps) && Unpainted(steps)
    requires var s := Outcome(INIT, steps);
      && a in s.members && b in s.members && a != b && (a, b) !in s.spoiled && Settled(s, a, b) && Settled(s, b, a)
    ensures var s := Outcome(INIT, steps);
      a in s.peers[b].players && s.peers[b].players[a] == Car(s.peers[a].at, s.peers[a].color)
  {
    assert CanRun(INIT, []) && Outcome(INIT, []) == INIT;
    var s := Outcome(INIT, steps);
    ColoursStayTrue(INIT, steps);
    PairConverges(s, a, b);
    assert SeenTrue(s, a, b);
  }
}
