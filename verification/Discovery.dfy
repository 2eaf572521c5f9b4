/** Discovery terminates. With the membership fixed and nobody pressing keys, the protocol's own
    steps (sending, routing, fanning out, handling) cannot go on for ever.
    Where they end is another matter. The peer loops send on unbuffered channels, and a joiner's
    channel is read only after its own announcement has been sent to everybody: with at most one
    such joiner every run ends in agreement, with two the announcements may wait on each other. */
module Discovery {
  import opened Events
  import opened Broadcast
  import opened ProtocolMeasure
  import opened Replication
  import opened Sums

  predicate AllInternal(steps: seq<Step>) {
    forall i :: 0 <= i < |steps| ==> Internal(steps[i])
  }

  /** No run of internal steps from s is longer than the measure of s. */
  lemma {:induction false} DiscoveryTerminates(s: System, steps: seq<Step>)
    requires Reachable(s) && CanRun(s, steps) && AllInternal(steps)
    ensures Reachable(Outcome(s, steps))
    ensures |steps| + Measure(Outcome(s, steps)) <= Measure(s)
    decreases |steps|
  {
    if steps != [] {
      StepLightens(s, steps[0]);
      ReachableStep(s, steps[0]);
      DiscoveryTerminates(Next(s, steps[0]), steps[1..]);
    }
  }

  ghost predicate Stuck(s: System) {
    forall step :: Internal(step) ==> !Enabled(s, step)
  }

  // Where runs end ----------------------------------------------------------------------------------

  /** The members that are still being announced. */
  ghost function Joining(s: System): set<Uuid> { s.members - s.serving }

  ghost predicate WaitsIn(s: System, c: Uuid, w: set<Uuid>) {
    c in s.peers && s.peers[c].handler.Ranging? && s.peers[c].handler.at.Some? && s.peers[c].handler.at.value in w
  }

  /** Joiners each of whose announcements waits for the channel of one among them. */
  ghost predicate Blocked(s: System, w: set<Uuid>) {
    w != {} && w <= Joining(s) && forall c {:trigger WaitsIn(s, c, w)} :: c in w ==> WaitsIn(s, c, w)
  }

  /** In a stuck state only a peer loop can be unfinished, and it waits for a joiner. */
  lemma StuckLoop(s: System, c: Uuid)
    requires Inv(s) && Stuck(s) && c in s.peers && c !in s.awaiting
    ensures var p := s.peers[c];
      !p.move && p.downlink == [] && (p.handler.Idle? ==> p.uplink == [])
      && (!p.handler.Idle? ==> p.handler.Ranging? && p.handler.at.Some? && p.handler.at.value in Joining(s))
  {
    var l := s.peers[c].handler;
    assert !Enabled(s, Send(c)) && !Enabled(s, Begin(c)) && !Enabled(s, Finish(c));
    assert !Enabled(s, Route(c)) && !Enabled(s, Handle(c));
    assert LoopOk(s, c);
    if l.Ranging? {
      if l.at.None? {
        var b :| b in l.start && b in s.members && Wants(PeersOf(c), b) && b !in l.done;
        assert Enabled(s, Reach(c, b)) && Internal(Reach(c, b));
        assert false;
      } else {
        assert !Enabled(s, Deliver(c, l.at.value)) && Internal(Deliver(c, l.at.value));
      }
    }
  }

  lemma StuckJoiner(s: System, c: Uuid)
    requires Inv(s) && Stuck(s) && c in Joining(s)
    ensures WaitsIn(s, c, Joining(s))
  {
    assert c in s.members && Fresh(s, c);
    StuckLoop(s, c);
  }

  lemma StuckBusy(s: System)
    requires Inv(s) && Stuck(s) && !Quiescent(s)
    ensures Blocked(s, Joining(s))
  {
    var c :| c in s.members && !(!s.peers[c].move && s.peers[c].uplink == [] && s.peers[c].handler.Idle? && s.peers[c].downlink == []);
    StuckLoop(s, c);
    forall d | d in Joining(s) ensures WaitsIn(s, d, Joining(s)) { StuckJoiner(s, d); }
  }

  lemma BlockedIsBusy(s: System, w: set<Uuid>)
    requires Blocked(s, w)
    ensures !Quiescent(s)
  {
    var c :| c in w;
    assert WaitsIn(s, c, w);
    assert c in s.members;
  }

  /** A run that stops has come to rest, or some joiners wait for each other. */
  lemma StuckIffBlocked(s: System)
    requires Reachable(s) && Stuck(s)
    ensures Quiescent(s) <==> !exists w :: Blocked(s, w)
    ensures !Quiescent(s) ==> Blocked(s, Joining(s))
  {
    if Quiescent(s) {
      forall w | Blocked(s, w) ensures false { BlockedIsBusy(s, w); }
    } else {
      ReachableInv(s);
      StuckBusy(s);
    }
  }

  /** Nobody sends to himself, so one joiner alone cannot be blocked. */
  lemma BlockedByTwo(s: System, w: set<Uuid>)
    requires Served(s) && Blocked(s, w)
    ensures |Joining(s)| >= 2
  {
    var c :| c in w;
    assert WaitsIn(s, c, w) && LoopOk(s, c);
    TwoElements(Joining(s), c, s.peers[c].handler.at.value);
  }

  /** With at most one joiner nothing can be waiting for ever. */
  lemma StuckIsQuiescent(s: System)
    requires Reachable(s) && Stuck(s) && |Joining(s)| <= 1
    ensures Quiescent(s)
  {
    StuckIffBlocked(s);
    if !Quiescent(s) {
      ReachableInv(s);
      BlockedByTwo(s, Joining(s));
    }
  }

  /** Nothing anybody does ever frees joiners that wait for each other. */
  lemma BlockedForEver(s: System, step: Step, w: set<Uuid>)
    requires s.members !! s.awaiting && Blocked(s, w) && Enabled(s, step)
    ensures Blocked(Next(s, step), w)
  {
    forall c | c in w
      ensures c in Joining(Next(s, step)) && WaitsIn(Next(s, step), c, w)
    {
      assert c in s.members && c !in s.serving && WaitsIn(s, c, w);
      StaysBlocked(s, step, c);
    }
  }

  /** A loop at the channel of a joiner stays there. */
  lemma StaysBlocked(s: System, step: Step, c: Uuid)
    requires Enabled(s, step) && c in s.peers && c in s.members && c !in s.awaiting && c !in s.serving
    requires s.peers[c].handler.Ranging? && s.peers[c].handler.at.Some? && s.peers[c].handler.at.value !in s.serving
    ensures c in Next(s, step).members && c !in Next(s, step).serving
    ensures c in Next(s, step).peers && Next(s, step).peers[c].handler == s.peers[c].handler
  {
  }

  /** A state that is not stuck has an internal step, which leads to a lighter reachable state. */
  lemma SomeStep(s: System) returns (step: Step)
    requires Reachable(s) && !Stuck(s)
    ensures Internal(step) && Enabled(s, step)
    ensures Reachable(Next(s, step)) && Measure(Next(s, step)) < Measure(s)
  {
    step :| Internal(step) && Enabled(s, step);
    StepLightens(s, step);
    ReachableStep(s, step);
  }

  lemma RunPrepend(s: System, step: Step, rest: seq<Step>)
    requires Enabled(s, step) && Internal(step) && CanRun(Next(s, step), rest) && AllInternal(rest)
    ensures CanRun(s, [step] + rest) && Outcome(s, [step] + rest) == Outcome(Next(s, step), rest)
    ensures AllInternal([step] + rest)
  {
    PROTOCOL.Prepend(s, step, rest);
  }

  /** From every reachable state some internal run leads to where none can continue. */
  lemma {:induction false} ReachesStuck(s: System) returns (steps: seq<Step>)
    requires Reachable(s)
    ensures CanRun(s, steps) && AllInternal(steps) && Stuck(Outcome(s, steps))
    decreases Measure(s)
  {
    if Stuck(s) {
      steps := [];
    } else {
      var step := SomeStep(s);
      var rest := ReachesStuck(Next(s, step));
      RunPrepend(s, step, rest);
      steps := [step] + rest;
    }
  }

  /** Some internal run leads from s to t. */
  ghost predicate Leads(s: System, t: System) {
    exists steps :: CanRun(s, steps) && AllInternal(steps) && Outcome(s, steps) == t
  }

  lemma LeadsOn(s: System, t: System, step: Step)
    requires Leads(s, t) && Enabled(t, step) && Internal(step)
    ensures Leads(s, Next(t, step))
  {
    var steps :| CanRun(s, steps) && AllInternal(steps) && Outcome(s, steps) == t;
    PROTOCOL.RunOne(t, step);
    PROTOCOL.Chain(s, steps, [step]);
    assert AllInternal(steps + [step]);
  }

  lemma LeadsFar(s: System, t: System, u: System)
    requires Leads(s, t) && Leads(t, u)
    ensures Leads(s, u)
  {
    var first :| CanRun(s, first) && AllInternal(first) && Outcome(s, first) == t;
    var second :| CanRun(t, second) && AllInternal(second) && Outcome(t, second) == u;
    PROTOCOL.Chain(s, first, second);
    assert AllInternal(first + second);
  }

  lemma LeadsNowhere(s: System)
    ensures Leads(s, s)
  {
    assert CanRun(s, []) && Outcome(s, []) == s && AllInternal([]);
  }

  /** Internal steps leave the membership alone and only ever start serving somebody. */
  lemma {:induction false} InternalKeeps(s: System, steps: seq<Step>)
    requires CanRun(s, steps) && AllInternal(steps)
    ensures var t := Outcome(s, steps);
      && t.members == s.members && t.awaiting == s.awaiting && t.peers.Keys == s.peers.Keys
      && s.serving <= t.serving && t.spoiled <= s.spoiled
      && forall x :: x in s.peers ==> t.peers[x].at == s.peers[x].at
    decreases |steps|
  {
    if steps != [] {
      InternalStepKeeps(s, steps[0]);
      InternalKeeps(Next(s, steps[0]), steps[1..]);
    }
  }

  lemma InternalStepKeeps(s: System, step: Step)
    requires Enabled(s, step) && Internal(step)
    ensures var t := Next(s, step);
      && t.members == s.members && t.awaiting == s.awaiting && t.peers.Keys == s.peers.Keys
      && s.serving <= t.serving && t.spoiled <= s.spoiled
      && forall x :: x in s.peers ==> t.peers[x].at == s.peers[x].at
  {
  }

  lemma JoiningShrinks(s: System, t: System)
    requires t.members == s.members && s.serving <= t.serving
    ensures |Joining(t)| <= |Joining(s)|
  {
    Subset(Joining(t), Joining(s));
  }

  /** What every internal run leaves alone. */
  lemma LeadsKeeps(s: System, t: System)
    requires Reachable(s) && Leads(s, t)
    ensures Reachable(t) && t.members == s.members && t.awaiting == s.awaiting && t.peers.Keys == s.peers.Keys
    ensures s.serving <= t.serving && t.spoiled <= s.spoiled && |Joining(t)| <= |Joining(s)|
    ensures forall x :: x in s.peers ==> t.peers[x].at == s.peers[x].at
  {
    var steps :| CanRun(s, steps) && AllInternal(steps) && Outcome(s, steps) == t;
    DiscoveryTerminates(s, steps);
    InternalKeeps(s, steps);
    JoiningShrinks(s, t);
  }

  /** From any reachable state with at most one client being announced, once no client joins, leaves
      or moves: the protocol runs for at most `Measure` steps whichever way it is scheduled, and
      wherever it then stops every member shows every other member where that one is. */
  lemma DiscoveryConverges(s: System, steps: seq<Step>)
    requires Reachable(s) && CanRun(s, steps) && AllInternal(steps)
    ensures |steps| <= Measure(s)
    ensures Stuck(Outcome(s, steps)) && |Joining(s)| <= 1 ==> Quiescent(Outcome(s, steps)) && Converged(Outcome(s, steps))
  {
    DiscoveryTerminates(s, steps);
    InternalKeeps(s, steps);
    JoiningShrinks(s, Outcome(s, steps));
    if Stuck(Outcome(s, steps)) && |Joining(s)| <= 1 {
      StuckIsQuiescent(Outcome(s, steps));
      QuiescentConverges(Outcome(s, steps));
    }
  }
}
