/** Overlapping joins. A joiner announces itself from the connection handler, before its own write
    goroutine exists, and every send waits for the receiver's write goroutine. So two joiners can wait
    for each other for ever; and that two are joining at once is exactly what it takes. */
module JoinDeadlock {
  import opened Events
  import opened Broadcast
  import opened Replication
  import opened Discovery
  import opened ProtocolMeasure
  import opened Sums

  /** v's announcement is at the channel of another joiner. */
  ghost predicate Waits(s: System, v: Uuid) {
    WaitsIn(s, v, Joining(s))
  }

  ghost function Running(s: System): set<Uuid> {
    set v | v in Joining(s) && v in s.peers && !Waits(s, v)
  }

  /** Nothing changed but v's loop and what it delivered. */
  ghost predicate OnlyLoop(s: System, t: System, v: Uuid) {
    && t.members == s.members && t.serving == s.serving && t.awaiting == s.awaiting && t.peers.Keys == s.peers.Keys
    && forall x :: x in s.peers && x != v ==> t.peers[x].handler == s.peers[x].handler
  }

  /** What the invariant says of one joiner. */
  lemma JoinerState(s: System, v: Uuid)
    requires Reachable(s) && v in Joining(s)
    ensures v in s.peers && v !in s.awaiting && v in s.members && v !in s.serving
    ensures s.peers[v].downlink == [] && s.peers[v].players == map[] && s.peers[v].handler != Idle
    ensures var l := s.peers[v].handler; l.Ranging? ==>
      && l.done <= s.serving
      && (l.at.Some? ==> l.at.value in s.peers && l.at.value != v && (l.at.value in s.serving || l.at.value in s.members))
  {
    ReachableInv(s);
    assert v in s.members && Fresh(s, v) && LoopOk(s, v);
  }

  lemma MembersNotAwaiting(s: System)
    requires Reachable(s)
    ensures s.members !! s.awaiting && s.members <= s.peers.Keys && s.awaiting <= s.peers.Keys
  {
    ReachableInv(s);
  }

  /** A joiner that is not sending to anybody can come to any other joiner next. */
  lemma ComeTo(s: System, v: Uuid, w: Uuid) returns (t: System)
    requires v in Joining(s) && w in Joining(s) && v != w && v in s.peers
    requires s.peers[v].handler.Ranging? && s.peers[v].handler.at.None? && s.peers[v].handler.done <= s.serving
    ensures Leads(s, t) && OnlyLoop(s, t, v) && Waits(t, v)
  {
    assert w !in s.peers[v].handler.done;
    t := Next(s, Reach(v, w));
    LeadsNowhere(s);
    LeadsOn(s, s, Reach(v, w));
  }

  /** A joiner that has not begun, or is sending to somebody whose goroutines run, can go on. */
  lemma Free(s: System, v: Uuid) returns (t: System)
    requires Reachable(s) && v in Running(s) && !(s.peers[v].handler.Ranging? && s.peers[v].handler.at.None?)
    ensures Leads(s, t) && OnlyLoop(s, t, v)
    ensures t.peers[v].handler.Ranging? && t.peers[v].handler.at.None? && t.peers[v].handler.done <= t.serving
  {
    JoinerState(s, v);
    var l := s.peers[v].handler;
    var step := if l.Queued? then Begin(v) else Deliver(v, l.at.value);
    t := Next(s, step);
    LeadsNowhere(s);
    LeadsOn(s, s, step);
  }

  /** Any joiner can be brought to wait for any other. */
  lemma MakeWait(s: System, v: Uuid, w: Uuid) returns (t: System)
    requires Reachable(s) && v in Running(s) && w in Joining(s) && v != w
    ensures Leads(s, t) && OnlyLoop(s, t, v) && Waits(t, v)
  {
    JoinerState(s, v);
    var l := s.peers[v].handler;
    if l.Ranging? && l.at.None? {
      t := ComeTo(s, v, w);
    } else {
      var u := Free(s, v);
      t := ComeTo(u, v, w);
      LeadsFar(s, u, t);
    }
  }

  lemma NobodyRuns(s: System)
    requires Reachable(s) && Running(s) == {} && Joining(s) != {}
    ensures Blocked(s, Joining(s))
  {
    forall c | c in Joining(s)
      ensures c in s.peers && Waits(s, c)
    {
      JoinerState(s, c);
      assert c !in Running(s);
    }
  }

  lemma OneMoreWaits(s: System) returns (t: System)
    requires Reachable(s) && |Joining(s)| >= 2 && Running(s) != {}
    ensures Leads(s, t) && Joining(t) == Joining(s) && |Running(t)| < |Running(s)|
  {
    var v :| v in Running(s);
    OneFewer(Joining(s), v);
    var w :| w in Joining(s) - {v};
    t := MakeWait(s, v, w);
    assert Joining(t) == Joining(s);
    assert Running(t) == Running(s) - {v};
    OneFewer(Running(s), v);
  }

  /** With two or more joiners, all of them can be brought to wait. */
  lemma {:induction false} AllWait(s: System) returns (t: System)
    requires Reachable(s) && |Joining(s)| >= 2
    ensures Leads(s, t) && Joining(t) == Joining(s) && Blocked(t, Joining(t))
    decreases |Running(s)|
  {
    if Running(s) == {} {
      t := s;
      LeadsNowhere(s);
      NobodyRuns(s);
    } else {
      var u := OneMoreWaits(s);
      LeadsKeeps(s, u);
      t := AllWait(u);
      LeadsFar(s, u, t);
    }
  }

  ghost predicate Doomed(s: System, w: set<Uuid>) {
    SetsApart(s) && Blocked(s, w)
  }

  ghost predicate SetsApart(s: System) {
    s.members !! s.awaiting && s.members <= s.peers.Keys && s.awaiting <= s.peers.Keys
  }

  lemma SetsApartNext(s: System, step: Step)
    requires SetsApart(s) && Enabled(s, step)
    ensures SetsApart(Next(s, step))
  {
  }

  lemma DoomedNext(s: System, step: Step, w: set<Uuid>)
    requires Doomed(s, w) && Enabled(s, step)
    ensures Doomed(Next(s, step), w)
  {
    SetsApartNext(s, step);
    BlockedForEver(s, step, w);
  }

  /** Whatever happens later, they stay blocked. */
  lemma {:induction false} DoomedAlong(s: System, steps: seq<Step>, w: set<Uuid>)
    requires CanRun(s, steps) && Doomed(s, w)
    ensures Doomed(Outcome(s, steps), w)
    decreases |steps|
  {
    if steps != [] {
      DoomedNext(s, steps[0], w);
      DoomedAlong(Next(s, steps[0]), steps[1..], w);
    }
  }

  lemma BlockedToTheEnd(s: System, w: set<Uuid>) returns (t: System)
    requires Reachable(s) && Blocked(s, w)
    ensures Leads(s, t) && Stuck(t) && Blocked(t, w)
  {
    MembersNotAwaiting(s);
    var steps := ReachesStuck(s);
    t := Outcome(s, steps);
    DoomedAlong(s, steps, w);
  }

  lemma JoinersShowNobody(s: System)
    requires Reachable(s)
    ensures forall v, b :: v in Joining(s) ==> !Shows(s, v, b)
  {
    forall v, b | v in Joining(s) ensures !Shows(s, v, b) {
      JoinerState(s, v);
    }
  }

  /** With two or more joiners some internal run ends with all of them waiting for each other. None of
      them then shows anybody. */
  lemma JoinersCanBlock(s: System) returns (t: System)
    requires Reachable(s) && |Joining(s)| >= 2
    ensures Leads(s, t) && Stuck(t) && Blocked(t, Joining(s)) && !Quiescent(t)
    ensures forall v, b :: v in Joining(s) ==> !Shows(t, v, b)
  {
    var u := AllWait(s);
    LeadsKeeps(s, u);
    t := BlockedToTheEnd(u, Joining(u));
    LeadsFar(s, u, t);
    LeadsKeeps(u, t);
    BlockedIsBusy(t, Joining(u));
    JoinersShowNobody(t);
  }

  /** Exactly when the protocol always comes to rest: from a reachable state every way of running it
      ends with nothing in flight if and only if at most one client is being announced. */
  lemma ComesToRestIff(s: System)
    requires Reachable(s)
    ensures (forall t :: Leads(s, t) && Stuck(t) ==> Quiescent(t)) <==> |Joining(s)| <= 1
  {
    if |Joining(s)| <= 1 {
      forall t | Leads(s, t) && Stuck(t) ensures Quiescent(t) {
        LeadsKeeps(s, t);
        StuckIsQuiescent(t);
      }
    } else {
      var t := JoinersCanBlock(s);
    }
  }

  /** One more client connects and is added; its announcement has not begun. */
  lemma JoinOne(s: System, c: Uuid) returns (t: System)
    requires Reachable(s) && c !in s.peers && s.awaiting == {}
    ensures Reachable(t) && t.awaiting == {} && t.members == s.members + {c} && t.peers.Keys == s.peers.Keys + {c}
    ensures t.serving == s.serving && t.spoiled == s.spoiled
    ensures t.peers[c].at == ORIGIN && forall x :: x in s.peers ==> t.peers[x] == s.peers[x]
  {
    var s1 := Next(s, Connect(c, ""));
    ReachableStep(s, Connect(c, ""));
    t := Next(s1, Add(c));
    ReachableStep(s1, Add(c));
  }

  lemma TwoJoined(a: Uuid, b: Uuid) returns (s: System)
    requires a != b
    ensures Reachable(s) && s.members == {a, b} && Joining(s) == {a, b}
  {
    assert CanRun(INIT, []) && Outcome(INIT, []) == INIT;
    var s1 := JoinOne(INIT, a);
    s := JoinOne(s1, b);
  }

  /** Two clients that join at once: a reachable state in which neither announcement can go on,
      nothing else can happen by itself, and neither will ever see the other. */
  lemma TwoJoinersBlock(a: Uuid, b: Uuid) returns (t: System)
    requires a != b
    ensures Reachable(t) && t.members == {a, b} && Stuck(t) && Blocked(t, {a, b}) && !Quiescent(t)
    ensures !Shows(t, a, b) && !Shows(t, b, a)
  {
    var s := TwoJoined(a, b);
    TwoElements(Joining(s), a, b);
    t := JoinersCanBlock(s);
    LeadsKeeps(s, t);
  }
}
