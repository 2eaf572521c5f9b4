/** What a batch pass can cost. A pass drops the oldest half of the position queue in the belief that
    losing a few positions does not matter. Here is exactly when it does not: first as what the client
    that makes the pass can read off its own queue and map, then as what becomes of it in the end; and
    a reachable run that ends with a player shown in the wrong place and nothing in flight. */
module BatchLoss {
  import opened Events
  import opened Broadcast
  import opened Replication
  import opened Discovery
  import opened ProtocolMeasure
  import opened Sums
  import opened JoinDeadlock
  import opened Recovery

  /** The peer once it has handled all that is left in its downlink. */
  ghost function Drained(p: Peer): Peer
    decreases |p.downlink|
  {
    if p.downlink == [] then p else Drained(HandleOldest(p))
  }

  /** Handling a queue leaves each player at its newest position in it. */
  lemma {:induction false} DrainedPlayers(p: Peer, a: Uuid)
    ensures var d := Drained(p).players;
      if Mentions(p.downlink, a) then a in d && LastFrom(p.downlink, a) == Some(d[a].at)
      else (a in d <==> a in p.players) && (a in d ==> d[a] == p.players[a])
    decreases |p.downlink|
  {
    if p.downlink != [] {
      var q := p.downlink;
      DrainedPlayers(HandleOldest(p), a);
      LastFromDrop(q, 1, a);
      if Mentions(q, a) && !Mentions(q[1..], a) { OnlyFirst(q, a); }
    }
  }

  // The pair right after the pass ------------------------------------------------------------------

  /** What r believes of a after dropping its k oldest positions: a pass is harmless for a player if
      more of it is certain to come, if a is certain to meet r and answer, or if r loses no news of a
      that it does not show already. */
  lemma ReceiverKeepsIff(a: Uuid, p: Peer, b: Uuid, r: Peer, k: nat)
    requires Agree(a, p, b, r) && Honest(p) && k <= |r.downlink|
    ensures Agree(a, p, b, r.(downlink := r.downlink[k..])) <==>
            (p.move || p.uplink != [] || WillReach(p.handler, b) || WillMeet(a, p, b, r) || a !in Harmed(r, k))
  {
    LastFromDrop(r.downlink, k, a);
    MentionsLast(r.downlink, a);
    MentionsLast(r.downlink[k..], a);
  }

  /** What b believes of p after p drops its k oldest positions: the pass matters if p was to answer b
      and has now lost the only news of b. */
  lemma SenderKeepsIff(a: Uuid, p: Peer, b: Uuid, r: Peer, k: nat)
    requires Agree(a, p, b, r) && k <= |p.downlink|
    ensures Agree(a, p.(downlink := p.downlink[k..]), b, r) <==>
            (Believed(a, p, b, r) == Some(p.at) || WillReach(r.handler, a) || b !in Harmed(p, k))
  {
    LastFromDrop(p.downlink, k, b);
  }

  /** The pass at c leaves the pair (a, b) in agreement. */
  predicate PassAgrees(s: System, c: Uuid, k: nat, a: Uuid, b: Uuid)
    requires c in s.peers && k <= |s.peers[c].downlink| && a in s.peers && b in s.peers
  {
    var p, r := s.peers[a], s.peers[b];
    && (c == b ==> p.move || p.uplink != [] || WillReach(p.handler, b) || WillMeet(a, p, b, r) || a !in Harmed(r, k))
    && (c == a ==> Believed(a, p, b, r) == Some(p.at) || WillReach(r.handler, a) || b !in Harmed(p, k))
  }

  lemma PassAgreesIff(s: System, c: Uuid, k: nat, a: Uuid, b: Uuid)
    requires Reachable(s) && Enabled(s, Drop(c, k)) && a in s.peers && b in s.peers && a != b && PairOk(s, a, b)
    ensures PairOk(Next(s, Drop(c, k)), a, b) <==> PassAgrees(s, c, k, a, b)
  {
    ReachableInv(s);
    assert Honest(s.peers[a]);
    if c == b { ReceiverKeepsIff(a, s.peers[a], b, s.peers[b], k); }
    if c == a { SenderKeepsIff(a, s.peers[a], b, s.peers[b], k); }
  }

  /** Exactly when a pass is harmless to a pair in agreement, at whichever client it happens: however
      the protocol runs on, it ends with b showing a where a is, if and only if the pass leaves them in
      agreement or a is still certain to announce itself. */
  lemma DropHarmlessIff(s: System, c: Uuid, k: nat, a: Uuid, b: Uuid)
    requires Reachable(s) && |Joining(s)| <= 1 && Enabled(s, Drop(c, k))
    requires a in s.members && b in s.members && a != b && {a, b} <= s.peers.Keys && PairOk(s, a, b)
    ensures (forall t :: Leads(Next(s, Drop(c, k)), t) && Stuck(t) ==> Shows(t, b, a))
      <==> (PassAgrees(s, c, k, a, b) || !MayRest(Next(s, Drop(c, k)), a))
  {
    PassAgreesIff(s, c, k, a, b);
    ReachableStep(s, Drop(c, k));
    RecoversIff(Next(s, Drop(c, k)), a, b);
  }

  // A run in which a pass does harm ----------------------------------------------------------------

  /** Three members, all served, and nobody else. */
  predicate Trio(s: System, x: Uuid, y: Uuid, z: Uuid) {
    && x != y && y != z && x != z
    && s.members == {x, y, z} && s.peers.Keys == {x, y, z} && s.serving == {x, y, z} && s.awaiting == {}
    && s.spoiled == {}
  }

  /** Everybody knows everybody, and nobody is about to announce himself. */
  predicate Acquainted(s: System) {
    && (forall x :: x in s.peers ==> !s.peers[x].move)
    && (forall x, y :: x in s.peers && y in s.peers && x != y ==> y in s.peers[x].players)
  }

  lemma ConvergedAcquainted(s: System)
    requires Converged(s) && Quiescent(s) && s.spoiled == {} && s.members == s.peers.Keys
    ensures Acquainted(s)
  {
    forall x, y | x in s.peers && y in s.peers && x != y ensures y in s.peers[x].players {
      assert Shows(s, x, y);
    }
  }

  lemma StillAcquainted(s: System, t: System)
    requires Acquainted(s) && s.peers.Keys == t.peers.Keys
    requires forall x :: x in s.peers ==> t.peers[x].players == s.peers[x].players && t.peers[x].move == s.peers[x].move
    ensures Acquainted(t)
  {
  }

  predicate AtRest(p: Peer) {
    !p.move && p.uplink == [] && p.handler.Idle?
  }

  function Arriving(p: Peer, m: Sighting): Peer {
    p.(downlink := p.downlink + [m])
  }

  /** x moves and the server tells y and z. */
  lemma MoveAndTell(s: System, x: Uuid, y: Uuid, z: Uuid, keys: Keys) returns (t: System)
    requires Reachable(s) && Trio(s, x, y, z) && AtRest(s.peers[x])
    requires Steer(s.peers[x].at, keys).1
    ensures Reachable(t) && Trio(t, x, y, z)
    ensures var to := Steer(s.peers[x].at, keys).0; var m := Sighting(x, Car(to, s.peers[x].color));
      && t.peers[x] == s.peers[x].(at := to)
      && t.peers[y] == Arriving(s.peers[y], m) && t.peers[z] == Arriving(s.peers[z], m)
  {
    var s1 := MoveUp(s, x, keys);
    var s2 := Next(s1, Begin(x));
    ReachableStep(s1, Begin(x));
    var s3 := TellOne(s2, x, y);
    var s4 := TellOne(s3, x, z);
    t := Next(s4, Finish(x));
    ReachableStep(s4, Finish(x));
  }

  /** ... which makes no new acquaintances. */
  lemma MoveAndTellFriends(s: System, x: Uuid, y: Uuid, z: Uuid, keys: Keys) returns (t: System)
    requires Reachable(s) && Trio(s, x, y, z) && AtRest(s.peers[x]) && Acquainted(s)
    requires Steer(s.peers[x].at, keys).1
    ensures Reachable(t) && Trio(t, x, y, z) && Acquainted(t)
    ensures var to := Steer(s.peers[x].at, keys).0; var m := Sighting(x, Car(to, s.peers[x].color));
      && t.peers[x] == s.peers[x].(at := to)
      && t.peers[y] == Arriving(s.peers[y], m) && t.peers[z] == Arriving(s.peers[z], m)
  {
    t := MoveAndTell(s, x, y, z, keys);
    forall w | w in s.peers
      ensures t.peers[w].players == s.peers[w].players && t.peers[w].move == s.peers[w].move
    {
      assert w == x || w == y || w == z;
    }
    StillAcquainted(s, t);
  }

  /** The client's part: the move reaches the read goroutine. */
  lemma MoveUp(s: System, x: Uuid, keys: Keys) returns (t: System)
    requires Reachable(s) && x in s.peers && AtRest(s.peers[x]) && Steer(s.peers[x].at, keys).1 && s.spoiled == {}
    ensures Reachable(t)
    ensures var to := Steer(s.peers[x].at, keys).0;
      t == Put(s, x, s.peers[x].(at := to, handler := Queued(Car(to, s.peers[x].color))))
  {
    var s1 := Next(s, Press(x, keys));
    ReachableStep(s, Press(x, keys));
    var s2 := Next(s1, Send(x));
    ReachableStep(s1, Send(x));
    t := Next(s2, Route(x));
    ReachableStep(s2, Route(x));
    var to := Steer(s.peers[x].at, keys).0;
    assert s2.peers[x].uplink == [Car(to, s.peers[x].color)];
    assert t.peers[x] == s.peers[x].(at := to, handler := Queued(Car(to, s.peers[x].color)));
  }

  /** The server's part: the loop comes to y, and y's write goroutine takes the message. */
  lemma TellOne(s: System, x: Uuid, y: Uuid) returns (t: System)
    requires Reachable(s) && x in s.peers && y in s.peers && x != y && y in s.members && y in s.serving
    requires CanReach(s.peers[x].handler, PeersOf(x), s.members, y)
    ensures Reachable(t)
    ensures var l := s.peers[x].handler;
      t == Put(Put(s, x, s.peers[x].(handler := Delivered(l, y))), y, Arriving(s.peers[y], Sighting(x, l.msg)))
  {
    var s1 := Next(s, Reach(x, y));
    ReachableStep(s, Reach(x, y));
    t := Next(s1, Deliver(x, y));
    ReachableStep(s1, Deliver(x, y));
  }

  /** With at most one joiner, everything can come to rest. */
  lemma Settle(joined: System) returns (s: System)
    requires Reachable(joined) && |Joining(joined)| <= 1 && joined.awaiting == {} && joined.spoiled == {}
    requires joined.members == joined.peers.Keys
    ensures Reachable(s) && Quiescent(s) && Converged(s)
    ensures s.members == s.serving == s.peers.Keys == joined.members && s.awaiting == {} && s.spoiled == {}
    ensures forall x :: x in s.peers ==> s.peers[x].at == joined.peers[x].at
  {
    var steps := ReachesStuck(joined);
    s := Outcome(joined, steps);
    LeadsKeeps(joined, s);
    StuckIsQuiescent(s);
    QuiescentConverges(s);
    AllServed(s);
  }

  lemma AllServed(s: System)
    requires Reachable(s) && Quiescent(s) && s.members == s.peers.Keys
    ensures s.serving == s.peers.Keys
  {
    ReachableInv(s);
    NobodyJoins(s);
  }

  /** One more client joins and everybody gets to know it. */
  lemma JoinAndSettle(s: System, c: Uuid) returns (t: System)
    requires Reachable(s) && c !in s.peers && s.awaiting == {} && s.spoiled == {} && s.members == s.serving == s.peers.Keys
    ensures Reachable(t) && Quiescent(t) && Converged(t)
    ensures t.members == t.serving == t.peers.Keys == s.members + {c} && t.awaiting == {} && t.spoiled == {}
    ensures t.peers[c].at == ORIGIN && forall x :: x in s.peers ==> t.peers[x].at == s.peers[x].at
  {
    var u := JoinOne(s, c);
    assert Joining(u) == {c};
    t := Settle(u);
  }

  /** Three clients that know each other, all at the origin, with nothing in flight. */
  lemma ThreeSettled(a: Uuid, b: Uuid, c: Uuid) returns (s: System)
    requires a != b && b != c && a != c
    ensures Reachable(s) && Trio(s, a, b, c) && Quiescent(s) && Converged(s)
    ensures s.peers[a].at == s.peers[b].at == s.peers[c].at == ORIGIN
  {
    assert CanRun(INIT, []) && Outcome(INIT, []) == INIT;
    var s1 := JoinAndSettle(INIT, a);
    var s2 := JoinAndSettle(s1, b);
    s := JoinAndSettle(s2, c);
  }

  /** Clients that all know each other may all rest. */
  lemma AcquaintedRest(s: System, a: Uuid)
    requires a in s.peers && Acquainted(s)
    ensures MayRest(s, a)
  {
    assert Quiet(s, s.peers.Keys);
  }

  const RIGHT := Keys(false, false, false, true)

  lemma OneMove(a: Uuid, b: Uuid, c: Uuid) returns (s: System)
    requires a != b && b != c && a != c
    ensures Reachable(s) && Trio(s, a, b, c) && Acquainted(s) && AtRest(s.peers[a]) && AtRest(s.peers[c])
    ensures s.peers[b].players[a].at != s.peers[a].at && s.peers[c].at == ORIGIN
    ensures var q := s.peers[b].downlink; |q| == 1 && q[0] == Sighting(a, Car(s.peers[a].at, s.peers[a].color))
  {
    var s0 := ThreeSettled(a, b, c);
    ConvergedAcquainted(s0);
    assert Shows(s0, b, a);
    s := MoveAndTellFriends(s0, a, b, c, RIGHT);
  }

  /** b's queue holds a's last position and two of c's, and b shows a where it was before. */
  lemma OneThenTwo(a: Uuid, b: Uuid, c: Uuid) returns (s: System)
    requires a != b && b != c && a != c
    ensures Reachable(s) && Trio(s, a, b, c) && Acquainted(s)
    ensures AtRest(s.peers[a]) && s.peers[b].players[a].at != s.peers[a].at
    ensures var q := s.peers[b].downlink; |q| == 3 && q[0].who == a && q[1].who == c && q[2].who == c && q[0].car.at == s.peers[a].at
  {
    var s1 := OneMove(a, b, c);
    var s2 := MoveAndTellFriends(s1, c, a, b, RIGHT);
    s := MoveAndTellFriends(s2, c, a, b, RIGHT);
  }

  /** A batch pass can lose the only news of a player that has stopped moving: b's queue holds a's last
      position and two of c's, the pass drops a's, and from there the protocol can run to its end with
      b showing a in the wrong place. */
  lemma PassCanMisplace() returns (s: System, t: System, a: Uuid, b: Uuid)
    ensures Reachable(s) && s.spoiled == {} && a in s.members && b in s.members && a != b
    ensures Enabled(s, Drop(b, 1)) && |s.peers[b].downlink| == 3
    ensures Leads(Next(s, Drop(b, 1)), t) && Stuck(t) && !Shows(t, b, a)
  {
    a, b := "a", "b";
    s := OneThenTwo(a, b, "c");
    var q := s.peers[b].downlink;
    assert q[1..][0].who == "c" && q[1..][1].who == "c";
    assert PassDrops(q, 1) by { assert 2 < 3 <= |q| && 1 == 3 / 2; }
    OldNews(a, s.peers[a], b, s.peers[b]);
    StillAcquainted(s, Next(s, Drop(b, 1)));
    AcquaintedRest(Next(s, Drop(b, 1)), a);
    ReachableStep(s, Drop(b, 1));
    t := CanStayApart(Next(s, Drop(b, 1)), a, b);
  }

  lemma OldNews(a: Uuid, p: Peer, b: Uuid, r: Peer)
    requires AtRest(p) && b in p.players && a in r.players && r.players[a].at != p.at
    requires |r.downlink| == 3 && r.downlink[1].who != a && r.downlink[2].who != a
    ensures !Agree(a, p, b, r.(downlink := r.downlink[1..]))
  {
    var q := r.downlink[1..];
    assert forall i :: 0 <= i < |q| ==> q[i].who != a;
    MentionsLast(q, a);
  }
}
