/** The player map as a function of the log of handled events, and what it means. */
module PlayerMap {
  import opened Events

  /** The effect of one handled event on the player map. */
  function Apply(players: Players, e: Event): Players {
    match e
    case Position(who, car) => Sight(players, who, car)
    case PositionDebug(who, car) => Sight(players, who, car)
    case Recolor(who, color) => Repaint(players, who, color)
    case Exit(who) => Forget(players, who)
    case _ => players
  }

  /** The map after a log of handled events. */
  function Replay(players: Players, log: seq<Event>): Players {
    if log == [] then players else Apply(Replay(players, log[..|log| - 1]), log[|log| - 1])
  }

  lemma {:induction false} ReplayAppend(players: Players, a: seq<Event>, b: seq<Event>)
    ensures Replay(players, a + b) == Replay(Replay(players, a), b)
  {
    if b == [] {
      assert a + b == a;
    } else {
      ReplayAppend(players, a, b[..|b| - 1]);
      assert (a + b)[..|a + b| - 1] == a + b[..|b| - 1];
    }
  }

  predicate Places(e: Event, u: Uuid) {
    (e.Position? || e.PositionDebug?) && e.who == u
  }

  /** e gives u a colour, provided u is known. */
  predicate Paints(e: Event, u: Uuid) {
    Places(e, u) || (e.Recolor? && e.who == u)
  }

  function ColorIn(e: Event): Color
    requires e.Position? || e.PositionDebug? || e.Recolor?
  {
    if e.Recolor? then e.color else e.car.color
  }

  predicate Removes(e: Event, u: Uuid) {
    e.Exit? && e.who == u
  }

  /** log[i] is the last position of u, and u has not left since. */
  predicate LastPlaced(log: seq<Event>, u: Uuid, i: nat) {
    i < |log| && Places(log[i], u) && forall j :: i < j < |log| ==> !Places(log[j], u) && !Removes(log[j], u)
  }

  /** log[k] is the last event that gives u a colour. */
  predicate LastPainted(log: seq<Event>, u: Uuid, k: nat) {
    k < |log| && Paints(log[k], u) && forall j :: k < j < |log| ==> !Paints(log[j], u)
  }

  /** A player is shown exactly if the log has a position for it after its last exit. */
  lemma {:induction false} PresentIff(log: seq<Event>, u: Uuid)
    ensures u in Replay(map[], log) <==> exists i :: LastPlaced(log, u, i)
  {
    if log != [] {
      var init, e := log[..|log| - 1], log[|log| - 1];
      PresentIff(init, u);
      if Places(e, u) {
        assert LastPlaced(log, u, |init|);
      } else if Removes(e, u) {
        forall i: nat | i < |log| ensures !LastPlaced(log, u, i) { if i < |init| { assert Removes(log[|init|], u); } }
      } else {
        if i :| LastPlaced(init, u, i) { assert LastPlaced(log, u, i); }
        if i :| LastPlaced(log, u, i) { assert LastPlaced(init, u, i); }
      }
    }
  }

  /** Its coordinates are those of that position, and its colour that of the latest position or
      colour event. */
  lemma {:induction false} RecordIs(log: seq<Event>, u: Uuid, i: nat, k: nat)
    requires LastPlaced(log, u, i) && LastPainted(log, u, k)
    ensures i <= k && u in Replay(map[], log)
    ensures Replay(map[], log)[u] == Car(log[i].car.at, ColorIn(log[k]))
  {
    assert i <= k by { if k < i { assert Paints(log[i], u); } }
    var init, e := log[..|log| - 1], log[|log| - 1];
    if i < |init| {
      assert LastPlaced(init, u, i);
      if k < |init| {
        RecordIs(init, u, i, k);
      } else {
        var k' := LatestPaint(init, u, i);
        RecordIs(init, u, i, k');
      }
    }
  }

  /** From a position on, some event is the latest that gives a colour. */
  lemma {:induction false} LatestPaint(log: seq<Event>, u: Uuid, i: nat) returns (k: nat)
    requires i < |log| && Places(log[i], u)
    ensures LastPainted(log, u, k)
  {
    k := |log| - 1;
    if !Paints(log[k], u) {
      k := LatestPaint(log[..k], u, i);
    }
  }

  // Dropping positions ---------------------------------------------------------------------------

  predicate AllPlace(q: seq<Event>) {
    forall i :: 0 <= i < |q| ==> q[i].Position? || q[i].PositionDebug?
  }

  predicate Occurs(q: seq<Event>, u: Uuid) {
    exists i :: 0 <= i < |q| && Places(q[i], u)
  }

  lemma {:induction false} LastOccurrence(players: Players, q: seq<Event>, u: Uuid) returns (i: nat)
    requires AllPlace(q) && Occurs(q, u)
    ensures i < |q| && Places(q[i], u) && forall j :: i < j < |q| ==> !Places(q[j], u)
    ensures u in Replay(players, q) && Replay(players, q)[u] == q[i].car
  {
    var n := |q| - 1;
    if Places(q[n], u) {
      i := n;
    } else {
      var w :| 0 <= w < |q| && Places(q[w], u);
      assert Places(q[..n][w], u);
      i := LastOccurrence(players, q[..n], u);
    }
  }

  /** Handling only a suffix of a queue of positions gives the same record for every player that
      occurs in the suffix, whatever was known before. */
  lemma SuffixAgrees(players: Players, q: seq<Event>, d: nat, u: Uuid)
    requires AllPlace(q) && d <= |q| && Occurs(q[d..], u)
    ensures u in Replay(players, q[d..]) && u in Replay(players, q)
    ensures Replay(players, q[d..])[u] == Replay(players, q)[u]
  {
    var w :| 0 <= w < |q[d..]| && Places(q[d..][w], u);
    assert Places(q[d + w], u);
    var i := LastOccurrence(players, q[d..], u);
    var j := LastOccurrence(players, q, u);
    assert Places(q[d + i], u);
    assert q[d..][j - d] == q[j];
  }
}
