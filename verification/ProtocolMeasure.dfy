/** The measure under which the protocol's own steps cannot go on for ever: a first sighting is the only
    thing that sets `move`, and with the membership fixed and nobody pressing keys every step makes the
    sum over all clients smaller. */
module ProtocolMeasure {
  import opened Events
  import opened Broadcast
  import opened Replication
  import opened Sums

  /** The steps that happen without new clients, departures, key presses, colour changes or drops. */
  predicate Internal(step: Step) {
    step.Send? || step.Route? || step.Begin? || step.Reach? || step.Deliver? || step.Finish? || step.Handle? || step.HandleExit?
  }

  // The measure: n is the number of clients ever connected.

  function QueuedWeight(n: nat): nat { 3 * n + 2 }
  function UplinkWeight(n: nat): nat { 3 * n + 3 }
  function MoveWeight(n: nat): nat { 3 * n + 4 }
  function ExitWeight(n: nat): nat { 3 * n + 5 }

  ghost function There(l: Loop<Car>): set<Uuid>
    requires l.Ranging?
  {
    if l.at.Some? then {l.at.value} else {}
  }

  /** A ranging handler has still to come to every member it has not come to, and to leave it. */
  ghost function HandlerWeight(n: nat, l: Loop<Car>, members: set<Uuid>): nat {
    match l
    case Idle => 0
    case Queued(_) => QueuedWeight(n)
    case Ranging(_, _, done, at) => 1 + 3 * |members - done - There(l)| + (if at.Some? then 2 else 0)
  }

  /** The clients p has still to meet. */
  ghost function Unmet(everyone: set<Uuid>, p: Peer): nat {
    |everyone - p.players.Keys|
  }

  /** u units of w each. */
  ghost function Times(w: nat, u: nat): nat {
    if u == 0 then 0 else w + Times(w, u - 1)
  }

  ghost function Load(n: nat, unmet: nat, move: bool, ups: nat, handler: nat, downs: nat, exits: nat): nat {
    Times(MoveWeight(n), unmet) + (if move then MoveWeight(n) else 0)
    + Times(UplinkWeight(n), ups) + handler + downs + Times(ExitWeight(n), exits)
  }

  ghost function Weight(everyone: set<Uuid>, members: set<Uuid>, p: Peer): nat {
    Load(|everyone|, Unmet(everyone, p), p.move, |p.uplink|, HandlerWeight(|everyone|, p.handler, members),
         |p.downlink|, |p.exits|)
  }

  ghost function Weights(s: System): (w: map<Uuid, nat>)
    ensures w.Keys == s.peers.Keys
  {
    map c | c in s.peers :: Weight(s.peers.Keys, s.members, s.peers[c])
  }

  ghost function Measure(s: System): nat {
    Total(s.peers.Keys, Weights(s))
  }

  // One step's effect on the weights of the clients it touches.

  lemma MembersBound(s: System)
    requires Scoped(s)
    ensures |s.members| <= |s.peers|
  {
    Subset(s.members, s.peers.Keys);
  }

  lemma ReachLightens(n: nat, l: Loop<Car>, members: set<Uuid>, to: Audience, b: Uuid)
    requires CanReach(l, to, members, b)
    ensures HandlerWeight(n, Reached(l, b), members) == HandlerWeight(n, l, members) - 1
  {
    OneFewer(members - l.done, b);
    assert members - l.done - {} == members - l.done;
  }

  lemma DeliverLightens(n: nat, l: Loop<Car>, members: set<Uuid>, b: Uuid)
    requires SendingTo(l, b)
    ensures HandlerWeight(n, Delivered(l, b), members) == HandlerWeight(n, l, members) - 2
  {
    assert members - (l.done + {b}) - {} == members - l.done - {b};
  }

  lemma UnmetAfterSighting(everyone: set<Uuid>, players: Players, who: Uuid, car: Car)
    requires who in everyone
    ensures |everyone - Sight(players, who, car).Keys|
         == |everyone - players.Keys| - (if who in players then 0 else 1)
  {
    Shrinks(everyone, players.Keys, who);
    assert Sight(players, who, car).Keys == players.Keys + {who};
  }

  /** Handling a position costs less than the sighting or the message it uses up. */
  lemma HandleLightens(everyone: set<Uuid>, members: set<Uuid>, p: Peer)
    requires p.downlink != [] && p.downlink[0].who in everyone
    ensures Weight(everyone, members, HandleOldest(p)) < Weight(everyone, members, p)
  {
    UnmetAfterSighting(everyone, p.players, p.downlink[0].who, p.downlink[0].car);
  }

  lemma {:induction false} TimesGrows(w: nat, u: nat, v: nat)
    requires u <= v
    ensures Times(w, u) <= Times(w, v)
  {
    if u < v { TimesGrows(w, u, v - 1); }
  }

  lemma UnmetAfterExit(everyone: set<Uuid>, players: Players, c: Uuid)
    ensures |everyone - Forget(players, c).Keys| <= |everyone - players.Keys| + 1
  {
    assert everyone - Forget(players, c).Keys <= (everyone - players.Keys) + {c};
    Subset(everyone - Forget(players, c).Keys, (everyone - players.Keys) + {c});
  }

  lemma ExitLoad(n: nat, before: nat, after: nat, move: bool, ups: nat, handler: nat, downs: nat, exits: nat)
    requires after <= before + 1
    ensures Load(n, after, move, ups, handler, downs, exits) < Load(n, before, move, ups, handler, downs, exits + 1)
  {
    TimesGrows(MoveWeight(n), after, before + 1);
  }

  /** Handling an exit may make one client unknown again, which the notice has paid for. */
  lemma ExitLightens(everyone: set<Uuid>, members: set<Uuid>, p: Peer, c: Uuid)
    requires c in p.exits
    ensures Weight(everyone, members, p.(players := Forget(p.players, c), exits := p.exits - {c}))
         < Weight(everyone, members, p)
  {
    var n, handler := |everyone|, HandlerWeight(|everyone|, p.handler, members);
    var before, after := Unmet(everyone, p), |everyone - Forget(p.players, c).Keys|;
    UnmetAfterExit(everyone, p.players, c);
    OneFewer(p.exits, c);
    ExitLoad(n, before, after, p.move, |p.uplink|, handler, |p.downlink|, |p.exits - {c}|);
  }

  lemma SendLightens(everyone: set<Uuid>, members: set<Uuid>, p: Peer)
    requires p.move
    ensures Weight(everyone, members, p.(uplink := p.uplink + [Car(p.at, p.color)], move := false))
         < Weight(everyone, members, p)
  {
  }

  lemma RouteLightens(everyone: set<Uuid>, members: set<Uuid>, p: Peer)
    requires p.uplink != [] && p.handler.Idle?
    ensures Weight(everyone, members, p.(uplink := p.uplink[1..], handler := Queued(p.uplink[0])))
         < Weight(everyone, members, p)
  {
  }

  lemma RangeLightens(everyone: set<Uuid>, members: set<Uuid>, p: Peer)
    requires |members| <= |everyone|
    ensures p.handler.Queued? ==>
      Weight(everyone, members, p.(handler := Begun(p.handler, members))) < Weight(everyone, members, p)
    ensures p.handler.Ranging? ==>
      Weight(everyone, members, p.(handler := Idle)) < Weight(everyone, members, p)
  {
    assert members - {} - {} == members;
  }

  /** When only one client changes, the measure changes as its weight does. */
  lemma OnePeer(s: System, t: System, c: Uuid)
    requires c in s.peers && t.peers.Keys == s.peers.Keys && t.members == s.members
    requires forall x :: x in s.peers && x != c ==> t.peers[x] == s.peers[x]
    ensures Measure(t) + Weight(s.peers.Keys, s.members, s.peers[c])
         == Measure(s) + Weight(s.peers.Keys, s.members, t.peers[c])
  {
    var v, w := Weights(s), Weights(t);
    forall x | x in s.peers && x != c ensures v[x] == w[x] { assert t.peers[x] == s.peers[x]; }
    TotalChange(s.peers.Keys, v, w, c);
  }

  lemma DeliveryWeights(everyone: set<Uuid>, members: set<Uuid>, c: Uuid, p: Peer, b: Uuid, r: Peer)
    requires SendingTo(p.handler, b)
    ensures Weight(everyone, members, p.(handler := Delivered(p.handler, b))) + 2 == Weight(everyone, members, p)
    ensures Weight(everyone, members, r.(downlink := r.downlink + [Sighting(c, p.handler.msg)]))
         == Weight(everyone, members, r) + 1
  {
    DeliverLightens(|everyone|, p.handler, members, b);
  }

  lemma DeliveryLightens(s: System, c: Uuid, b: Uuid)
    requires Enabled(s, Deliver(c, b))
    ensures Measure(Next(s, Deliver(c, b))) < Measure(s)
  {
    var t := Next(s, Deliver(c, b));
    var all := s.peers.Keys;
    assert t.peers.Keys == all;
    DeliveryWeights(all, s.members, c, s.peers[c], b, s.peers[b]);
    TotalChangeTwo(all, Weights(s), Weights(t), c, b);
  }

  lemma PutLightens(s: System, c: Uuid, p: Peer, t: System)
    requires c in s.peers && t.peers == s.peers[c := p] && t.members == s.members
    requires Weight(s.peers.Keys, s.members, p) < Weight(s.peers.Keys, s.members, s.peers[c])
    ensures Measure(t) < Measure(s)
  {
    OnePeer(s, t, c);
  }

  /** Only clients that exist are ever heard of. */
  lemma HeardOf(s: System, b: Uuid)
    requires Scoped(s) && b in s.peers && s.peers[b].downlink != []
    ensures s.peers[b].downlink[0].who in s.peers
  {
    var who := s.peers[b].downlink[0].who;
    assert Mentions(s.peers[b].downlink, who);
    assert who in s.peers || Unheard(s, who);
  }

  lemma HandlingLightens(s: System, b: Uuid)
    requires Enabled(s, Handle(b)) && s.peers[b].downlink[0].who in s.peers
    ensures Measure(Next(s, Handle(b))) < Measure(s)
  {
    HandleLightens(s.peers.Keys, s.members, s.peers[b]);
    PutLightens(s, b, HandleOldest(s.peers[b]), Next(s, Handle(b)));
  }

  lemma ServingLightens(s: System, step: Step)
    requires Scoped(s) && Enabled(s, step) && (step.Send? || step.Route? || step.Begin? || step.Reach? || step.Finish?)
    ensures Measure(Next(s, step)) < Measure(s)
  {
    MembersBound(s);
    var everyone, p, t := s.peers.Keys, s.peers[step.c], Next(s, step);
    match step
    case Send(c) =>
      SendLightens(everyone, s.members, p);
      PutLightens(s, c, p.(uplink := p.uplink + [Car(p.at, p.color)], move := false), t);
    case Route(c) =>
      RouteLightens(everyone, s.members, p);
      PutLightens(s, c, p.(uplink := p.uplink[1..], handler := Queued(p.uplink[0])), t);
    case Begin(c) =>
      RangeLightens(everyone, s.members, p);
      PutLightens(s, c, p.(handler := Begun(p.handler, s.members)), t);
    case Reach(c, b) =>
      ReachLightens(|everyone|, p.handler, s.members, PeersOf(c), b);
      PutLightens(s, c, p.(handler := Reached(p.handler, b)), t);
    case Finish(c) =>
      RangeLightens(everyone, s.members, p);
      PutLightens(s, c, p.(handler := Idle), t);
  }

  /** The measure strictly drops on every internal step. */
  lemma StepLightens(s: System, step: Step)
    requires Reachable(s) && Enabled(s, step) && Internal(step)
    ensures Measure(Next(s, step)) < Measure(s)
  {
    match step
    case Deliver(c, b) =>
      DeliveryLightens(s, c, b);
    case Handle(b) =>
      ReachableInv(s);
      HeardOf(s, b);
      HandlingLightens(s, b);
    case HandleExit(b, c) =>
      var p := s.peers[b];
      ExitLightens(s.peers.Keys, s.members, p, c);
      PutLightens(s, b, p.(players := Forget(p.players, c), exits := p.exits - {c}), Next(s, step));
    case _ =>
      ReachableInv(s);
      ServingLightens(s, step);
  }
}
