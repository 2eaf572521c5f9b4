/** The handlers of the server, which are proved as methods on the client map, against the peer loops
    that many goroutines run at once: undisturbed, one handler is one cast of its sender (routed, begun,
    sent to everybody addressed and ended), and the read loop is one such cast after another. So what a
    handler appends to each channel is what the interleaved model appends, message for message. */
module FanOutRuns {
  import opened Broadcast
  import opened Events
  import opened Manager
  import opened Runs
  import S = SenderOrder

  type Server = S.Server<Event>

  ghost const FANOUT := S.FanOut<Event>()

  ghost predicate Leads(s: Server, t: Server) { FANOUT.Leads(s, t) }

  /** u's read goroutine is waiting for a message. */
  predicate Ready(s: Server, u: Uuid) {
    u in s.senders && s.senders[u].loop.Idle? && s.members <= s.egress.Keys
  }

  /** The log with an entry more, if b is among those. */
  function More(log: seq<S.Entry<Event>>, b: Uuid, among: set<Uuid>, e: S.Entry<Event>): seq<S.Entry<Event>> {
    if b in among then log + [e] else log
  }

  function Addressed(members: set<Uuid>, to: Audience, done: set<Uuid>): set<Uuid> {
    set b | b in members && Wants(to, b) && b !in done
  }

  lemma AddressedLess(members: set<Uuid>, to: Audience, done: set<Uuid>, b: Uuid)
    ensures Addressed(members, to, done + {b}) == Addressed(members, to, done) - {b}
  {
  }

  /** u's loop has sent e to all of `among`, and nothing else has happened. */
  ghost predicate Sent(s: Server, t: Server, u: Uuid, among: set<Uuid>)
    requires u in s.senders && S.Current(s.senders[u])
  {
    var p := s.senders[u];
    && t.members == s.members && t.egress.Keys == s.egress.Keys
    && t.senders == s.senders[u := p.(loop := p.loop.(done := p.loop.done + among))]
    && forall b :: b in s.egress ==> t.egress[b] == More(s.egress[b], b, among, S.Entry(u, p.loop.msg, S.Job(p).payload))
  }

  lemma SentOn(s: Server, s1: Server, t: Server, u: Uuid, b: Uuid, todo: set<Uuid>)
    requires u in s.senders && S.Current(s.senders[u]) && b in todo
    requires Sent(s, s1, u, {b}) && Sent(s1, t, u, todo - {b})
    ensures Sent(s, t, u, todo)
  {
    var p := s.senders[u];
    assert p.loop.done + {b} + (todo - {b}) == p.loop.done + todo;
  }

  /** One visit: the loop comes to b and leaves it. */
  lemma Visit(s: Server, u: Uuid, b: Uuid) returns (t: Server)
    requires u in s.senders && S.Current(s.senders[u]) && s.members <= s.egress.Keys
    requires CanReach(s.senders[u].loop, S.Job(s.senders[u]).to, s.members, b)
    requires b in s.egress
    ensures Leads(s, t) && Sent(s, t, u, {b})
  {
    FANOUT.LeadsNowhere(s);
    var s1 := S.Next(s, S.Reach(u, b));
    FANOUT.LeadsOn(s, s, S.Reach(u, b));
    t := S.Next(s1, S.Deliver(u, b));
    FANOUT.LeadsOn(s, s1, S.Deliver(u, b));
  }

  lemma {:induction false} VisitAll(s: Server, u: Uuid, todo: set<Uuid>) returns (t: Server)
    requires u in s.senders && S.Current(s.senders[u]) && s.members <= s.egress.Keys
    requires s.senders[u].loop.at.None? && todo == Addressed(s.members, S.Job(s.senders[u]).to, s.senders[u].loop.done)
    ensures Leads(s, t) && Sent(s, t, u, todo)
    decreases |todo|
  {
    var p := s.senders[u];
    if todo == {} {
      FANOUT.LeadsNowhere(s);
      t := s;
      assert p.loop.done + todo == p.loop.done;
    } else {
      var b :| b in todo;
      var s1 := Visit(s, u, b);
      AddressedLess(s.members, S.Job(p).to, p.loop.done, b);
      t := VisitAll(s1, u, todo - {b});
      FANOUT.LeadsFar(s, s1, t);
      SentOn(s, s1, t, u, b, todo);
    }
  }

  /** The cast is routed and its loop begins. */
  lemma CastBegins(s: Server, u: Uuid, payload: Event, to: Audience) returns (t: Server)
    requires Ready(s, u)
    ensures Leads(s, t) && t.members == s.members && t.egress == s.egress
    ensures var p := s.senders[u];
      t.senders == s.senders[u := S.Sender(p.routed + [S.Cast(payload, to, None)], Ranging(|p.routed|, s.members, {}, None))]
  {
    FANOUT.LeadsNowhere(s);
    var s1 := S.Next(s, S.Route(u, payload, to));
    FANOUT.LeadsOn(s, s, S.Route(u, payload, to));
    t := S.Next(s1, S.Begin(u));
    FANOUT.LeadsOn(s, s1, S.Begin(u));
  }

  /** Everybody addressed has been sent to, so the loop ends. */
  lemma CastEnds(s: Server, u: Uuid) returns (t: Server)
    requires u in s.senders && S.Current(s.senders[u]) && s.senders[u].loop.at.None? && s.members <= s.egress.Keys
    requires s.senders[u].loop.start == s.members && Addressed(s.members, S.Job(s.senders[u]).to, {}) <= s.senders[u].loop.done
    ensures Leads(s, t) && Ready(t, u) && t.members == s.members && t.egress == s.egress
    ensures var p := s.senders[u]; t.senders[u].routed == p.routed[p.loop.msg := S.Job(p).(through := Some(s.members))]
  {
    FANOUT.LeadsNowhere(s);
    forall b | b in s.members && Wants(S.Job(s.senders[u]).to, b) ensures b in s.senders[u].loop.done {
      assert b in Addressed(s.members, S.Job(s.senders[u]).to, {});
    }
    t := S.Next(s, S.Finish(u));
    FANOUT.LeadsOn(s, s, S.Finish(u));
    assert s.members * s.members == s.members;
  }

  /** One cast, from beginning to end: everybody addressed gets it once. */
  lemma CastRun(s: Server, u: Uuid, payload: Event, to: Audience) returns (t: Server)
    requires Ready(s, u)
    ensures Leads(s, t) && Ready(t, u) && t.members == s.members && t.egress.Keys == s.egress.Keys
    ensures t.senders[u].routed == s.senders[u].routed + [S.Cast(payload, to, Some(s.members))]
    ensures forall b :: b in s.egress ==>
      t.egress[b] == More(s.egress[b], b, Addressed(s.members, to, {}), S.Entry(u, |s.senders[u].routed|, payload))
  {
    var s1 := CastBegins(s, u, payload, to);
    assert S.Job(s1.senders[u]) == S.Cast(payload, to, None);
    var s2 := VisitAll(s1, u, Addressed(s.members, to, {}));
    FANOUT.LeadsFar(s, s1, s2);
    t := CastEnds(s2, u);
    FANOUT.LeadsFar(s, s2, t);
  }

  function Payloads(log: seq<S.Entry<Event>>): seq<Event> {
    seq(|log|, i requires 0 <= i < |log| => log[i].payload)
  }

  lemma PayloadsMore(log: seq<S.Entry<Event>>, b: Uuid, among: set<Uuid>, e: S.Entry<Event>)
    ensures Payloads(More(log, b, among, e)) == Payloads(log) + (if b in among then [e.payload] else [])
  {
  }

  /** Every client in the map is connected and a member. */
  ghost predicate Tracks(clients: map<Client, bool>, s: Server) {
    forall d :: d in clients ==> clients[d] && d.uuid in s.members
  }

  /** The cast of a message: its payload, and to whom it goes. */
  predicate IsCastOf(cast: S.Cast<Event>, request: Request, sender: Uuid, now: string) {
    && Tells(cast.payload, request, sender, now)
    && match request
       case TextMessage(Some(t)) => cast.to == (if t.broadcast then PeersOf(sender) else Only(t.to))
       case _ => cast.to == PeersOf(sender)
  }

  /** The messages that are sent on at all. */
  predicate PassedOn(request: Request) {
    request.PositionMessage? || (request.ColorMessage? && request.color.Some?) || (request.TextMessage? && request.text.Some?)
  }

  /** The casts grow by exactly the one of this message, if it is sent on. */
  predicate OneMore(before: seq<S.Cast<Event>>, after: seq<S.Cast<Event>>, request: Request, sender: Uuid, now: string) {
    if PassedOn(request)
    then |after| == |before| + 1 && before == after[..|before|] && IsCastOf(after[|before|], request, sender, now)
    else after == before
  }

  /** One handler is one cast, or nothing: the sender's casts grow by exactly that one, it reached all
      members there are, and what it gives every client is what the handler's specification says. */
  lemma HandlerIsCast(clients: map<Client, bool>, s: Server, request: Request, c: Client, now: string) returns (t: Server)
    requires Ready(s, c.uuid) && Tracks(clients, s)
    ensures Leads(s, t) && Ready(t, c.uuid) && t.members == s.members && t.egress.Keys == s.egress.Keys
    ensures var before, after := s.senders[c.uuid].routed, t.senders[c.uuid].routed;
      && OneMore(before, after, request, c.uuid, now)
      && (PassedOn(request) ==> after[|before|].through == Some(s.members))
    ensures forall d :: d in clients ==>
      Payloads(t.egress[d.uuid]) == Payloads(s.egress[d.uuid]) + Share(clients, request, c, d, now)
  {
    match Fans(request, c.uuid, now)
    case Some((e, to)) =>
      t := CastRun(s, c.uuid, e, to);
      forall d | d in clients
        ensures Payloads(t.egress[d.uuid]) == Payloads(s.egress[d.uuid]) + Share(clients, request, c, d, now)
      {
        PayloadsMore(s.egress[d.uuid], d.uuid, Addressed(s.members, to, {}), S.Entry(c.uuid, |s.senders[c.uuid].routed|, e));
      }
    case None =>
      FANOUT.LeadsNowhere(s);
      t := s;
  }

  /** How many of the first n messages are sent on. */
  function Casts(incoming: seq<Option<Request>>, n: nat): nat
    requires n <= |incoming|
  {
    if n == 0 then 0
    else Casts(incoming, n - 1) + (if incoming[n - 1].Some? && PassedOn(incoming[n - 1].value) then 1 else 0)
  }

  /** The cast of the i-th message stands where the messages before it put it. */
  predicate InPlace(start: nat, after: seq<S.Cast<Event>>, incoming: seq<Option<Request>>, times: seq<string>, i: nat, sender: Uuid)
    requires |times| == |incoming| && i < |incoming|
  {
    incoming[i].Some? && PassedOn(incoming[i].value) ==>
      && start + Casts(incoming, i) < |after|
      && IsCastOf(after[start + Casts(incoming, i)], incoming[i].value, sender, times[i])
  }

  /** The sender's casts after the first n messages: one more for every message that is sent on, in the
      order of the messages, and no others. */
  ghost predicate CastInOrder(before: seq<S.Cast<Event>>, after: seq<S.Cast<Event>>, incoming: seq<Option<Request>>,
                              times: seq<string>, n: nat, sender: Uuid)
    requires |times| == |incoming| && n <= |incoming|
  {
    && |after| == |before| + Casts(incoming, n) && before == after[..|before|]
    && forall i: nat {:trigger InPlace(|before|, after, incoming, times, i, sender)} :: i < n ==>
      InPlace(|before|, after, incoming, times, i, sender)
  }

  lemma StaysInPlace(start: nat, mid: seq<S.Cast<Event>>, after: seq<S.Cast<Event>>, incoming: seq<Option<Request>>,
                     times: seq<string>, i: nat, sender: Uuid)
    requires |times| == |incoming| && i < |incoming| && |mid| <= |after| && mid == after[..|mid|]
    requires InPlace(start, mid, incoming, times, i, sender)
    ensures InPlace(start, after, incoming, times, i, sender)
  {
  }

  lemma CastInOrderOn(before: seq<S.Cast<Event>>, mid: seq<S.Cast<Event>>, after: seq<S.Cast<Event>>,
                      incoming: seq<Option<Request>>, times: seq<string>, n: nat, sender: Uuid)
    requires |times| == |incoming| && 0 < n <= |incoming| && incoming[n - 1].Some?
    requires CastInOrder(before, mid, incoming, times, n - 1, sender)
    requires OneMore(mid, after, incoming[n - 1].value, sender, times[n - 1])
    ensures CastInOrder(before, after, incoming, times, n, sender)
  {
    assert before == after[..|before|] by { assert before == mid[..|before|]; }
    forall i: nat | i < n ensures InPlace(|before|, after, incoming, times, i, sender) {
      if i < n - 1 {
        assert InPlace(|before|, mid, incoming, times, i, sender);
        StaysInPlace(|before|, mid, after, incoming, times, i, sender);
      }
    }
  }

  /** One round of the read loop. */
  lemma ReadNext(clients: map<Client, bool>, before: seq<S.Cast<Event>>, s: Server, incoming: seq<Option<Request>>,
                 times: seq<string>, n: nat, c: Client) returns (t: Server)
    requires Ready(s, c.uuid) && Tracks(clients, s) && |times| == |incoming| && 0 < n <= |incoming| && incoming[n - 1].Some?
    requires CastInOrder(before, s.senders[c.uuid].routed, incoming, times, n - 1, c.uuid)
    ensures Leads(s, t) && Ready(t, c.uuid) && t.members == s.members && t.egress.Keys == s.egress.Keys
    ensures CastInOrder(before, t.senders[c.uuid].routed, incoming, times, n, c.uuid)
    ensures forall d :: d in clients ==>
      Payloads(t.egress[d.uuid]) == Payloads(s.egress[d.uuid]) + Share(clients, incoming[n - 1].value, c, d, times[n - 1])
  {
    t := HandlerIsCast(clients, s, incoming[n - 1].value, c, times[n - 1]);
    CastInOrderOn(before, s.senders[c.uuid].routed, t.senders[c.uuid].routed, incoming, times, n, c.uuid);
  }

  /** The read loop is a run of casts: exactly those of the messages read, in order, each once. */
  lemma {:induction false} ReadLoopIsRun(clients: map<Client, bool>, s: Server, incoming: seq<Option<Request>>,
                                         times: seq<string>, n: nat, c: Client) returns (t: Server)
    requires Ready(s, c.uuid) && Tracks(clients, s) && |times| == |incoming| && n <= Readable(incoming)
    ensures Leads(s, t) && Ready(t, c.uuid) && t.members == s.members && t.egress.Keys == s.egress.Keys
    ensures CastInOrder(s.senders[c.uuid].routed, t.senders[c.uuid].routed, incoming, times, n, c.uuid)
    ensures forall d :: d in clients ==>
      Payloads(t.egress[d.uuid]) == Payloads(s.egress[d.uuid]) + Shares(clients, incoming, times, n, c, d)
  {
    if n == 0 {
      FANOUT.LeadsNowhere(s);
      t := s;
    } else {
      var s1 := ReadLoopIsRun(clients, s, incoming, times, n - 1, c);
      ReadableGoesOn(incoming, n - 1);
      t := ReadNext(clients, s.senders[c.uuid].routed, s1, incoming, times, n, c);
      FANOUT.LeadsFar(s, s1, t);
    }
  }
}
