/** Ping, pong and the read deadline of a connection (sections 5.5.2 and 5.5.3 of RFC 6455). */
module KeepAlive {
  import opened Events
  import opened Runs

  const PONG_WAIT := 10 * SECOND

  function PingInterval(pongWait: int): int {
    (pongWait * 9) / 10
  }

  /** The interval is shorter than the wait; it is positive, as a ticker requires, exactly when the
      wait is more than one nanosecond. */
  lemma PingIntervalInside(pongWait: int)
    requires pongWait > 0
    ensures PingInterval(pongWait) < pongWait
    ensures PingInterval(pongWait) > 0 <==> pongWait >= 2
    ensures PingInterval(PONG_WAIT) == 9 * SECOND
  {
  }

  /** `prompt`: how long after its ping a pong is handled at most. `lag`: how long after its tick a
      ping is written at most, since the goroutine may be writing something else. `skew`: how much
      later the write goroutine starts than the read goroutine; it counts against the first pong. */
  datatype Terms = Terms(pongWait: int, prompt: int, lag: int, skew: int)

  /** `reset` is when the deadline was last set, `tick` the ticker's next firing, and `asked` the send
      times of the pings not yet answered, oldest first. */
  datatype Link = Link(now: int, reset: int, deadline: int, tick: int, asked: seq<int>, answered: bool)

  /** `Ping` serves the present tick; the one after it is `next`. */
  datatype Step = Wait(until: int) | Ping(next: int) | Pong

  /** The time by which the oldest unanswered ping is answered. */
  function AnswerBy(terms: Terms, l: Link): int
    requires l.asked != []
  {
    l.asked[0] + terms.prompt - (if l.answered then 0 else terms.skew)
  }

  /** The ticker fires at a fixed interval. Ticks that find the goroutine two behind are dropped, so
      after a late ping the next tick lies between one interval after the last and one from now. */
  predicate Enabled(terms: Terms, l: Link, step: Step) {
    match step
    case Wait(until) => l.now <= until <= l.tick + terms.lag && (l.asked != [] ==> until <= AnswerBy(terms, l))
    case Ping(next) => l.tick <= l.now && l.tick + PingInterval(terms.pongWait) <= next <= l.now + PingInterval(terms.pongWait)
    case Pong => l.asked != []
  }

  function Next(terms: Terms, l: Link, step: Step): Link
    requires Enabled(terms, l, step)
  {
    match step
    case Wait(until) => l.(now := until)
    case Ping(next) => l.(asked := l.asked + [l.now], tick := next)
    case Pong => l.(reset := l.now, deadline := l.now + terms.pongWait, asked := l.asked[1..], answered := true)
  }

  /** The read goroutine starts at time 0, the write goroutine `skew` later. */
  function Started(terms: Terms): Link {
    Link(terms.skew, 0, terms.pongWait, terms.skew + PingInterval(terms.pongWait), [], false)
  }

  ghost function Connection(terms: Terms): Machine<Link, Step> {
    Machine(Started(terms), (l, step) => Enabled(terms, l, step),
            (l, step) requires Enabled(terms, l, step) => Next(terms, l, step))
  }

  predicate Inv(terms: Terms, l: Link) {
    var apart := PingInterval(terms.pongWait) + terms.lag;
    && l.deadline == l.reset + terms.pongWait
    && (forall i :: 0 <= i < |l.asked| - 1 ==> l.asked[i] <= l.asked[i + 1] <= l.asked[i] + apart)
    && (forall i :: 0 <= i < |l.asked| ==> l.asked[i] <= l.now)
    && (l.asked != [] ==> l.tick + terms.lag <= l.asked[|l.asked| - 1] + apart)
    && l.now <= l.tick + terms.lag
    && (l.asked != [] ==> l.now <= AnswerBy(terms, l) <= l.deadline)
    && (l.asked == [] ==> l.tick + terms.lag + terms.prompt - (if l.answered then 0 else terms.skew) <= l.deadline)
  }

  /** The terms under which the deadline holds. */
  predicate Keeps(terms: Terms) {
    && terms.pongWait > 0 && 0 <= terms.lag && 0 <= terms.skew <= terms.prompt
    && terms.prompt + terms.lag <= terms.pongWait - PingInterval(terms.pongWait)
  }

  lemma InvStep(terms: Terms, l: Link, step: Step)
    requires Keeps(terms) && Inv(terms, l) && Enabled(terms, l, step)
    ensures Inv(terms, Next(terms, l, step))
  {
    if step.Pong? && |l.asked| > 1 {
      assert l.asked[0] <= l.asked[0 + 1] <= l.asked[0] + PingInterval(terms.pongWait) + terms.lag;
    }
  }

  /** Keep-alive: if pings are written within `lag` of their ticks and pongs handled within `prompt` of
      their pings, and the two together do not exceed pongWait - pingInterval, the read deadline has
      not passed at any moment of any run, however long. And a peer that falls silent has at most
      pongWait left from its last pong. */
  lemma NeverExpires(terms: Terms, l: Link)
    requires Keeps(terms) && Connection(terms).Reachable(l)
    ensures l.now <= l.deadline && l.deadline == l.reset + terms.pongWait
  {
    var m, inv := Connection(terms), (k: Link) => Inv(terms, k);
    forall k, step | inv(k) && m.CanStep(k, step) ensures inv(m.next(k, step)) {
      InvStep(terms, k, step);
    }
    m.ReachableInv(inv, l);
  }

  function Pings(steps: seq<Step>): nat {
    if steps == [] then 0 else (if steps[0].Ping? then 1 else 0) + Pings(steps[1..])
  }

  function Pongs(steps: seq<Step>): nat {
    if steps == [] then 0 else (if steps[0].Pong? then 1 else 0) + Pongs(steps[1..])
  }

  /** Every ping is answered by a pong of its own: over any run, the pings sent are the pongs handled and
      the pings still unanswered. */
  lemma {:induction false} PingsAnswered(terms: Terms, l: Link, steps: seq<Step>)
    requires Connection(terms).CanRun(l, steps)
    ensures |l.asked| + Pings(steps) == Pongs(steps) + |Connection(terms).Outcome(l, steps).asked|
    decreases |steps|
  {
    if steps != [] { PingsAnswered(terms, Next(terms, l, steps[0]), steps[1..]); }
  }

  // The read side of a connection ------------------------------------------------------------------

  class ReadLoop {
    const pongWait: int
    var deadline: int

    /** readMessages sets the first deadline. */
    constructor (pongWait: int, now: int)
      ensures this.pongWait == pongWait && deadline == now + pongWait
    {
      this.pongWait := pongWait;
      deadline := now + pongWait;
    }

    method PongHandler(now: int)
      modifies this
      ensures deadline == now + pongWait
    {
      deadline := now + pongWait;
    }
  }

  /** The state of a connection after k steps of a run. */
  ghost function At(terms: Terms, steps: seq<Step>, k: nat): Link
    requires Connection(terms).CanRun(Started(terms), steps) && k <= |steps|
  {
    Connection(terms).Prefix(Started(terms), steps, k);
    Connection(terms).Outcome(Started(terms), steps[..k])
  }

  /** The read goroutine along a run of the connection: it reads until its deadline has passed, if that
      ever happens, and its handler moves the deadline at each pong. It is cut off exactly if at some
      moment the time is past what pongs have moved the deadline to; under the terms above, never. */
  method Read(terms: Terms, steps: seq<Step>) returns (reader: ReadLoop, expired: bool)
    requires Connection(terms).CanRun(Started(terms), steps)
    ensures expired <==> exists k :: 0 <= k <= |steps| && At(terms, steps, k).now > At(terms, steps, k).deadline
    ensures !expired ==> reader.deadline == At(terms, steps, |steps|).deadline
    ensures Keeps(terms) ==> !expired
  {
    var l := Started(terms);
    reader := new ReadLoop(terms.pongWait, 0);
    expired := l.now > reader.deadline;
    assert steps[..0] == [] && At(terms, steps, 0) == l;
    var i := 0;
    while !expired && i < |steps|
      invariant i <= |steps| && l == At(terms, steps, i) && reader.pongWait == terms.pongWait
      invariant reader.deadline == l.deadline && (expired <==> l.now > l.deadline)
      invariant forall k :: 0 <= k < i ==> At(terms, steps, k).now <= At(terms, steps, k).deadline
      decreases |steps| - i
    {
      Connection(terms).Prefix(Started(terms), steps, i);
      if steps[i].Pong? { reader.PongHandler(l.now); }
      l := Next(terms, l, steps[i]);
      i := i + 1;
      expired := l.now > reader.deadline;
    }
    if Keeps(terms) {
      Connection(terms).Prefix(Started(terms), steps, i);
      NeverExpires(terms, l);
    }
    assert steps[..|steps|] == steps;
  }

  // The bound is exact -----------------------------------------------------------------------------

  /** The first moment after the deadline that a pong handled at once has set. */
  function Late(terms: Terms): int {
    terms.skew + PingInterval(terms.pongWait) + terms.pongWait + 1
  }

  /** A run in which the first pong comes at once, the second ping as late as it may, and the second
      pong not before the deadline of the first has passed. */
  function LateRun(terms: Terms): seq<Step> {
    var t, i := terms.skew, PingInterval(terms.pongWait);
    var m := t + 2 * i + terms.lag;
    [Wait(t + i), Ping(t + 2 * i), Pong]
    + (if Late(terms) <= m then [Wait(Late(terms))]
       else if Late(terms) <= m + i then [Wait(m), Ping(t + 3 * i), Wait(Late(terms))]
       else [Wait(m), Ping(t + 3 * i), Wait(m + i), Ping(t + 4 * i), Wait(Late(terms))])
  }

  /** That run's states, one by one. */
  function After(terms: Terms, k: nat): Link
    requires k <= |LateRun(terms)|
  {
    var i, w, t := PingInterval(terms.pongWait), terms.pongWait, terms.skew;
    var late, m := Late(terms), t + 2 * i + terms.lag;
    if k == 0 then Link(t, 0, w, t + i, [], false)
    else if k == 1 then Link(t + i, 0, w, t + i, [], false)
    else if k == 2 then Link(t + i, 0, w, t + 2 * i, [t + i], false)
    else if k == 3 then Link(t + i, t + i, t + i + w, t + 2 * i, [], true)
    else if k == 4 then Link(if late <= m then late else m, t + i, t + i + w, t + 2 * i, [], true)
    else if k == 5 then Link(m, t + i, t + i + w, t + 3 * i, [m], true)
    else if k == 6 then Link(if late <= m + i then late else m + i, t + i, t + i + w, t + 3 * i, [m], true)
    else if k == 7 then Link(m + i, t + i, t + i + w, t + 4 * i, [m, m + i], true)
    else Link(late, t + i, t + i + w, t + 4 * i, [m, m + i], true)
  }

  lemma LateRunBegins(terms: Terms, k: nat)
    requires terms.pongWait >= 2 && 0 <= terms.lag && 0 <= terms.skew <= terms.prompt && k < 3
    ensures Enabled(terms, After(terms, k), LateRun(terms)[k])
    ensures Next(terms, After(terms, k), LateRun(terms)[k]) == After(terms, k + 1)
  {
  }

  lemma LateRunGoesOn(terms: Terms, k: nat)
    requires terms.pongWait >= 2 && 0 <= terms.lag && 0 <= terms.skew <= terms.prompt
    requires terms.prompt + terms.lag > terms.pongWait - PingInterval(terms.pongWait)
    requires 3 <= k < |LateRun(terms)|
    ensures Enabled(terms, After(terms, k), LateRun(terms)[k])
    ensures Next(terms, After(terms, k), LateRun(terms)[k]) == After(terms, k + 1)
  {
    if k < 5 {
    } else if k == 5 {
    } else {
    }
  }

  lemma LateRunExpires(terms: Terms) returns (l: Link)
    requires terms.pongWait >= 2 && 0 <= terms.lag && 0 <= terms.skew <= terms.prompt
    requires terms.prompt + terms.lag > terms.pongWait - PingInterval(terms.pongWait)
    ensures Connection(terms).Reachable(l) && l.now > l.deadline
  {
    var m := Connection(terms);
    assert m.CanRun(m.start, []) && m.Outcome(m.start, []) == m.start;
    l := m.start;
    for k := 0 to |LateRun(terms)|
      invariant m.Reachable(l)
      invariant l == After(terms, k)
    {
      if k < 3 { LateRunBegins(terms, k); } else { LateRunGoesOn(terms, k); }
      m.ReachableStep(l, LateRun(terms)[k]);
      l := Next(terms, l, LateRun(terms)[k]);
    }
  }

  /** The deadline passes in no run if and only if a pong is handled within pongWait - pingInterval of
      the tick that called for its ping. */
  lemma NeverExpiresIff(terms: Terms)
    requires terms.pongWait >= 2 && 0 <= terms.lag && 0 <= terms.skew <= terms.prompt
    ensures (forall l :: Connection(terms).Reachable(l) ==> l.now <= l.deadline)
      <==> terms.prompt + terms.lag <= terms.pongWait - PingInterval(terms.pongWait)
  {
    if terms.prompt + terms.lag <= terms.pongWait - PingInterval(terms.pongWait) {
      forall l | Connection(terms).Reachable(l) ensures l.now <= l.deadline {
        NeverExpires(terms, l);
      }
    } else {
      var late := LateRunExpires(terms);
    }
  }
}
