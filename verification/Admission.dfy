/** Admission over timed runs: keys are issued at login, consumed by a connection, or swept. A sweep
    visits the keys one by one, and logins and connections go on meanwhile. */
module Admission {
  import Events
  import opened Otp
  import opened Runs

  datatype Response = Unauthorized | UpgradeFailed | Accepted

  /** The sweep that is going on, if any: when it began, and the keys it must still come to. */
  datatype Round = Resting | Sweeping(began: int, todo: set<string>)

  /** `issued` remembers every key and its creation time; `admitted` maps every client ever
      registered to the key it consumed; `swept` is when the last complete sweep began. */
  datatype Desk = Desk(
    now: int, swept: int, round: Round, live: Store, issued: Store, consumed: set<string>, expired: set<string>,
    admitted: map<nat, string>, members: set<nat>)

  datatype Rules = Rules(period: int, gap: int)

  datatype Event =
    | Login(t: int, key: string)
    | Connect(t: int, otp: string, uuid: string, color: string, upgrades: bool, client: nat)
    | StartSweep(t: int)
    | Visit(t: int, key: string)
    | EndSweep(t: int)
    | Depart(t: int, client: nat)

  /** The checks of the connection handler, in order. */
  function Decide(live: Store, otp: string, uuid: string, color: string, upgrades: bool): Response {
    if otp == "" then Unauthorized
    else if uuid == "" then Unauthorized
    else if color == "" then Unauthorized
    else if otp !in live then Unauthorized
    else if !upgrades then UpgradeFailed
    else Accepted
  }

  /** The key is used up by verification, before the upgrade is attempted. */
  predicate Consumes(live: Store, otp: string, uuid: string, color: string) {
    otp != "" && uuid != "" && color != "" && otp in live
  }

  /** Time does not run back, keys and clients are new, and no more than `gap` passes between the
      beginning of one sweep and the end of the next. The sweep comes to every key that was there
      when it began and still is; it may also come to keys that were added meanwhile. */
  predicate Enabled(s: Desk, rules: Rules, e: Event) {
    && s.now <= e.t <= s.swept + rules.gap
    && match e
       case Login(_, key) => key !in s.issued
       case Connect(_, _, _, _, _, client) => client !in s.admitted
       case StartSweep(_) => s.round.Resting?
       case Visit(_, key) => s.round.Sweeping? && key in s.live
       case EndSweep(_) => s.round.Sweeping? && s.round.todo !! s.live.Keys
       case Depart(_, client) => true
  }

  function Next(s: Desk, rules: Rules, e: Event): Desk
    requires Enabled(s, rules, e)
  {
    match e
    case Login(t, key) => s.(now := t, live := s.live[key := t], issued := s.issued[key := t])
    case Connect(t, otp, uuid, color, upgrades, client) =>
      if Consumes(s.live, otp, uuid, color)
      then
        var u := s.(now := t, live := s.live - {otp}, consumed := s.consumed + {otp});
        if Decide(s.live, otp, uuid, color, upgrades).Accepted?
        then u.(admitted := s.admitted[client := otp], members := s.members + {client})
        else u
      else s.(now := t)
    case StartSweep(t) => s.(now := t, round := Sweeping(t, s.live.Keys))
    case Visit(t, key) =>
      var u := s.(now := t, round := s.round.(todo := s.round.todo - {key}));
      if Otp.Expired(s.live[key], rules.period, t)
      then u.(live := s.live - {key}, expired := s.expired + {key})
      else u
    case EndSweep(t) => s.(now := t, swept := s.round.began, round := Resting)
    case Depart(t, client) => s.(now := t, members := s.members - {client})
  }

  function Opened(t: int): Desk { Desk(t, t, Resting, map[], map[], {}, {}, map[], {}) }

  ghost function Office(rules: Rules, t: int): Machine<Desk, Event> {
    Machine(Opened(t), (s, e) => Enabled(s, rules, e), (s, e) requires Enabled(s, rules, e) => Next(s, rules, e))
  }

  /** What some run of an office that opened at some time leads to. */
  ghost predicate Reachable(s: Desk, rules: Rules) {
    exists t :: Office(rules, t).Reachable(s)
  }

  /** Issued keys are live, consumed or expired, and only one of these. */
  predicate Partitioned(s: Desk) {
    && s.issued.Keys == s.live.Keys + s.consumed + s.expired
    && s.live.Keys !! s.consumed && s.live.Keys !! s.expired && s.consumed !! s.expired
  }

  /** Every client ever registered used up a key of its own. */
  predicate OwnKeys(s: Desk) {
    && s.members <= s.admitted.Keys
    && (forall c :: c in s.admitted ==> s.admitted[c] in s.consumed)
    && (forall c, d :: c in s.admitted && d in s.admitted && s.admitted[c] == s.admitted[d] ==> c == d)
  }

  /** The key was issued since `began`, or had not expired by then. */
  predicate Survived(created: int, period: int, began: int) {
    created >= began || !Otp.Expired(created, period, began)
  }

  /** A live key has survived the last complete sweep, and the present one once it has been visited. */
  predicate Young(s: Desk, rules: Rules) {
    && Part(s.live, s.issued)
    && (forall k :: k in s.live ==> Survived(s.live[k], rules.period, s.swept))
    && s.swept <= s.now
    && (s.round.Sweeping? ==>
      && s.round.began <= s.now
      && forall k :: k in s.live && k !in s.round.todo ==> Survived(s.live[k], rules.period, s.round.began))
  }

  /** Only keys older than the period have expired. */
  predicate ExpiredOld(s: Desk, rules: Rules) {
    forall k :: k in s.expired ==> k in s.issued && s.now - s.issued[k] > rules.period
  }

  predicate Inv(s: Desk, rules: Rules) {
    Partitioned(s) && OwnKeys(s) && Young(s, rules) && ExpiredOld(s, rules)
  }

  lemma PartitionedStep(s: Desk, rules: Rules, e: Event)
    requires Partitioned(s) && Enabled(s, rules, e)
    ensures Partitioned(Next(s, rules, e))
  {
  }

  lemma OwnKeysStep(s: Desk, rules: Rules, e: Event)
    requires Partitioned(s) && OwnKeys(s) && Enabled(s, rules, e)
    ensures OwnKeys(Next(s, rules, e))
  {
  }

  lemma YoungStep(s: Desk, rules: Rules, e: Event)
    requires Young(s, rules) && Enabled(s, rules, e)
    ensures Young(Next(s, rules, e), rules)
  {
  }

  lemma ExpiredOldStep(s: Desk, rules: Rules, e: Event)
    requires ExpiredOld(s, rules) && Young(s, rules) && Partitioned(s) && Enabled(s, rules, e)
    ensures ExpiredOld(Next(s, rules, e), rules)
  {
  }

  lemma InvStep(s: Desk, rules: Rules, e: Event)
    requires Inv(s, rules) && Enabled(s, rules, e)
    ensures Inv(Next(s, rules, e), rules)
  {
    PartitionedStep(s, rules, e);
    OwnKeysStep(s, rules, e);
    YoungStep(s, rules, e);
    ExpiredOldStep(s, rules, e);
  }

  lemma ReachableInv(s: Desk, rules: Rules)
    requires Reachable(s, rules)
    ensures Inv(s, rules)
  {
    var t :| Office(rules, t).Reachable(s);
    var m, inv := Office(rules, t), (d: Desk) => Inv(d, rules);
    forall d, e | inv(d) && m.CanStep(d, e) ensures inv(m.next(d, e)) {
      InvStep(d, rules, e);
    }
    m.ReachableInv(inv, s);
  }

  // Main results ---------------------------------------------------------------------------------

  /** Over any run of logins, connections, sweeps and departures: keys are conserved, only keys older
      than the period expire, and clients map injectively to keys that were consumed for them. */
  lemma AdmissionConserves(s: Desk, rules: Rules)
    requires Reachable(s, rules)
    ensures Partitioned(s) && OwnKeys(s) && ExpiredOld(s, rules)
    ensures |s.issued| == |s.live| + |s.consumed| + |s.expired|
  {
    ReachableInv(s, rules);
    assert |s.live.Keys + s.consumed + s.expired| == |s.live.Keys| + |s.consumed| + |s.expired|;
  }

  /** A request names a live key and misses no parameter. */
  predicate Complete(s: Desk, e: Event)
    requires e.Connect?
  {
    e.otp != "" && e.uuid != "" && e.color != "" && e.otp in s.live
  }

  /** A connection request consumes its key exactly if it names a live key and misses no parameter;
      otherwise it is refused and nothing changes but the time. If it does and the upgrade succeeds it is
      accepted, and its client registered with that key; if the upgrade fails nobody is registered, but the
      key is gone. */
  lemma RequestConsumes(s: Desk, rules: Rules, e: Event)
    requires Enabled(s, rules, e) && e.Connect?
    ensures var t, response := Next(s, rules, e), Decide(s.live, e.otp, e.uuid, e.color, e.upgrades);
      && (Complete(s, e) && e.upgrades ==>
        response == Accepted && t.members == s.members + {e.client} && t.admitted == s.admitted[e.client := e.otp])
      && (Complete(s, e) && !e.upgrades ==> response == UpgradeFailed && t.members == s.members && t.admitted == s.admitted)
      && (Complete(s, e) ==> t.live == s.live - {e.otp} && t.consumed == s.consumed + {e.otp} && t.expired == s.expired)
      && (!Complete(s, e) ==> response == Unauthorized && t == s.(now := e.t))
  {
  }

  lemma {:induction false} TimePasses(s: Desk, rules: Rules, began: int, events: seq<Event>)
    requires Office(rules, began).CanRun(s, events)
    ensures s.now <= Office(rules, began).Outcome(s, events).now
    decreases |events|
  {
    if events != [] { TimePasses(Next(s, rules, events[0]), rules, began, events[1..]); }
  }

  /** Nobody asks with this key. */
  predicate Unasked(events: seq<Event>, key: string) {
    forall i :: 0 <= i < |events| && events[i].Connect? ==> events[i].otp != key
  }

  lemma {:induction false} StaysLive(s: Desk, rules: Rules, began: int, events: seq<Event>, key: string)
    requires Office(rules, began).CanRun(s, events) && Unasked(events, key)
    requires key in s.live && key in s.issued && Office(rules, began).Outcome(s, events).now <= s.live[key] + rules.period
    ensures key in Office(rules, began).Outcome(s, events).live
    decreases |events|
  {
    if events != [] {
      var next := Next(s, rules, events[0]);
      TimePasses(next, rules, began, events[1..]);
      assert events[0].Connect? ==> events[0].otp != key;
      StaysLive(next, rules, began, events[1..], key);
    }
  }

  /** A key works: issued at time t, and not yet used, it is good for a connection after any run that has
      not gone on for longer than the period, whatever else was asked, issued or swept meanwhile. */
  lemma KeyWorks(s: Desk, rules: Rules, began: int, t: int, key: string, events: seq<Event>, e: Event)
    requires Enabled(s, rules, Login(t, key)) && key != ""
    requires var m, s1 := Office(rules, began), Next(s, rules, Login(t, key));
      && m.CanRun(s1, events) && Unasked(events, key) && m.Outcome(s1, events).now <= t + rules.period
      && e.Connect? && e.otp == key && e.uuid != "" && e.color != "" && e.upgrades && Enabled(m.Outcome(s1, events), rules, e)
    ensures var u := Office(rules, began).Outcome(Next(s, rules, Login(t, key)), events);
      && Decide(u.live, key, e.uuid, e.color, true) == Accepted
      && e.client in Next(u, rules, e).members && Next(u, rules, e).admitted[e.client] == key
  {
    StaysLive(Next(s, rules, Login(t, key)), rules, began, events, key);
    assert Complete(Office(rules, began).Outcome(Next(s, rules, Login(t, key)), events), e);
  }

  // Sweeps and departures --------------------------------------------------------------------------

  /** What is left of the keys when those in todo are judged at time t. */
  function Kept(live: Store, todo: set<string>, period: int, t: int): Store {
    map k | k in live && !(k in todo && live[k] + period < t) :: live[k]
  }

  lemma KeptOn(live: Store, todo: set<string>, period: int, t: int, k: string)
    requires k in todo && k in live
    ensures Kept(if live[k] + period < t then live - {k} else live, todo - {k}, period, t) == Kept(live, todo, period, t)
  {
  }

  /** The visits of a sweep, all at time t. */
  lemma {:induction false} VisitAll(s: Desk, rules: Rules, began: int, t: int) returns (u: Desk)
    requires s.round.Sweeping? && s.round.todo <= s.live.Keys && s.now == t <= s.swept + rules.gap
    ensures Office(rules, began).Leads(s, u)
    ensures u.round == Sweeping(s.round.began, {}) && u.live == Kept(s.live, s.round.todo, rules.period, t)
    ensures u == s.(round := u.round, live := u.live, expired := u.expired)
    decreases |s.round.todo|
  {
    var m := Office(rules, began);
    m.LeadsNowhere(s);
    if s.round.todo == {} {
      u := s;
      assert Kept(s.live, {}, rules.period, t) == s.live;
    } else {
      var k :| k in s.round.todo;
      KeptOn(s.live, s.round.todo, rules.period, t, k);
      var s1 := Next(s, rules, Visit(t, k));
      m.LeadsOn(s, s, Visit(t, k));
      u := VisitAll(s1, rules, began, t);
      m.LeadsFar(s, s1, u);
    }
  }

  /** A sweep: at any time it may begin it can run to its end, and then exactly the keys older than the
      period are gone. It also keeps the office open: the gap counts from its beginning. */
  lemma SweepRuns(s: Desk, rules: Rules, began: int, t: int) returns (u: Desk)
    requires Office(rules, began).Reachable(s) && s.round.Resting? && s.now <= t <= s.swept + rules.gap
    ensures Office(rules, began).Leads(s, u)
    ensures u.round.Resting? && u.now == u.swept == t && u.members == s.members
    ensures forall k :: k in u.live <==> k in s.live && t - s.live[k] <= rules.period
    ensures forall k :: k in u.live ==> u.live[k] == s.live[k]
  {
    var m := Office(rules, began);
    m.LeadsNowhere(s);
    var s1 := Next(s, rules, StartSweep(t));
    m.LeadsOn(s, s, StartSweep(t));
    var s2 := VisitAll(s1, rules, began, t);
    m.LeadsFar(s, s1, s2);
    u := Next(s2, rules, EndSweep(t));
    m.LeadsOn(s, s2, EndSweep(t));
  }

  /** A registered client is a member until it departs, and then never again. */
  lemma {:induction false} MemberUntil(s: Desk, rules: Rules, began: int, events: seq<Event>, client: nat)
    requires Office(rules, began).CanRun(s, events) && client in s.admitted
    ensures var u := Office(rules, began).Outcome(s, events);
      && client in u.admitted
      && (client in u.members <==> client in s.members && forall i :: 0 <= i < |events| && events[i].Depart? ==> events[i].client != client)
    decreases |events|
  {
    if events != [] {
      MemberUntil(Next(s, rules, events[0]), rules, began, events[1..], client);
      forall i | 0 < i < |events| ensures events[i] == events[1..][i - 1] {}
    }
  }

  predicate UsedUp(s: Desk, key: string) {
    key in s.consumed || key in s.expired
  }

  lemma {:induction false} UsedUpForEver(s: Desk, rules: Rules, began: int, events: seq<Event>, key: string)
    requires Office(rules, began).CanRun(s, events) && UsedUp(s, key)
    ensures UsedUp(Office(rules, began).Outcome(s, events), key)
    decreases |events|
  {
    if events != [] { UsedUpForEver(Next(s, rules, events[0]), rules, began, events[1..], key); }
  }

  /** No key is good for two connections, nor for one after it was swept: whatever happens in between,
      a request with a key that was once consumed or swept is refused. */
  lemma NeverTwice(s: Desk, rules: Rules, began: int, events: seq<Event>, key: string, uuid: string, color: string, upgrades: bool)
    requires Office(rules, began).Reachable(s) && Office(rules, began).CanRun(s, events) && UsedUp(s, key)
    ensures Decide(Office(rules, began).Outcome(s, events).live, key, uuid, color, upgrades) == Unauthorized
  {
    var m := Office(rules, began);
    var t := m.Outcome(s, events);
    UsedUpForEver(s, rules, began, events, key);
    var first :| m.CanRun(m.start, first) && m.Outcome(m.start, first) == s;
    m.Chain(m.start, first, events);
    assert Reachable(t, rules);
    ReachableInv(t, rules);
  }

  /** No key is accepted later than period + gap after it was issued. */
  lemma AgeBound(s: Desk, rules: Rules, e: Event)
    requires Reachable(s, rules) && Enabled(s, rules, e) && e.Connect? && rules.period >= 0
    requires Decide(s.live, e.otp, e.uuid, e.color, e.upgrades) != Unauthorized
    ensures e.otp in s.issued && e.t - s.issued[e.otp] <= rules.period + rules.gap
  {
    ReachableInv(s, rules);
    assert Survived(s.live[e.otp], rules.period, s.swept);
  }

  /** A sweep only removes keys older than the period. */
  lemma NeverSweptYoung(s: Desk, rules: Rules, e: Event, k: string)
    requires Reachable(s, rules) && Enabled(s, rules, e) && !e.Connect?
    requires k in s.live && k !in Next(s, rules, e).live
    ensures e.Visit? && e.key == k && k in s.issued && e.t - s.issued[k] > rules.period
  {
    ReachableInv(s, rules);
  }

  /** The server's constants: five seconds, a sweep every 400 ms that is over `late` after its tick. */
  function Server(late: nat): Rules {
    Rules(5 * Events.SECOND, 400 * Events.MILLISECOND + late)
  }

  lemma ServerAgeBound(s: Desk, e: Event, late: nat)
    requires Reachable(s, Server(late)) && Enabled(s, Server(late), e) && e.Connect?
    requires Decide(s.live, e.otp, e.uuid, e.color, e.upgrades) != Unauthorized
    ensures e.otp in s.issued && e.t - s.issued[e.otp] <= 5_400 * Events.MILLISECOND + late
  {
    AgeBound(s, Server(late), e);
  }

  /** And a key is good for the server's five seconds at least. */
  lemma ServerKeyWorks(s: Desk, late: nat, began: int, t: int, key: string, events: seq<Event>, e: Event)
    requires Enabled(s, Server(late), Login(t, key)) && key != ""
    requires var m, s1 := Office(Server(late), began), Next(s, Server(late), Login(t, key));
      && m.CanRun(s1, events) && Unasked(events, key) && m.Outcome(s1, events).now <= t + 5_000 * Events.MILLISECOND
      && e.Connect? && e.otp == key && e.uuid != "" && e.color != "" && e.upgrades && Enabled(m.Outcome(s1, events), Server(late), e)
    ensures var u := Office(Server(late), began).Outcome(Next(s, Server(late), Login(t, key)), events);
      e.client in Next(u, Server(late), e).members
  {
    KeyWorks(s, Server(late), began, t, key, events, e);
  }
}
