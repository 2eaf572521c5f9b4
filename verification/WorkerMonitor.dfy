/** A worker thread on a ThreadSafeQueue, at the level of the mutex and the condition variable:
    `do { x = front(); ...; pop(); } while (flag)`, with any number of producers. Both the relay
    thread and the session's write worker have this shape. */
module WorkerMonitor {
  import opened Runs

  /** Where the worker is. `Asleep` is inside cond_var.wait with the lock released; `Awake` has been
      woken and must test again; `Using` is between front() and pop(). */
  datatype Pc = Fetching | Asleep | Awake | Using | Testing | Exited

  /** How far the shutdown sequence has come: the flag is cleared, then "" is pushed. */
  datatype Stage = Running | Cleared | Poisoned

  /** `owed`: pushes whose notify_one is still to come. `front` is what front() referred to, while
      `Using`. `pushed` and `popped` are the whole history of the queue; `last` counts the elements
      popped since the shutdown message went in. */
  datatype Monitor<T> = Monitor(
    queue: seq<T>, owed: nat, pc: Pc, front: seq<T>, stage: Stage, pushed: seq<T>, popped: seq<T>, last: nat)

  datatype Step<T> =
    | Push(item: T)    // a producer, under the lock
    | Notify           // the same producer, afterwards
    | Spurious         // a wake-up without a notify
    | Enter            // the worker calls front() and tests the queue under the lock
    | Retest           // the woken worker tests again
    | Pop
    | Test             // the loop condition
    | Clear            // shutdown: the flag
    | Poison(item: T)  // shutdown: the empty message

  predicate Enabled<T>(s: Monitor<T>, step: Step<T>) {
    match step
    case Push(_) => true
    case Notify => s.owed > 0
    case Spurious => s.pc.Asleep?
    case Enter => s.pc.Fetching?
    case Retest => s.pc.Awake?
    case Pop => s.pc.Using?
    case Test => s.pc.Testing?
    case Clear => s.stage.Running?
    case Poison(_) => s.stage.Cleared?
  }

  /** The predicate of cond_var.wait, evaluated under the lock. */
  function Look<T>(s: Monitor<T>): Monitor<T> {
    if s.queue == [] then s.(pc := Asleep) else s.(pc := Using, front := [s.queue[0]])
  }

  function Pushed<T>(s: Monitor<T>, item: T): Monitor<T> {
    s.(queue := s.queue + [item], pushed := s.pushed + [item], owed := s.owed + 1)
  }

  function Next<T>(s: Monitor<T>, step: Step<T>): Monitor<T>
    requires Enabled(s, step)
  {
    match step
    case Push(item) => Pushed(s, item)
    case Notify => s.(owed := s.owed - 1, pc := if s.pc.Asleep? then Awake else s.pc)
    case Spurious => s.(pc := Awake)
    case Enter => Look(s)
    case Retest => Look(s)
    case Pop =>
      // popping an empty queue is undefined; StableFront shows that it does not happen
      if s.queue == [] then s.(pc := Testing)
      else s.(queue := s.queue[1..], popped := s.popped + [s.queue[0]], pc := Testing,
              last := if s.stage.Poisoned? then s.last + 1 else s.last)
    case Test => s.(pc := if s.stage.Running? then Fetching else Exited)
    case Clear => s.(stage := Cleared)
    case Poison(item) => Pushed(s, item).(stage := Poisoned)
  }

  function Start<T>(): Monitor<T> { Monitor([], 0, Fetching, [], Running, [], [], 0) }

  ghost function Machinery<T(!new)>(): Machine<Monitor<T>, Step<T>> { Machine(Start(), Enabled, Next) }

  ghost predicate Reachable<T(!new)>(s: Monitor<T>) { Machinery<T>().Reachable(s) }

  /** 1 while the worker has an element it has not popped. */
  function InHand(pc: Pc): nat { if pc.Using? then 1 else 0 }

  predicate Inv<T(==)>(s: Monitor<T>) {
    && s.popped + s.queue == s.pushed
    && (s.pc.Asleep? && s.queue != [] ==> s.owed > 0)
    && (s.pc.Using? ==> s.queue != [] && s.front == [s.queue[0]])
    && (s.pc.Exited? ==> !s.stage.Running?)
    && (!s.stage.Poisoned? ==> s.last == 0)
    // after the shutdown message: at most one element is ever taken, and until it is, one is there
    && (s.stage.Poisoned? ==> s.last <= 1)
    && (s.stage.Poisoned? && s.last == 1 ==> s.pc.Testing? || s.pc.Exited?)
    && (s.stage.Poisoned? && s.last == 0 && !s.pc.Exited? && !s.pc.Testing? ==> s.queue != [])
  }

  lemma InvStep<T>(s: Monitor<T>, step: Step<T>)
    requires Inv(s) && Enabled(s, step)
    ensures Inv(Next(s, step))
  {
    var t := Next(s, step);
    match step
    case Push(item) => assert s.popped + t.queue == (s.popped + s.queue) + [item];
    case Poison(item) => assert s.popped + t.queue == (s.popped + s.queue) + [item];
    case Pop => assert t.popped + t.queue == s.popped + ([s.queue[0]] + s.queue[1..]);
    case _ =>
  }

  lemma ReachableInv<T(!new)>(s: Monitor<T>)
    requires Reachable(s)
    ensures Inv(s)
  {
    var m := Machinery<T>();
    forall s, step | Inv(s) && m.CanStep(s, step) ensures Inv(m.next(s, step)) {
      InvStep(s, step);
    }
    m.ReachableInv(Inv, s);
  }

  // Main results ---------------------------------------------------------------------------------

  /** No lost wake-up: a worker asleep on a non-empty queue always has a notify coming. */
  lemma NoLostWakeUp<T(!new)>(s: Monitor<T>)
    requires Reachable(s) && s.pc.Asleep? && s.queue != []
    ensures s.owed > 0 && Next(s, Notify).pc.Awake?
  {
    ReachableInv(s);
  }

  /** First in, first out; and whatever is pushed between front() and pop(), the element popped is
      the one front() showed, from a queue that is not empty. */
  lemma StableFront<T(!new)>(s: Monitor<T>)
    requires Reachable(s)
    ensures s.popped + s.queue == s.pushed
    ensures s.pc.Using? ==> s.queue != [] && Next(s, Pop).popped == s.popped + s.front
  {
    ReachableInv(s);
  }

  /** The steps the worker is waiting for after shutdown: its own, and its wake-up. */
  predicate Progress<T>(s: Monitor<T>, step: Step<T>) {
    match step
    case Push(_) => false
    case Clear => false
    case Poison(_) => false
    case Notify => s.pc.Asleep?
    case _ => true
  }

  function Remaining(pc: Pc): nat {
    match pc
    case Asleep => 5
    case Awake => 4
    case Fetching => 4
    case Using => 2
    case Testing => 1
    case Exited => 0
  }

  /** Shutdown: from every reachable point after the flag is cleared and "" is pushed, the worker is
      not blocked (a step that advances it is enabled until it has exited), every such step brings
      the exit nearer and no other step takes it further away, and at most one more element is taken. */
  lemma ShutdownTerminates<T(!new)>(s: Monitor<T>, step: Step<T>)
    requires Reachable(s) && s.stage.Poisoned?
    ensures s.last <= 1
    ensures !s.pc.Exited? ==> exists next: Step<T> :: Progress(s, next) && Enabled(s, next)
    ensures Enabled(s, step) ==>
      (if Progress(s, step) then Remaining(Next(s, step).pc) < Remaining(s.pc) else Next(s, step).pc == s.pc)
  {
    ReachableInv(s);
    if !s.pc.Exited? {
      var next: Step<T> := match s.pc case Fetching => Enter case Asleep => Notify case Awake => Retest
        case Using => Pop case Testing => Test;
      assert Progress(s, next) && Enabled(s, next);
    }
  }

  /** How many of the steps that advance the worker a run contains. */
  ghost function Advances<T(!new)>(s: Monitor<T>, steps: seq<Step<T>>): nat
    requires Machinery<T>().CanRun(s, steps)
    decreases |steps|
  {
    if steps == [] then 0
    else (if Progress(s, steps[0]) then 1 else 0) + Advances(Next(s, steps[0]), steps[1..])
  }

  /** So in any run after shutdown at most five advancing steps are possible, and as soon as
      `Remaining` of them have happened the worker has exited. */
  lemma {:induction false} ShutdownRun<T(!new)>(s: Monitor<T>, steps: seq<Step<T>>)
    requires Reachable(s) && s.stage.Poisoned? && Machinery<T>().CanRun(s, steps)
    ensures Advances(s, steps) + Remaining(Machinery<T>().Outcome(s, steps).pc) <= Remaining(s.pc)
    ensures Machinery<T>().Outcome(s, steps).last <= 1
    decreases |steps|
  {
    ReachableInv(s);
    if steps != [] {
      ShutdownTerminates(s, steps[0]);
      Machinery<T>().ReachableStep(s, steps[0]);
      ShutdownRun(Next(s, steps[0]), steps[1..]);
    }
  }

  // What the worker gets done ----------------------------------------------------------------------

  /** The worker does not give up before it is told to. */
  lemma WorksWhileRunning<T(!new)>(s: Monitor<T>)
    requires Reachable(s) && s.stage.Running?
    ensures !s.pc.Exited?
  {
    ReachableInv(s);
  }

  lemma OneStep<T(!new)>(s: Monitor<T>, t: Monitor<T>, step: Step<T>) returns (u: Monitor<T>)
    requires Reachable(t) && Machinery<T>().Leads(s, t) && Enabled(t, step)
    ensures Reachable(u) && Machinery<T>().Leads(s, u) && u == Next(t, step)
  {
    u := Next(t, step);
    Machinery<T>().LeadsOn(s, t, step);
    Machinery<T>().ReachableStep(t, step);
  }

  /** With something in the queue the worker comes to have its oldest element in hand. */
  lemma TakesInHand<T(!new)>(s: Monitor<T>) returns (t: Monitor<T>)
    requires Reachable(s) && s.stage.Running? && s.queue != []
    ensures Reachable(t) && Machinery<T>().Leads(s, t) && t.pc.Using? && t.front == [s.queue[0]]
    ensures t.queue == s.queue && t.popped == s.popped && t.stage.Running?
  {
    ReachableInv(s);
    Machinery<T>().LeadsNowhere(s);
    t := s;
    if t.pc.Testing? { t := OneStep(s, t, Test); }
    if t.pc.Asleep? { t := OneStep(s, t, Notify); }
    if t.pc.Fetching? { t := OneStep(s, t, Enter); }
    if t.pc.Awake? { t := OneStep(s, t, Retest); }
  }

  /** Whatever is queued can be taken, in order, by the worker's own steps and the notifies it is owed. */
  lemma {:induction false} TakesAll<T(!new)>(s: Monitor<T>) returns (t: Monitor<T>)
    requires Reachable(s) && s.stage.Running?
    ensures Reachable(t) && Machinery<T>().Leads(s, t) && t.queue == [] && t.popped == s.popped + s.queue && t.stage.Running?
    decreases |s.queue|
  {
    Machinery<T>().LeadsNowhere(s);
    t := s;
    if s.queue == [] {
      assert s.popped + [] == s.popped;
    } else {
      t := TakesInHand(s);
      t := OneStep(s, t, Pop);
      var u := TakesAll(t);
      Machinery<T>().LeadsFar(s, t, u);
      assert s.popped + s.queue == (s.popped + [s.queue[0]]) + s.queue[1..];
      t := u;
    }
  }

  /** The shutdown sequence can be carried through, and the worker then exits. */
  lemma ShutsDown<T(!new)>(s: Monitor<T>, item: T) returns (t: Monitor<T>)
    requires Reachable(s) && s.stage.Running?
    ensures Machinery<T>().Leads(s, t) && t.pc.Exited? && t.stage.Poisoned? && t.pushed == s.pushed + [item]
  {
    Machinery<T>().LeadsNowhere(s);
    t := OneStep(s, s, Clear);
    t := OneStep(s, t, Poison(item));
    var u := Exits(t);
    Machinery<T>().LeadsFar(s, t, u);
    t := u;
  }

  lemma {:induction false} Exits<T(!new)>(s: Monitor<T>) returns (t: Monitor<T>)
    requires Reachable(s) && s.stage.Poisoned?
    ensures Machinery<T>().Leads(s, t) && t.pc.Exited? && t.stage.Poisoned? && t.pushed == s.pushed
    decreases Remaining(s.pc)
  {
    Machinery<T>().LeadsNowhere(s);
    t := s;
    if !s.pc.Exited? {
      ReachableInv(s);
      var step: Step<T> := match s.pc case Fetching => Enter case Asleep => Notify case Awake => Retest
        case Using => Pop case Testing => Test;
      t := OneStep(s, s, step);
      var u := Exits(t);
      Machinery<T>().LeadsFar(s, t, u);
      t := u;
    }
  }
}
