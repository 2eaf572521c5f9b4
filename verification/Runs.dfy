/** Transition systems and their runs. A run is given by its steps; a state is reachable if some run
    from the start leads to it. */
module Runs {

  datatype Machine<!S(!new), !L(!new)> = Machine(start: S, enabled: (S, L) -> bool, next: (S, L) --> S) {

    ghost predicate CanStep(s: S, step: L) {
      enabled(s, step) && next.requires(s, step)
    }

    ghost predicate CanRun(s: S, steps: seq<L>)
      decreases |steps|
    {
      steps == [] || (CanStep(s, steps[0]) && CanRun(next(s, steps[0]), steps[1..]))
    }

    ghost function Outcome(s: S, steps: seq<L>): S
      requires CanRun(s, steps)
      decreases |steps|
    {
      if steps == [] then s else Outcome(next(s, steps[0]), steps[1..])
    }

    ghost predicate Reachable(s: S) {
      exists steps :: CanRun(start, steps) && Outcome(start, steps) == s
    }

    ghost predicate Keeps(inv: S -> bool) {
      forall s, step :: inv(s) && CanStep(s, step) ==> inv(next(s, step))
    }

    /** What holds at the start and is kept by every step holds in every reachable state. */
    lemma {:induction false} InvRun(inv: S -> bool, s: S, steps: seq<L>)
      requires Keeps(inv) && inv(s) && CanRun(s, steps)
      ensures inv(Outcome(s, steps))
      decreases |steps|
    {
      if steps != [] { InvRun(inv, next(s, steps[0]), steps[1..]); }
    }

    lemma ReachableInv(inv: S -> bool, s: S)
      requires Keeps(inv) && inv(start) && Reachable(s)
      ensures inv(s)
    {
      var steps :| CanRun(start, steps) && Outcome(start, steps) == s;
      InvRun(inv, start, steps);
    }

    lemma {:induction false} Chain(s: S, first: seq<L>, second: seq<L>)
      requires CanRun(s, first) && CanRun(Outcome(s, first), second)
      ensures CanRun(s, first + second)
      ensures Outcome(s, first + second) == Outcome(Outcome(s, first), second)
      decreases |first|
    {
      if first == [] {
        assert first + second == second;
      } else {
        Chain(next(s, first[0]), first[1..], second);
        assert (first + second)[1..] == first[1..] + second;
      }
    }

    /** A run up to its k-th step, and one step on. */
    lemma {:induction false} Prefix(s: S, steps: seq<L>, k: nat)
      requires CanRun(s, steps) && k <= |steps|
      ensures CanRun(s, steps[..k])
      ensures k < |steps| ==> CanStep(Outcome(s, steps[..k]), steps[k]) && CanRun(s, steps[..k + 1])
      ensures k < |steps| ==> Outcome(s, steps[..k + 1]) == next(Outcome(s, steps[..k]), steps[k])
      decreases |steps|
    {
      if k == 0 {
        if steps != [] { RunOne(s, steps[0]); assert steps[..1] == [steps[0]]; }
      } else {
        Prefix(next(s, steps[0]), steps[1..], k - 1);
        assert steps[..k][1..] == steps[1..][..k - 1];
        if k < |steps| { assert steps[..k + 1][1..] == steps[1..][..k]; }
      }
    }

    lemma RunOne(s: S, step: L)
      requires CanStep(s, step)
      ensures CanRun(s, [step]) && Outcome(s, [step]) == next(s, step)
    {
      assert CanRun(next(s, step), [step][1..]);
    }

    lemma Prepend(s: S, step: L, rest: seq<L>)
      requires CanStep(s, step) && CanRun(next(s, step), rest)
      ensures CanRun(s, [step] + rest) && Outcome(s, [step] + rest) == Outcome(next(s, step), rest)
    {
      assert ([step] + rest)[1..] == rest;
    }

    /** Some run leads from s to t. */
    ghost predicate Leads(s: S, t: S) {
      exists steps :: CanRun(s, steps) && Outcome(s, steps) == t
    }

    lemma LeadsNowhere(s: S)
      ensures Leads(s, s)
    {
      assert CanRun(s, []);
    }

    lemma LeadsOn(s: S, t: S, step: L)
      requires Leads(s, t) && CanStep(t, step)
      ensures Leads(s, next(t, step))
    {
      var steps :| CanRun(s, steps) && Outcome(s, steps) == t;
      RunOne(t, step);
      Chain(s, steps, [step]);
    }

    lemma LeadsFar(s: S, t: S, u: S)
      requires Leads(s, t) && Leads(t, u)
      ensures Leads(s, u)
    {
      var first :| CanRun(s, first) && Outcome(s, first) == t;
      var second :| CanRun(t, second) && Outcome(t, second) == u;
      Chain(s, first, second);
    }

    lemma ReachableStep(s: S, step: L)
      requires Reachable(s) && CanStep(s, step)
      ensures Reachable(next(s, step))
    {
      var steps :| CanRun(start, steps) && Outcome(start, steps) == s;
      RunOne(s, step);
      Chain(start, steps, [step]);
    }
  }
}
