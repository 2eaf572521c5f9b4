/** One-time passwords with a retention period. */
module Otp {

  /** The creation time of every live key. */
  type Store = map<string, int>

  predicate Expired(created: int, period: int, now: int) {
    created + period < now
  }

  /** The entries a sweep at time t lets live: Created + period is not before t. */
  function Unexpired(rm: Store, period: int, t: int): Store {
    map k | k in rm && !Expired(rm[k], period, t) :: rm[k]
  }

  /** r is a part of rm: some of its keys, with their creation times. */
  predicate Part(r: Store, rm: Store) {
    forall k :: k in r ==> k in rm && r[k] == rm[k]
  }

  /** What a sweep whose clock readings run from start to end may leave: at least what has not
      expired by the end, at most what had not expired at the start. */
  predicate Swept(rm: Store, r: Store, period: int, start: int, end: int) {
    Part(Unexpired(rm, period, end), r) && Part(r, Unexpired(rm, period, start))
  }

  /** Every key that a sweep removed had expired by its end, every key it left had not by its start. */
  lemma SweptKeys(rm: Store, r: Store, period: int, start: int, end: int)
    requires Swept(rm, r, period, start, end)
    ensures r.Keys <= rm.Keys && Part(r, rm)
    ensures forall k :: k in r ==> !Expired(rm[k], period, start)
    ensures forall k :: k in rm && k !in r ==> Expired(rm[k], period, end)
  {
    forall k | k in rm && !Expired(rm[k], period, end) ensures k in r {
      assert k in Unexpired(rm, period, end);
    }
  }

  class RetentionMap {
    const retentionPeriod: int
    var rm: Store

    constructor (retentionPeriod: int)
      ensures this.retentionPeriod == retentionPeriod && rm == map[]
    {
      this.retentionPeriod := retentionPeriod;
      rm := map[];
    }

    method NewOTP(key: string, now: int)
      modifies this
      ensures rm == old(rm)[key := now]
    {
      rm := rm[key := now];
    }

    /** Accepts a live key once. */
    method VerifyOTP(otp: string) returns (ok: bool)
      modifies this
      ensures ok <==> otp in old(rm)
      ensures rm == old(rm) - {otp}
    {
      if otp !in rm {
        assert rm - {otp} == rm;
        return false;
      }
      rm := rm - {otp};
      return true;
    }

    /** One tick of the retention loop. It visits the entries in any order and reads the clock anew
        for each, so a key may be judged by any of the readings. */
    method Sweep(clock: seq<int>)
      requires |clock| == |rm|
      requires forall i, j :: 0 <= i <= j < |clock| ==> clock[i] <= clock[j]
      modifies this
      ensures forall start, end :: (forall i :: 0 <= i < |clock| ==> start <= clock[i] <= end) ==>
        Swept(old(rm), rm, retentionPeriod, start, end)
    {
      ghost var before := rm;
      var todo := rm.Keys;
      var i := 0;
      assert |todo| == |rm|;
      while todo != {}
        invariant i + |todo| == |clock| && todo <= before.Keys
        invariant Part(rm, before)
        invariant forall k :: k in todo ==> k in rm
        invariant forall k :: k in before && k !in todo ==>
          exists j :: 0 <= j < i && (k in rm <==> !Expired(before[k], retentionPeriod, clock[j]))
        decreases |todo|
      {
        var key :| key in todo;
        if Expired(rm[key], retentionPeriod, clock[i]) {
          rm := rm - {key};
        }
        todo := todo - {key};
        i := i + 1;
        forall k | k in before && k !in todo
          ensures exists j :: 0 <= j < i && (k in rm <==> !Expired(before[k], retentionPeriod, clock[j]))
        {
          if k == key {
            assert k in rm <==> !Expired(before[k], retentionPeriod, clock[i - 1]);
          } else {
            var j :| 0 <= j < i - 1 && (k in rm <==> !Expired(before[k], retentionPeriod, clock[j]));
          }
        }
      }
    }
  }

  /** With one clock reading for the whole sweep the result is fixed: iteration order does not matter. */
  lemma SweepIsFilter(rm: Store, r: Store, period: int, t: int)
    requires Swept(rm, r, period, t, t)
    ensures r == Unexpired(rm, period, t)
  {
    var u := Unexpired(rm, period, t);
    forall k ensures k in r <==> k in u {
      if k in r { assert k in u; }
      if k in u { assert k in r; }
    }
    assert r.Keys == u.Keys;
  }
}
