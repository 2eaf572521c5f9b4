/** Sums of a quantity over a finite set of identifiers, and sizes of finite sets. */
module Sums {

  ghost function Total<K>(keys: set<K>, f: map<K, nat>): nat
    requires keys <= f.Keys
  {
    if keys == {} then 0 else var k :| k in keys; f[k] + Total(keys - {k}, f)
  }

  lemma {:induction false} TotalSplit<K>(keys: set<K>, f: map<K, nat>, k: K)
    requires keys <= f.Keys && k in keys
    ensures Total(keys, f) == f[k] + Total(keys - {k}, f)
    decreases |keys|
  {
    var j :| j in keys && Total(keys, f) == f[j] + Total(keys - {j}, f);
    if j != k {
      TotalSplit(keys - {j}, f, k);
      TotalSplit(keys - {k}, f, j);
      assert keys - {j} - {k} == keys - {k} - {j};
    }
  }

  lemma {:induction false} TotalSame<K>(keys: set<K>, f: map<K, nat>, g: map<K, nat>)
    requires keys <= f.Keys && keys <= g.Keys
    requires forall k :: k in keys ==> f[k] == g[k]
    ensures Total(keys, f) == Total(keys, g)
    decreases |keys|
  {
    if keys != {} {
      var k :| k in keys;
      TotalSplit(keys, f, k);
      TotalSplit(keys, g, k);
      TotalSame(keys - {k}, f, g);
    }
  }

  /** When only k changes, the total changes by as much as k does. */
  lemma TotalChange<K>(keys: set<K>, f: map<K, nat>, g: map<K, nat>, k: K)
    requires keys <= f.Keys && keys <= g.Keys && k in keys
    requires forall x :: x in keys && x != k ==> f[x] == g[x]
    ensures Total(keys, g) + f[k] == Total(keys, f) + g[k]
  {
    TotalSplit(keys, f, k);
    TotalSplit(keys, g, k);
    TotalSame(keys - {k}, f, g);
  }

  /** When only j and k change, the total changes by as much as the two do. */
  lemma TotalChangeTwo<K>(keys: set<K>, f: map<K, nat>, g: map<K, nat>, j: K, k: K)
    requires keys <= f.Keys && keys <= g.Keys && j in keys && k in keys && j != k
    requires forall x :: x in keys && x != j && x != k ==> f[x] == g[x]
    ensures Total(keys, g) + f[j] + f[k] == Total(keys, f) + g[j] + g[k]
  {
    var h := f[j := g[j]];
    TotalChange(keys, f, h, j);
    TotalChange(keys, h, g, k);
  }

  lemma {:induction false} Subset<K>(a: set<K>, b: set<K>)
    requires a <= b
    ensures |a| <= |b|
    decreases |a|
  {
    if a != {} {
      var x :| x in a;
      Subset(a - {x}, b - {x});
    }
  }

  lemma OneFewer<K>(s: set<K>, c: K)
    requires c in s
    ensures |s| == |s - {c}| + 1
  {
    assert s == (s - {c}) + {c};
  }

  lemma TwoElements<K>(s: set<K>, x: K, y: K)
    requires x in s && y in s && x != y
    ensures |s| >= 2
  {
    OneFewer(s, x);
    OneFewer(s - {x}, y);
  }

  lemma Shrinks<K>(everyone: set<K>, known: set<K>, who: K)
    requires who in everyone
    ensures who in known ==> everyone - (known + {who}) == everyone - known
    ensures who !in known ==> |everyone - known| == |everyone - (known + {who})| + 1
  {
    var unmet := everyone - known;
    if who !in known {
      OneFewer(unmet, who);
      assert everyone - (known + {who}) == unmet - {who};
    }
  }
}
