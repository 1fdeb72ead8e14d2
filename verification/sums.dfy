/** Sums over finite collections, and sizes of sets. */
module Sums {

  ghost function SumOver<T>(f: T -> nat, m: multiset<T>): nat
    decreases |m|
  {
    if m == multiset{} then 0 else
      var x :| x in m;
      f(x) + SumOver(f, m - multiset{x})
  }

  lemma {:induction false} SumPick<T>(f: T -> nat, m: multiset<T>, y: T)
    requires y in m
    ensures SumOver(f, m) == f(y) + SumOver(f, m - multiset{y})
    decreases |m|
  {
    var x :| x in m && SumOver(f, m) == f(x) + SumOver(f, m - multiset{x});
    if x != y {
      var both := m - multiset{x} - multiset{y};
      SumPick(f, m - multiset{x}, y);
      SumPick(f, m - multiset{y}, x);
      assert both == m - multiset{y} - multiset{x};
    }
  }

  lemma SumInsert<T>(f: T -> nat, m: multiset<T>, x: T)
    ensures SumOver(f, m + multiset{x}) == SumOver(f, m) + f(x)
  {
    SumPick(f, m + multiset{x}, x);
    assert m + multiset{x} - multiset{x} == m;
  }

  lemma {:induction false} SumShrinks<T>(f: T -> nat, m: multiset<T>, less: multiset<T>)
    ensures SumOver(f, m - less) <= SumOver(f, m)
    decreases |less|
  {
    if less == multiset{} {
      assert m - less == m;
    } else {
      var x :| x in less;
      var rest := less - multiset{x};
      SumShrinks(f, m, rest);
      assert m - less == m - rest - multiset{x};
      if x in m - rest {
        SumPick(f, m - rest, x);
      } else {
        assert m - less == m - rest;
      }
    }
  }

  ghost function Total<K>(m: map<K, nat>): nat
    decreases |m|
  {
    if m == map[] then 0 else
      var k :| k in m;
      m[k] + Total(m - {k})
  }

  lemma {:induction false} TotalPick<K>(m: map<K, nat>, k: K)
    requires k in m
    ensures Total(m) == m[k] + Total(m - {k})
    decreases |m|
  {
    var j :| j in m && Total(m) == m[j] + Total(m - {j});
    if j != k {
      TotalPick(m - {j}, k);
      TotalPick(m - {k}, j);
      assert m - {j} - {k} == m - {k} - {j};
    }
  }

  lemma TotalUpdate<K>(m: map<K, nat>, k: K, v: nat)
    ensures Total(m[k := v]) + (if k in m then m[k] else 0) == Total(m) + v
  {
    TotalPick(m[k := v], k);
    assert m[k := v] - {k} == m - {k};
    if k in m { TotalPick(m, k); } else { assert m - {k} == m; }
  }

  lemma {:induction false} SumBelow<T>(f: T -> nat, g: T -> nat, h: T -> nat, m: multiset<T>)
    requires forall x :: f(x) <= g(x) + h(x)
    ensures SumOver(f, m) <= SumOver(g, m) + SumOver(h, m)
    decreases |m|
  {
    if m != multiset{} {
      var x :| x in m;
      SumPick(f, m, x);
      SumPick(g, m, x);
      SumPick(h, m, x);
      SumBelow(f, g, h, m - multiset{x});
    }
  }

  lemma {:induction false} TotalBelow<K>(a: map<K, nat>, b: map<K, nat>, c: map<K, nat>)
    requires a.Keys == b.Keys == c.Keys
    requires forall k :: k in a ==> a[k] <= b[k] + c[k]
    ensures Total(a) <= Total(b) + Total(c)
    decreases |a|
  {
    if a != map[] {
      var k :| k in a;
      TotalPick(a, k);
      TotalPick(b, k);
      TotalPick(c, k);
      TotalBelow(a - {k}, b - {k}, c - {k});
    } else {
      assert b == map[] && c == map[];
    }
  }

  lemma {:induction false} TotalZero<K>(a: map<K, nat>)
    requires forall k :: k in a ==> a[k] == 0
    ensures Total(a) == 0
    decreases |a|
  {
    if a != map[] {
      var k :| k in a;
      TotalPick(a, k);
      TotalZero(a - {k});
    }
  }

  lemma {:induction false} SumZero<T>(f: T -> nat, m: multiset<T>)
    requires forall x :: f(x) == 0
    ensures SumOver(f, m) == 0
    decreases |m|
  {
    if m != multiset{} {
      var x :| x in m;
      SumPick(f, m, x);
      SumZero(f, m - multiset{x});
    }
  }

  lemma SubsetSize<T>(a: set<T>, b: set<T>)
    requires a <= b
    ensures |a| <= |b|
    ensures a != b ==> |a| < |b|
  {
    assert b == a + (b - a);
  }
}
