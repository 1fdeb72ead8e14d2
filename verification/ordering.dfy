/** Sorting a finite set by a strict total order, the shape of every ordered
    range read in the model: ZRANGEBYSCORE on a sorted set and ORDER BY on a table. */
module Ordering {

  ghost predicate StrictTotal<T(!new)>(lt: (T, T) -> bool) {
    && (forall x :: !lt(x, x))
    && (forall x, y, z :: lt(x, y) && lt(y, z) ==> lt(x, z))
    && (forall x, y :: x != y ==> lt(x, y) || lt(y, x))
  }

  predicate Ascending<T>(lt: (T, T) -> bool, r: seq<T>) {
    forall i, j :: 0 <= i < j < |r| ==> lt(r[i], r[j])
  }

  ghost predicate Least<T>(lt: (T, T) -> bool, x: T, s: set<T>) {
    x in s && forall y :: y in s && y != x ==> lt(x, y)
  }

  lemma {:induction false} LeastExists<T(!new)>(lt: (T, T) -> bool, s: set<T>)
    requires StrictTotal(lt) && s != {}
    ensures exists x :: Least(lt, x, s)
    decreases |s|
  {
    var a :| a in s;
    if s == {a} {
      assert Least(lt, a, s);
    } else {
      var rest := s - {a};
      assert rest != {} by { assert s == {a} + rest; }
      LeastExists(lt, rest);
      var m :| Least(lt, m, rest);
      if lt(a, m) {
        forall y | y in s && y != a ensures lt(a, y) {
          assert y == m || lt(m, y);
        }
        assert Least(lt, a, s);
      } else {
        assert Least(lt, m, s);
      }
    }
  }

  ghost function Sort<T(!new)>(lt: (T, T) -> bool, s: set<T>): (r: seq<T>)
    requires StrictTotal(lt)
    ensures Ascending(lt, r)
    ensures forall x :: x in r <==> x in s
    ensures |r| == |s|
    decreases |s|
  {
    if s == {} then [] else
      LeastExists(lt, s);
      var x :| Least(lt, x, s);
      var tail := Sort(lt, s - {x});
      assert forall i :: 0 <= i < |tail| ==> tail[i] in tail;
      [x] + tail
  }

  lemma HeadIsLeast<T(!new)>(lt: (T, T) -> bool, r: seq<T>, x: T)
    requires Ascending(lt, r) && x in r
    ensures x == r[0] || (lt(r[0], x) && x in r[1..])
  {
    var i :| 0 <= i < |r| && r[i] == x;
    if i > 0 { assert r[1..][i - 1] == x; }
  }

  lemma TailElements<T(!new)>(lt: (T, T) -> bool, r: seq<T>, x: T)
    requires StrictTotal(lt) && Ascending(lt, r) && r != []
    ensures x in r[1..] <==> x in r && x != r[0]
  {
    if x in r[1..] {
      var i :| 0 <= i < |r| - 1 && r[1..][i] == x;
      assert lt(r[0], r[i + 1]);
    } else if x in r {
      HeadIsLeast(lt, r, x);
    }
  }

  /** Two ascending lists of the same elements are one list. */
  lemma {:induction false} SameList<T(!new)>(lt: (T, T) -> bool, r: seq<T>, q: seq<T>)
    requires StrictTotal(lt) && Ascending(lt, r) && Ascending(lt, q)
    requires forall x :: x in r <==> x in q
    ensures r == q
    decreases |r|
  {
    if q != [] { assert q[0] in r; }
    if r != [] {
      assert r[0] in q;
      HeadIsLeast(lt, r, q[0]);
      HeadIsLeast(lt, q, r[0]);
      forall x ensures x in r[1..] <==> x in q[1..] {
        TailElements(lt, r, x);
        TailElements(lt, q, x);
      }
      SameList(lt, r[1..], q[1..]);
      assert r == [r[0]] + r[1..] && q == [q[0]] + q[1..];
    }
  }

  /** An ascending list of the right elements is the sorted list: the order fixes
      it completely. */
  lemma SortUnique<T(!new)>(lt: (T, T) -> bool, r: seq<T>, s: set<T>)
    requires StrictTotal(lt) && Ascending(lt, r)
    requires forall x :: x in r <==> x in s
    ensures r == Sort(lt, s)
  {
    SameList(lt, r, Sort(lt, s));
  }

  lemma AboveIsSuffix<T(!new)>(lt: (T, T) -> bool, q: seq<T>, n: nat, x: T)
    requires StrictTotal(lt) && Ascending(lt, q) && n < |q|
    ensures x in q[n + 1..] <==> x in q && lt(q[n], x)
  {
    if x in q[n + 1..] {
      var i :| 0 <= i < |q| - n - 1 && q[n + 1..][i] == x;
      assert q[n + 1 + i] == x;
    } else if x in q {
      var i :| 0 <= i < |q| && q[i] == x;
      assert i <= n by { assert forall j :: n < j < |q| ==> q[j] == q[n + 1..][j - n - 1]; }
    }
  }

  /** Reading from a position: the sorted list of everything above its n-th
      element is what is left after n+1 elements. */
  lemma SortSuffix<T(!new)>(lt: (T, T) -> bool, s: set<T>, n: nat)
    requires StrictTotal(lt) && n < |s|
    ensures Sort(lt, set x | x in s && lt(Sort(lt, s)[n], x)) == Sort(lt, s)[n + 1..]
  {
    var q := Sort(lt, s);
    var above := set x | x in s && lt(q[n], x);
    forall x ensures x in q[n + 1..] <==> x in above {
      AboveIsSuffix(lt, q, n, x);
    }
    SortUnique(lt, q[n + 1..], above);
  }

  lemma LeastFirst<T(!new)>(lt: (T, T) -> bool, x: T, s: set<T>, rest: seq<T>)
    requires Least(lt, x, s) && Ascending(lt, rest)
    requires forall y :: y in rest <==> y in s - {x}
    ensures Ascending(lt, [x] + rest)
    ensures forall y :: y in [x] + rest <==> y in s
  {
    var r := [x] + rest;
    forall i, j | 0 <= i < j < |r| ensures lt(r[i], r[j]) {
      assert r[j] == rest[j - 1] && rest[j - 1] in rest;
    }
  }

  /** Sorting is taking the least, again and again. */
  lemma SortPeel<T(!new)>(lt: (T, T) -> bool, s: set<T>, x: T)
    requires StrictTotal(lt) && Least(lt, x, s)
    ensures Sort(lt, s) == [x] + Sort(lt, s - {x})
  {
    LeastFirst(lt, x, s, Sort(lt, s - {x}));
    SortUnique(lt, [x] + Sort(lt, s - {x}), s);
  }

  /** The first n of the sorted list. */
  ghost function Top<T(!new)>(lt: (T, T) -> bool, s: set<T>, n: nat): (r: seq<T>)
    requires StrictTotal(lt)
    ensures |r| == if |s| <= n then |s| else n
  {
    var all := Sort(lt, s);
    if |all| <= n then all else all[..n]
  }

  lemma SplitAt<T>(all: seq<T>, n: nat)
    requires 0 < n <= |all|
    ensures all[..n] + all[n..] == all && all[..n][n - 1] == all[n - 1] && all[n - 1] in all
  {
  }

  /** What is left after the first n is everything above the last of them. */
  lemma TopRest<T(!new)>(lt: (T, T) -> bool, s: set<T>, n: nat, last: T, above: set<T>)
    requires StrictTotal(lt) && 0 < n <= |s| && last == Top(lt, s, n)[n - 1]
    requires forall x :: x in above <==> x in s && lt(last, x)
    ensures Top(lt, s, n) + Sort(lt, above) == Sort(lt, s)
  {
    SplitAt(Sort(lt, s), n);
    SortSuffix(lt, s, n - 1);
    assert above == set x | x in s && lt(Sort(lt, s)[n - 1], x);
  }

  lemma TopIn<T(!new)>(lt: (T, T) -> bool, s: set<T>, n: nat)
    requires StrictTotal(lt) && 0 < n <= |s|
    ensures Top(lt, s, n)[n - 1] in s
  {
    SplitAt(Sort(lt, s), n);
  }

  /** One step of a read: `r` is the beginning of the sorted list, `left` the set of
      what comes after. */
  ghost predicate ReadSoFar<T(!new)>(lt: (T, T) -> bool, s: set<T>, r: seq<T>, left: set<T>)
    requires StrictTotal(lt)
  {
    Sort(lt, s) == r + Sort(lt, left) && |s| == |r| + |left|
  }

  lemma ReadOne<T(!new)>(lt: (T, T) -> bool, s: set<T>, r: seq<T>, left: set<T>, x: T)
    requires StrictTotal(lt) && ReadSoFar(lt, s, r, left) && Least(lt, x, left)
    ensures ReadSoFar(lt, s, r + [x], left - {x})
  {
    SortPeel(lt, left, x);
    Regroup(r, x, Sort(lt, left - {x}));
  }

  lemma Regroup<T>(a: seq<T>, x: T, b: seq<T>)
    ensures a + ([x] + b) == (a + [x]) + b
  {
  }

  lemma ReadEnough<T(!new)>(lt: (T, T) -> bool, s: set<T>, r: seq<T>, left: set<T>, n: nat)
    requires StrictTotal(lt) && ReadSoFar(lt, s, r, left)
    requires |r| == n || (|r| <= n && left == {})
    ensures r == Top(lt, s, n)
  {
  }

  lemma ReadNone<T(!new)>(lt: (T, T) -> bool, s: set<T>)
    requires StrictTotal(lt)
    ensures ReadSoFar(lt, s, [], s)
  {
  }

  /** Reading the first n: the least of what is left, until n or none. */
  method ReadTop<T(!new, ==)>(lt: (T, T) -> bool, s: set<T>, n: nat) returns (r: seq<T>)
    requires StrictTotal(lt)
    ensures r == Top(lt, s, n)
  {
    var left := s;
    r := [];
    ReadNone(lt, s);
    while left != {} && |r| < n
      invariant |r| <= n && ReadSoFar(lt, s, r, left)
      decreases |left|
    {
      LeastExists(lt, left);
      ghost var m :| Least(lt, m, left);
      assert m in left && forall y :: y in left && y != m ==> lt(m, y);
      var x :| x in left && forall y :: y in left && y != x ==> lt(x, y);
      ReadOne(lt, s, r, left, x);
      r := r + [x];
      left := left - {x};
    }
    ReadEnough(lt, s, r, left, n);
  }
}
