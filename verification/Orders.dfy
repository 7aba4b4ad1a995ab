/** Orders used by queries and by in-memory sorting. */
module Orders {

  /** Bytewise order of strings. */
  predicate Less(a: string, b: string) {
    if b == [] then false
    else if a == [] then true
    else a[0] < b[0] || (a[0] == b[0] && Less(a[1..], b[1..]))
  }

  /** Up to position `k` the strings agree; there the first one ends, or has the smaller character. */
  predicate FirstDifference(a: string, b: string, k: nat) {
    && k <= |a| && k < |b| && a[..k] == b[..k]
    && (k == |a| || a[k] < b[k])
  }

  lemma {:induction false} LessIs(a: string, b: string)
    ensures Less(a, b) <==> exists k: nat :: FirstDifference(a, b, k)
    decreases |a|
  {
    if a == [] || b == [] || a[0] != b[0] {
      assert b != [] && (a == [] || a[0] < b[0]) ==> FirstDifference(a, b, 0);
      assert forall k: nat | FirstDifference(a, b, k) && k > 0 :: a[..k][0] == b[..k][0];
    } else {
      LessIs(a[1..], b[1..]);
      if k: nat :| FirstDifference(a[1..], b[1..], k) {
        assert a[..k + 1] == [a[0]] + a[1..][..k] && b[..k + 1] == [b[0]] + b[1..][..k];
        assert FirstDifference(a, b, k + 1);
      }
      if k: nat :| FirstDifference(a, b, k) {
        assert k > 0;
        assert a[1..][..k - 1] == a[..k][1..] && b[1..][..k - 1] == b[..k][1..];
        assert FirstDifference(a[1..], b[1..], k - 1);
      }
    }
  }

  lemma {:induction false} LessIrreflexive(a: string)
    ensures !Less(a, a)
  {
    if a != [] {
      LessIrreflexive(a[1..]);
    }
  }

  lemma {:induction false} LessTransitive(a: string, b: string, c: string)
    requires Less(a, b) && Less(b, c)
    ensures Less(a, c)
    decreases |a|
  {
    if a != [] && a[0] == b[0] && b[0] == c[0] {
      LessTransitive(a[1..], b[1..], c[1..]);
    }
  }

  lemma {:induction false} LessTotal(a: string, b: string)
    requires a != b
    ensures Less(a, b) || Less(b, a)
    decreases |a|
  {
    if a != [] && b != [] && a[0] == b[0] {
      assert a == [a[0]] + a[1..] && b == [b[0]] + b[1..];
      LessTotal(a[1..], b[1..]);
    }
  }

  lemma LessAsymmetric(a: string, b: string)
    requires Less(a, b)
    ensures !Less(b, a) && a != b
  {
    LessIrreflexive(a);
    if Less(b, a) {
      LessTransitive(a, b, a);
    }
  }

  predicate IsLeast(m: string, ids: set<string>) {
    m in ids && forall x | x in ids && x != m :: Less(m, x)
  }

  lemma {:induction false} FindLeast(ids: set<string>) returns (m: string)
    requires ids != {}
    ensures IsLeast(m, ids)
    decreases |ids|
  {
    var x :| x in ids;
    var rest := ids - {x};
    if rest == {} {
      assert ids == {x};
      m := x;
    } else {
      var n := FindLeast(rest);
      if Less(n, x) {
        m := n;
      } else {
        LessTotal(n, x);
        m := x;
        forall y | y in ids && y != x
          ensures Less(x, y)
        {
          if y != n {
            LessTransitive(x, n, y);
          }
        }
      }
    }
  }

  lemma LeastExists(ids: set<string>)
    requires ids != {}
    ensures exists m :: IsLeast(m, ids)
  {
    var m := FindLeast(ids);
  }

  lemma LeastUnique(m: string, n: string, ids: set<string>)
    requires IsLeast(m, ids) && IsLeast(n, ids)
    ensures m == n
  {
    if m != n {
      LessAsymmetric(m, n);
    }
  }

  function Least(ids: set<string>): (m: string)
    requires ids != {}
    ensures IsLeast(m, ids)
  {
    LeastExists(ids);
    assert forall m, n | IsLeast(m, ids) && IsLeast(n, ids) :: m == n by {
      forall m, n | IsLeast(m, ids) && IsLeast(n, ids)
        ensures m == n
      {
        LeastUnique(m, n, ids);
      }
    }
    var m :| m in ids && IsLeast(m, ids);
    m
  }

  /** The elements of a set in ascending order: what ORDER BY id delivers. */
  function Ascending(ids: set<string>): seq<string>
    decreases |ids|
  {
    if ids == {} then []
    else
      var m := Least(ids);
      [m] + Ascending(ids - {m})
  }

  lemma {:induction false} AscendingLists(ids: set<string>)
    ensures |Ascending(ids)| == |ids|
    ensures forall x :: x in Ascending(ids) <==> x in ids
    ensures forall i, j | 0 <= i < j < |Ascending(ids)| :: Less(Ascending(ids)[i], Ascending(ids)[j])
    decreases |ids|
  {
    if ids != {} {
      var m := Least(ids);
      AscendingLists(ids - {m});
      var rest := Ascending(ids - {m});
      assert Ascending(ids) == [m] + rest;
      forall i, j | 0 <= i < j < |Ascending(ids)|
        ensures Less(Ascending(ids)[i], Ascending(ids)[j])
      {
        if i == 0 {
          assert rest[j - 1] in rest;
        } else {
          assert Ascending(ids)[i] == rest[i - 1] && Ascending(ids)[j] == rest[j - 1];
        }
      }
    }
  }

  lemma AscendingDistinct(ids: set<string>)
    ensures forall i, j | 0 <= i < j < |Ascending(ids)| :: Ascending(ids)[i] != Ascending(ids)[j]
  {
    AscendingLists(ids);
    forall i, j | 0 <= i < j < |Ascending(ids)|
      ensures Ascending(ids)[i] != Ascending(ids)[j]
    {
      LessIrreflexive(Ascending(ids)[i]);
    }
  }

  /** Taking the first element away leaves the rest of the listing. */
  lemma AscendingTail(ids: set<string>)
    requires ids != {}
    ensures Ascending(ids) != [] && Ascending(ids)[0] in ids
    ensures Ascending(ids - {Ascending(ids)[0]}) == Ascending(ids)[1..]
  {
  }

  // --- Sorting by a comparison ----------------------------------------------------------------

  /** What a comparison must satisfy for sorting to make sense. */
  ghost predicate WeakOrder<T(!new)>(less: (T, T) -> bool) {
    && (forall x, y :: less(x, y) ==> !less(y, x))
    && (forall x, y, z :: !less(y, x) && !less(z, y) ==> !less(z, x))
  }

  ghost predicate Sorted<T>(less: (T, T) -> bool, s: seq<T>) {
    forall i, j | 0 <= i < j < |s| :: !less(s[j], s[i])
  }

  function Insert<T>(less: (T, T) -> bool, x: T, s: seq<T>): seq<T> {
    if s == [] || !less(s[0], x) then [x] + s else [s[0]] + Insert(less, x, s[1..])
  }

  function SortBy<T>(less: (T, T) -> bool, s: seq<T>): seq<T> {
    if s == [] then [] else Insert(less, s[0], SortBy(less, s[1..]))
  }

  lemma {:induction false} InsertAdds<T>(less: (T, T) -> bool, x: T, s: seq<T>)
    ensures multiset(Insert(less, x, s)) == multiset{x} + multiset(s)
  {
    if s != [] && less(s[0], x) {
      InsertAdds(less, x, s[1..]);
      assert s == [s[0]] + s[1..];
    }
  }

  lemma {:induction false} SortPermutes<T>(less: (T, T) -> bool, s: seq<T>)
    ensures multiset(SortBy(less, s)) == multiset(s) && |SortBy(less, s)| == |s|
  {
    if s != [] {
      SortPermutes(less, s[1..]);
      InsertAdds(less, s[0], SortBy(less, s[1..]));
      assert s == [s[0]] + s[1..];
      assert |multiset(SortBy(less, s))| == |multiset(s)|;
    }
  }

  lemma {:induction false} InsertKeepsSorted<T(!new)>(less: (T, T) -> bool, x: T, s: seq<T>)
    requires WeakOrder(less) && Sorted(less, s)
    ensures Sorted(less, Insert(less, x, s))
  {
    if s == [] || !less(s[0], x) {
      var r := [x] + s;
      forall i, j | 0 <= i < j < |r|
        ensures !less(r[j], r[i])
      {
        if i == 0 && j > 1 {
          assert !less(s[j - 1], s[0]);
        }
      }
    } else {
      var rest := Insert(less, x, s[1..]);
      InsertKeepsSorted(less, x, s[1..]);
      InsertAdds(less, x, s[1..]);
      var r := [s[0]] + rest;
      forall i, j | 0 <= i < j < |r|
        ensures !less(r[j], r[i])
      {
        if i == 0 {
          assert rest[j - 1] in multiset(rest);
          if rest[j - 1] != x {
            assert rest[j - 1] in s[1..];
          }
        }
      }
    }
  }

  lemma {:induction false} SortSorts<T(!new)>(less: (T, T) -> bool, s: seq<T>)
    requires WeakOrder(less)
    ensures Sorted(less, SortBy(less, s))
  {
    if s != [] {
      SortSorts(less, s[1..]);
      InsertKeepsSorted(less, s[0], SortBy(less, s[1..]));
    }
  }

  lemma SameHead<T>(less: (T, T) -> bool, p: seq<T>, q: seq<T>)
    requires p != [] && q != [] && Sorted(less, p) && Sorted(less, q) && multiset(p) == multiset(q)
    requires forall x, y | x in p && y in p && x != y :: less(x, y) || less(y, x)
    ensures p[0] == q[0]
  {
    assert p[0] in multiset(q) && q[0] in multiset(p);
  }

  lemma MultisetTail<T>(p: seq<T>)
    requires p != []
    ensures multiset(p[1..]) == multiset(p) - multiset{p[0]}
  {
    assert p == [p[0]] + p[1..];
  }

  lemma SortedTails<T>(less: (T, T) -> bool, p: seq<T>, q: seq<T>)
    requires Sorted(less, p) && Sorted(less, q) && multiset(p) == multiset(q)
    requires p != [] && q != [] && p[0] == q[0]
    ensures Sorted(less, p[1..]) && Sorted(less, q[1..]) && multiset(p[1..]) == multiset(q[1..])
    ensures forall x | x in p[1..] :: x in p
  {
    MultisetTail(p);
    MultisetTail(q);
  }

  /** Two sorted permutations of the same elements are the same list when no two of the elements tie:
      the result does not depend on the sorting algorithm, nor on the order of its input. */
  lemma {:induction false} SortedUnique<T>(less: (T, T) -> bool, p: seq<T>, q: seq<T>)
    requires Sorted(less, p) && Sorted(less, q) && multiset(p) == multiset(q)
    requires forall x, y | x in p && y in p && x != y :: less(x, y) || less(y, x)
    ensures p == q
    decreases |p|
  {
    assert |p| == |multiset(p)| == |multiset(q)| == |q|;
    if p != [] {
      SameHead(less, p, q);
      SortedTails(less, p, q);
      SortedUnique(less, p[1..], q[1..]);
      assert p == [p[0]] + p[1..] && q == [q[0]] + q[1..];
    }
  }
}
