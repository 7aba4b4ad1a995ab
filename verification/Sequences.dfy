/** Sums and searches over sequences. */
module Sequences {

  function Sum<T>(weight: T -> nat, s: seq<T>): nat {
    if s == [] then 0 else weight(s[0]) + Sum(weight, s[1..])
  }

  lemma {:induction false} SumUpdate<T>(weight: T -> nat, s: seq<T>, k: nat, x: T)
    requires k < |s|
    ensures Sum(weight, s[k := x]) == Sum(weight, s) - weight(s[k]) + weight(x)
  {
    if k > 0 {
      SumUpdate(weight, s[1..], k - 1, x);
      assert s[k := x][1..] == s[1..][k - 1 := x];
    } else {
      assert s[k := x][1..] == s[1..];
    }
  }

  lemma {:induction false} SumAlike<T>(weight: T -> nat, s: seq<T>, each: nat)
    requires forall k | 0 <= k < |s| :: weight(s[k]) == each
    ensures Sum(weight, s) == each * |s|
  {
    if s != [] {
      SumAlike(weight, s[1..], each);
    }
  }

  /** A list after another, seen from its last element. */
  lemma LastElement<T>(p: seq<T>, q: seq<T>)
    requires q != []
    ensures var front, x := q[..|q| - 1], q[|q| - 1];
      q == front + [x] && p + q == p + front + [x]
  {
  }

  /** The first position where `p` holds, or the length. */
  function FirstWhere<T>(p: T -> bool, s: seq<T>): (k: nat)
    ensures k <= |s|
    ensures k < |s| ==> p(s[k])
    ensures forall j | 0 <= j < k :: !p(s[j])
  {
    if s == [] then 0 else if p(s[0]) then 0 else 1 + FirstWhere(p, s[1..])
  }

  /** The number of positions whose element meets a condition. */
  function CountWhere<T>(p: T -> bool, s: seq<T>): nat {
    if s == [] then 0 else CountWhere(p, s[..|s| - 1]) + (if p(s[|s| - 1]) then 1 else 0)
  }

  lemma CountOneMore<T(!new)>(s: seq<T>, x: T)
    ensures forall p: T -> bool :: CountWhere(p, s + [x]) == CountWhere(p, s) + (if p(x) then 1 else 0)
  {
    assert (s + [x])[..|s|] == s;
  }
}
