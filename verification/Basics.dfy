/**
  What several parts of the model share.
*/
module Basics {
  datatype Option<+T> = None | Some(value: T)

  function Min(a: int, b: int): int { if a <= b then a else b }
  function Max(a: int, b: int): int { if a <= b then b else a }

  function Pow2(n: nat): (r: nat)
    ensures r > 0
  {
    if n == 0 then 1 else 2 * Pow2(n - 1)
  }

  // What callers promise of a comparison function: negative, zero or positive by a total preorder.
  ghost predicate TotalPreorder<K(!new)>(cmp: (K, K) -> int)
  {
    && (forall a, b :: cmp(a, b) < 0 <==> cmp(b, a) > 0)
    && (forall a, b, c :: cmp(a, b) <= 0 && cmp(b, c) <= 0 ==> cmp(a, c) <= 0)
  }

  lemma LessThan<T(!new)>(cmp: (T, T) -> int, a: T, b: T, c: T)
    requires TotalPreorder(cmp) && cmp(a, b) < 0 && cmp(b, c) <= 0
    ensures cmp(a, c) < 0
  {
    assert cmp(c, a) <= 0 ==> cmp(b, a) <= 0;
    assert cmp(b, a) > 0;
  }

  lemma ThanLess<T(!new)>(cmp: (T, T) -> int, a: T, b: T, c: T)
    requires TotalPreorder(cmp) && cmp(a, b) <= 0 && cmp(b, c) < 0
    ensures cmp(a, c) < 0
  {
    assert cmp(c, a) <= 0 ==> cmp(c, b) <= 0;
    assert cmp(c, b) > 0;
  }

  // The list without its item at idx, whose place the last one takes.
  function Filled<T>(s: seq<T>, idx: nat): seq<T>
    requires idx < |s|
  {
    if idx == |s| - 1 then s[..idx] else s[..|s| - 1][idx := s[|s| - 1]]
  }

  lemma LastMoved<T>(s: seq<T>, idx: nat)
    requires idx < |s|
    ensures multiset(Filled(s, idx)) == multiset(s) - multiset{s[idx]}
    ensures |Filled(s, idx)| == |s| - 1 && forall i :: 0 <= i < |s| - 1 ==> Filled(s, idx)[i] in s
  {
    assert s == s[..|s| - 1] + [s[|s| - 1]];
  }

  ghost function Without<T>(s: seq<T>, k: nat): seq<T>
    requires k < |s|
  {
    s[..k] + s[k + 1..]
  }

  lemma WithoutItems<T>(s: seq<T>, k: nat)
    requires k < |s|
    ensures multiset(Without(s, k)) == multiset(s) - multiset{s[k]}
  {
    assert s == s[..k] + [s[k]] + s[k + 1..];
  }

  // A list without repetitions is as long as the set of its members.
  lemma {:induction false} DistinctCount<T>(xs: seq<T>, s: set<T>)
    requires forall i, j :: 0 <= i < j < |xs| ==> xs[i] != xs[j]
    requires forall x :: x in xs <==> x in s
    ensures |xs| == |s|
  {
    if xs != [] {
      var front, last := xs[..|xs| - 1], xs[|xs| - 1];
      assert xs == front + [last] && last !in front;
      DistinctCount(front, s - {last});
    }
  }
}
