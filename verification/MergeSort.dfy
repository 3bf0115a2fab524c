/**
  The bottom-up mergesort on linked nodes that uthash.h and utlist.h share: passes over the list
  merge neighbouring runs, which double in length, until a pass needs one merge only.
*/
module MergeSort {
  import opened Basics

  class Node<K> {
    const key: K
    var next: Node?<K>
    var prev: Node?<K>

    constructor (key: K)
      ensures this.key == key && next == null && prev == null
    {
      this.key, next, prev := key, null, null;
    }
  }

  type Nodes<K> = seq<Node<K>>

  // ---------- what the passes compute ----------

  // Of two equal keys the one from the left run comes first.
  ghost function Merge<K(!new)>(cmp: (K, K) -> int, xs: Nodes<K>, ys: Nodes<K>): (r: Nodes<K>)
    ensures |r| == |xs| + |ys|
  {
    if xs == [] then ys
    else if ys == [] then xs
    else if cmp(xs[0].key, ys[0].key) <= 0 then [xs[0]] + Merge(cmp, xs[1..], ys)
    else [ys[0]] + Merge(cmp, xs, ys[1..])
  }

  ghost function Pass<K(!new)>(cmp: (K, K) -> int, s: Nodes<K>, size: nat): (r: Nodes<K>)
    requires size > 0
    ensures |r| == |s|
  {
    if s == [] then []
    else
      var a, b := Min(size, |s|), Min(2 * size, |s|);
      Merge(cmp, s[..a], s[a..b]) + Pass(cmp, s[b..], size)
  }

  ghost function SortFrom<K(!new)>(cmp: (K, K) -> int, s: Nodes<K>, size: nat): (r: Nodes<K>)
    requires size > 0
    ensures |r| == |s|
    decreases |s| - size
  {
    var t := Pass(cmp, s, size);
    if |s| <= 2 * size then t else SortFrom(cmp, t, 2 * size)
  }

  // ---------- it is a stable sort ----------

  ghost predicate Sorted<K(!new)>(cmp: (K, K) -> int, s: Nodes<K>)
  {
    forall i, j :: 0 <= i < j < |s| ==> cmp(s[i].key, s[j].key) <= 0
  }

  // The nodes whose keys compare equal to x, in order.
  ghost function Alike<K(!new)>(cmp: (K, K) -> int, s: Nodes<K>, x: K): (r: Nodes<K>)
  {
    if s == [] then []
    else (if cmp(x, s[0].key) == 0 then [s[0]] else []) + Alike(cmp, s[1..], x)
  }

  lemma {:induction false} AlikeConcat<K(!new)>(cmp: (K, K) -> int, s: Nodes<K>, t: Nodes<K>, x: K)
    ensures Alike(cmp, s + t, x) == Alike(cmp, s, x) + Alike(cmp, t, x)
  {
    if s == [] {
      assert s + t == t;
    } else {
      var head := if cmp(x, s[0].key) == 0 then [s[0]] else [];
      assert (s + t)[0] == s[0] && (s + t)[1..] == s[1..] + t;
      AlikeConcat(cmp, s[1..], t, x);
      assert head + (Alike(cmp, s[1..], x) + Alike(cmp, t, x)) == (head + Alike(cmp, s[1..], x)) + Alike(cmp, t, x);
    }
  }

  lemma {:induction false} NoneAlike<K(!new)>(cmp: (K, K) -> int, s: Nodes<K>, x: K)
    requires forall i :: 0 <= i < |s| ==> cmp(x, s[i].key) != 0
    ensures Alike(cmp, s, x) == []
  {
    if s != [] {
      NoneAlike(cmp, s[1..], x);
    }
  }

  // Keeping all alike nodes in order, for every key, loses and adds none.
  ghost predicate Stable<K(!new)>(cmp: (K, K) -> int, s: Nodes<K>, t: Nodes<K>)
  {
    forall x :: Alike(cmp, t, x) == Alike(cmp, s, x)
  }

  lemma {:induction false} AlikeCounts<K(!new)>(cmp: (K, K) -> int, s: Nodes<K>, node: Node<K>)
    requires TotalPreorder(cmp)
    ensures multiset(Alike(cmp, s, node.key))[node] == multiset(s)[node]
  {
    if s != [] {
      assert s == [s[0]] + s[1..];
      AlikeCounts(cmp, s[1..], node);
      assert cmp(node.key, node.key) == 0;
    }
  }

  lemma StableIsPermutation<K(!new)>(cmp: (K, K) -> int, s: Nodes<K>, t: Nodes<K>)
    requires TotalPreorder(cmp) && Stable(cmp, s, t)
    ensures multiset(t) == multiset(s)
  {
    forall node: Node<K> ensures multiset(t)[node] == multiset(s)[node] {
      AlikeCounts(cmp, s, node);
      AlikeCounts(cmp, t, node);
      assert Alike(cmp, t, node.key) == Alike(cmp, s, node.key);
    }
  }

  lemma {:induction false} MergeMembers<K(!new)>(cmp: (K, K) -> int, xs: Nodes<K>, ys: Nodes<K>, node: Node<K>)
    requires node in Merge(cmp, xs, ys)
    ensures node in xs || node in ys
  {
    if xs != [] && ys != [] {
      if cmp(xs[0].key, ys[0].key) <= 0 {
        if node != xs[0] {
          MergeMembers(cmp, xs[1..], ys, node);
        }
      } else if node != ys[0] {
        MergeMembers(cmp, xs, ys[1..], node);
      }
    }
  }

  lemma {:induction false} MergeSorts<K(!new)>(cmp: (K, K) -> int, xs: Nodes<K>, ys: Nodes<K>)
    requires TotalPreorder(cmp) && Sorted(cmp, xs) && Sorted(cmp, ys)
    ensures Sorted(cmp, Merge(cmp, xs, ys))
  {
    if xs != [] && ys != [] {
      if cmp(xs[0].key, ys[0].key) <= 0 {
        MergeSorts(cmp, xs[1..], ys);
        PrependSorted(cmp, xs[0], xs[1..], ys);
      } else {
        MergeSorts(cmp, xs, ys[1..]);
        PrependSorted(cmp, ys[0], xs, ys[1..]);
      }
    }
  }

  lemma PrependSorted<K(!new)>(cmp: (K, K) -> int, first: Node<K>, xs: Nodes<K>, ys: Nodes<K>)
    requires TotalPreorder(cmp) && Sorted(cmp, Merge(cmp, xs, ys)) && Sorted(cmp, xs) && Sorted(cmp, ys)
    requires xs != [] ==> cmp(first.key, xs[0].key) <= 0
    requires ys != [] ==> cmp(first.key, ys[0].key) <= 0
    ensures Sorted(cmp, [first] + Merge(cmp, xs, ys))
  {
    var r := Merge(cmp, xs, ys);
    hide Sorted, TotalPreorder, Merge;
    forall j | 0 <= j < |r| ensures cmp(first.key, r[j].key) <= 0 {
      MergeMembers(cmp, xs, ys, r[j]);
      if r[j] in xs {
        BelowAll(cmp, first, xs, r[j]);
      } else {
        BelowAll(cmp, first, ys, r[j]);
      }
    }
    SortedFront(cmp, first, r);
  }

  lemma BelowAll<K(!new)>(cmp: (K, K) -> int, first: Node<K>, xs: Nodes<K>, node: Node<K>)
    requires TotalPreorder(cmp) && Sorted(cmp, xs) && node in xs && cmp(first.key, xs[0].key) <= 0
    ensures cmp(first.key, node.key) <= 0
  {
    var i :| 0 <= i < |xs| && xs[i] == node;
    assert i > 0 ==> cmp(xs[0].key, xs[i].key) <= 0;
  }

  lemma SortedFront<K(!new)>(cmp: (K, K) -> int, first: Node<K>, r: Nodes<K>)
    requires Sorted(cmp, r) && forall j :: 0 <= j < |r| ==> cmp(first.key, r[j].key) <= 0
    ensures Sorted(cmp, [first] + r)
  {}

  lemma {:induction false} MergeIsStable<K(!new)>(cmp: (K, K) -> int, xs: Nodes<K>, ys: Nodes<K>, x: K)
    requires TotalPreorder(cmp) && Sorted(cmp, xs)
    ensures Alike(cmp, Merge(cmp, xs, ys), x) == Alike(cmp, xs, x) + Alike(cmp, ys, x)
  {
    hide TotalPreorder, Sorted, Alike, Merge;
    AlikeNothing(cmp, x);
    if xs == [] || ys == [] {
      MergeWithNothing(cmp, xs, ys);
      assert xs + [] == xs && [] + ys == ys;
    } else if cmp(xs[0].key, ys[0].key) <= 0 {
      MergeStep(cmp, xs, ys);
      SortedRest(cmp, xs);
      MergeIsStable(cmp, xs[1..], ys, x);
      AlikeFront(cmp, xs[0], Merge(cmp, xs[1..], ys), x);
      AlikeFront(cmp, xs[0], xs[1..], x);
      assert xs == [xs[0]] + xs[1..];
    } else {
      MergeStep(cmp, xs, ys);
      MergeIsStable(cmp, xs, ys[1..], x);
      AlikeFront(cmp, ys[0], Merge(cmp, xs, ys[1..]), x);
      AlikeFront(cmp, ys[0], ys[1..], x);
      assert ys == [ys[0]] + ys[1..];
      if cmp(x, ys[0].key) == 0 {
        NoneAbove(cmp, xs, ys[0].key, x);
      }
    }
  }

  lemma AlikeNothing<K(!new)>(cmp: (K, K) -> int, x: K)
    ensures Alike<K>(cmp, [], x) == []
  {}

  lemma MergeWithNothing<K(!new)>(cmp: (K, K) -> int, xs: Nodes<K>, ys: Nodes<K>)
    requires xs == [] || ys == []
    ensures Merge(cmp, xs, ys) == xs + ys
  {}

  lemma SortedRest<K(!new)>(cmp: (K, K) -> int, xs: Nodes<K>)
    requires Sorted(cmp, xs) && xs != []
    ensures Sorted(cmp, xs[1..])
  {}

  lemma AlikeFront<K(!new)>(cmp: (K, K) -> int, first: Node<K>, s: Nodes<K>, x: K)
    ensures Alike(cmp, [first] + s, x) == (if cmp(x, first.key) == 0 then [first] else []) + Alike(cmp, s, x)
  {
    assert ([first] + s)[1..] == s;
  }

  // A sorted list that starts above y has none alike y.
  lemma NoneAbove<K(!new)>(cmp: (K, K) -> int, xs: Nodes<K>, y: K, x: K)
    requires TotalPreorder(cmp) && Sorted(cmp, xs) && xs != [] && cmp(xs[0].key, y) > 0 && cmp(x, y) == 0
    ensures Alike(cmp, xs, x) == []
  {
    forall i | 0 <= i < |xs| ensures cmp(x, xs[i].key) != 0 {
      if i > 0 {
        LessThan(cmp, y, xs[0].key, xs[i].key);
      }
      ThanLess(cmp, x, y, xs[i].key);
    }
    NoneAlike(cmp, xs, x);
  }

  // Runs of the given size, the last of which may be shorter, are sorted.
  ghost predicate SortedRuns<K(!new)>(cmp: (K, K) -> int, s: Nodes<K>, size: nat)
    requires size > 0
  {
    s == [] || (Sorted(cmp, s[..Min(size, |s|)]) && SortedRuns(cmp, s[Min(size, |s|)..], size))
  }

  lemma {:induction false} SingleRuns<K(!new)>(cmp: (K, K) -> int, s: Nodes<K>)
    ensures SortedRuns(cmp, s, 1)
  {
    if s != [] {
      SingleRuns(cmp, s[1..]);
    }
  }

  lemma {:induction false} PassDoubles<K(!new)>(cmp: (K, K) -> int, s: Nodes<K>, size: nat)
    requires TotalPreorder(cmp) && size > 0 && SortedRuns(cmp, s, size)
    ensures SortedRuns(cmp, Pass(cmp, s, size), 2 * size) && Stable(cmp, s, Pass(cmp, s, size))
  {
    if s != [] {
      var a, b := Min(size, |s|), Min(2 * size, |s|);
      var xs, ys, zs := s[..a], s[a..b], s[b..];
      TwoRuns(cmp, s, size);
      PassDoubles(cmp, zs, size);
      MergeSorts(cmp, xs, ys);
      ThreeParts(s, a, b);
      hide Sorted, Merge, Alike, SortedRuns, TotalPreorder;
      var m, rest := Merge(cmp, xs, ys), Pass(cmp, zs, size);
      assert |m| == b && Pass(cmp, s, size) == m + rest;
      hide Pass;
      RunsJoin(cmp, m, rest, 2 * size);
      forall x ensures Alike(cmp, m + rest, x) == Alike(cmp, s, x) {
        MergeIsStable(cmp, xs, ys, x);
        AlikeConcat(cmp, m, rest, x);
        AlikeConcat(cmp, xs + ys, zs, x);
        AlikeConcat(cmp, xs, ys, x);
      }
    }
  }

  lemma ThreeParts<T>(s: seq<T>, a: nat, b: nat)
    requires a <= b <= |s|
    ensures s == s[..a] + s[a..b] + s[b..]
  {}

  lemma TwoRuns<K(!new)>(cmp: (K, K) -> int, s: Nodes<K>, size: nat)
    requires size > 0 && SortedRuns(cmp, s, size) && s != []
    ensures var a, b := Min(size, |s|), Min(2 * size, |s|);
            Sorted(cmp, s[..a]) && Sorted(cmp, s[a..b]) && SortedRuns(cmp, s[b..], size)
  {
    var a, b := Min(size, |s|), Min(2 * size, |s|);
    var t := s[a..];
    hide Sorted, SortedRuns;
    OneRun(cmp, s, size);
    if t == [] {
      NoRun<K>(cmp, size);
      assert s[a..b] == [] && s[b..] == [];
    } else {
      OneRun(cmp, t, size);
      assert t[..Min(size, |t|)] == s[a..b] && t[Min(size, |t|)..] == s[b..];
    }
  }

  lemma OneRun<K(!new)>(cmp: (K, K) -> int, s: Nodes<K>, size: nat)
    requires size > 0 && SortedRuns(cmp, s, size) && s != []
    ensures Sorted(cmp, s[..Min(size, |s|)]) && SortedRuns(cmp, s[Min(size, |s|)..], size)
  {}

  lemma NoRun<K(!new)>(cmp: (K, K) -> int, size: nat)
    requires size > 0
    ensures Sorted<K>(cmp, []) && SortedRuns<K>(cmp, [], size)
  {}

  lemma RunsJoin<K(!new)>(cmp: (K, K) -> int, m: Nodes<K>, rest: Nodes<K>, size: nat)
    requires size > 0 && Sorted(cmp, m) && SortedRuns(cmp, rest, size) && 0 < |m| <= size && (|m| == size || rest == [])
    ensures SortedRuns(cmp, m + rest, size)
  {
    var s := m + rest;
    assert s[..Min(size, |s|)] == m && s[Min(size, |s|)..] == rest;
  }

  lemma {:induction false} SortFromSorts<K(!new)>(cmp: (K, K) -> int, s: Nodes<K>, size: nat)
    requires TotalPreorder(cmp) && size > 0 && SortedRuns(cmp, s, size)
    ensures Sorted(cmp, SortFrom(cmp, s, size)) && Stable(cmp, s, SortFrom(cmp, s, size))
    decreases |s| - size
  {
    var t := Pass(cmp, s, size);
    PassDoubles(cmp, s, size);
    if |s| <= 2 * size {
      assert t[..|t|] == t;
    } else {
      SortFromSorts(cmp, t, 2 * size);
    }
  }

  // For every list and every total preorder the result is sorted, alike nodes keep their order,
  // and so the nodes are the same.
  lemma SortIsStableSort<K(!new)>(cmp: (K, K) -> int, s: Nodes<K>)
    requires TotalPreorder(cmp)
    ensures var t := SortFrom(cmp, s, 1);
            Sorted(cmp, t) && Stable(cmp, s, t) && multiset(t) == multiset(s)
  {
    SingleRuns(cmp, s);
    SortFromSorts(cmp, s, 1);
    StableIsPermutation(cmp, s, SortFrom(cmp, s, 1));
  }

  // ---------- the lists in memory ----------

  ghost predicate Linked<K>(s: Nodes<K>)
    reads s
  {
    forall i :: 0 <= i < |s| - 1 ==> s[i].next == s[i + 1]
  }

  // A complete list, up to the null behind its last node.
  ghost predicate Chain<K>(s: Nodes<K>)
    reads s
  {
    Linked(s) && (s != [] ==> s[|s| - 1].next == null)
  }

  ghost predicate BackLinked<K>(s: Nodes<K>)
    reads s
  {
    forall i :: 0 <= i < |s| ==> s[i].prev == if i == 0 then null else s[i - 1]
  }

  ghost function First<K>(s: Nodes<K>): Node?<K> { if s == [] then null else s[0] }
  ghost function Last<K>(s: Nodes<K>): Node?<K> { if s == [] then null else s[|s| - 1] }

  ghost predicate Distinct<K>(s: Nodes<K>) { forall i, j :: 0 <= i < j < |s| ==> s[i] != s[j] }

  // The merged part, what is left of the left run, and the rest of the list share no node.
  ghost predicate Parts<K>(out: Nodes<K>, ps: Nodes<K>, qs: Nodes<K>)
  {
    Distinct(out + ps + qs)
  }

  // What is merged is a list of its own, known by its two ends.
  ghost predicate Merged<K>(out: Nodes<K>, list: Node?<K>, tail: Node?<K>)
    reads out
  {
    Linked(out) && BackLinked(out) && list == First(out) && tail == Last(out)
  }

  lemma MoveLeft<K>(out: Nodes<K>, ps: Nodes<K>, qs: Nodes<K>)
    requires Parts(out, ps, qs) && ps != []
    ensures Parts(out + [ps[0]], ps[1..], qs) && ps[0] !in out
  {
    assert out + ps + qs == out + [ps[0]] + ps[1..] + qs;
    assert (out + ps + qs)[|out|] == ps[0];
    assert forall i :: 0 <= i < |out| ==> (out + ps + qs)[i] == out[i];
  }

  lemma MoveRight<K>(out: Nodes<K>, ps: Nodes<K>, qs: Nodes<K>)
    requires Parts(out, ps, qs) && qs != []
    ensures Parts(out + [qs[0]], ps, qs[1..]) && qs[0] !in out
  {
    var s, t := out + ps + qs, out + [qs[0]] + ps + qs[1..];
    assert s[|out| + |ps|] == qs[0];
    assert forall i :: 0 <= i < |out| ==> s[i] == out[i];
    forall i, j | 0 <= i < j < |t| ensures t[i] != t[j] {
      assert t[i] == s[WasAt(|out|, |ps|, i)] && t[j] == s[WasAt(|out|, |ps|, j)];
    }
  }

  ghost function WasAt(outs: nat, lefts: nat, i: nat): nat
  {
    if i == outs then outs + lefts else if outs < i <= outs + lefts then i - 1 else i
  }

  lemma PartsApart<K>(out: Nodes<K>, ps: Nodes<K>, qs: Nodes<K>)
    requires Parts(out, ps, qs)
    ensures forall i :: 0 <= i < |ps| ==> ps[i] !in out
    ensures forall i :: 0 <= i < |qs| ==> qs[i] !in out
  {
    var s := out + ps + qs;
    assert forall i :: 0 <= i < |out| ==> s[i] == out[i];
    assert forall i :: 0 <= i < |ps| ==> s[|out| + i] == ps[i];
    assert forall i :: 0 <= i < |qs| ==> s[|out| + |ps| + i] == qs[i];
  }

  // Links node e behind the tail.
  method Append<K>(list: Node?<K>, tail: Node?<K>, e: Node<K>, ghost out: Nodes<K>) returns (head: Node<K>)
    requires Merged(out, list, tail) && Distinct(out + [e])
    modifies out`next, e`prev
    ensures Merged(out + [e], head, e)
  {
    ghost var more := out + [e];
    assert more[|out|] == e;
    forall i | 0 <= i < |out| ensures out[i] != e {
      assert more[i] == out[i] && more[i] != more[|out|];
    }
    ghost var prevs := seq(|out|, i requires 0 <= i < |out| reads out => out[i].prev);
    assert forall i :: 0 <= i < |out| ==> prevs[i] == if i == 0 then null else out[i - 1];
    if tail != null {
      tail.next := e;
      head := list;
    } else {
      head := e;
    }
    e.prev := tail;
    assert Last(more) == e && First(more) == head;
    assert forall i :: 0 <= i < |out| ==> more[i] == out[i];
    forall i | 0 <= i < |more| ensures more[i].prev == if i == 0 then null else more[i - 1] {
      if i < |out| {
        assert out[i] != e;
        assert out[i].prev == prevs[i];
      }
    }
    assert BackLinked(more);
    forall i | 0 <= i < |more| - 1 ensures more[i].next == more[i + 1] {
      if i < |out| - 1 {
        assert out[i].next == out[i + 1];
      }
    }
  }

  // Steps over the left run: psize nodes, at most size.
  method Walk<K>(p: Node<K>, size: nat, ghost s: Nodes<K>) returns (q: Node?<K>, psize: nat)
    requires Chain(s) && First(s) == p && size > 0
    ensures psize == Min(size, |s|) && q == First(s[psize..])
  {
    q, psize := p, 0;
    for i := 0 to size
      invariant psize == i <= |s| && q == First(s[i..]) && (i < size ==> q != null)
    {
      psize := psize + 1;
      q := q.next;
      assert i + 1 < |s| ==> s[i].next == s[i + 1] && s[i + 1..][0] == s[i + 1];
      if q == null {
        break;
      }
    }
  }

  // The state between two steps of a merge: a merged list, what is left of the left run, and the
  // rest of the list from the right run on.
  ghost predicate Round<K>(nodes: set<Node<K>>, out: Nodes<K>, ps: Nodes<K>, qs: Nodes<K>,
                           list: Node?<K>, tail: Node?<K>, p: Node?<K>, q: Node?<K>)
    reads out, ps, qs
  {
    && Merged(out, list, tail) && Linked(ps) && Chain(qs) && Parts(out, ps, qs)
    && (ps != [] ==> p == ps[0]) && q == First(qs)
    && forall node :: node in out + ps + qs ==> node in nodes
  }

  method TakeLeft<K>(list: Node?<K>, tail: Node?<K>, p: Node<K>, ghost q: Node?<K>,
                     ghost nodes: set<Node<K>>, ghost out: Nodes<K>, ghost ps: Nodes<K>, ghost qs: Nodes<K>)
    returns (head: Node<K>, next: Node?<K>)
    requires Round(nodes, out, ps, qs, list, tail, p, q) && ps != []
    modifies nodes
    ensures Round(nodes, out + [ps[0]], ps[1..], qs, head, p, next, q)
  {
    MoveLeft(out, ps, qs);
    PartsApart(out + [ps[0]], ps[1..], qs);
    DistinctFront(out + [ps[0]], ps[1..], qs);
    assert forall node :: node in out + [ps[0]] + ps[1..] + qs ==> node in out + ps + qs;
    hide Parts, Merged;
    next := p.next;
    head := Append(list, tail, p, out);
    assert forall i :: 0 <= i < |ps| - 1 ==> ps[1..][i] == ps[i + 1];
  }

  method TakeRight<K>(list: Node?<K>, tail: Node?<K>, ghost p: Node?<K>, q: Node<K>,
                      ghost nodes: set<Node<K>>, ghost out: Nodes<K>, ghost ps: Nodes<K>, ghost qs: Nodes<K>)
    returns (head: Node<K>, next: Node?<K>)
    requires Round(nodes, out, ps, qs, list, tail, p, q)
    modifies nodes
    ensures qs != [] && Round(nodes, out + [qs[0]], ps, qs[1..], head, q, p, next)
  {
    MoveRight(out, ps, qs);
    PartsApart(out + [qs[0]], ps, qs[1..]);
    DistinctFront(out + [qs[0]], ps, qs[1..]);
    assert forall node :: node in out + [qs[0]] + ps + qs[1..] ==> node in out + ps + qs;
    hide Parts, Merged;
    next := q.next;
    head := Append(list, tail, q, out);
    assert forall i :: 0 <= i < |qs| - 1 ==> qs[1..][i] == qs[i + 1];
  }

  lemma DistinctFront<K>(out: Nodes<K>, ps: Nodes<K>, qs: Nodes<K>)
    requires Parts(out, ps, qs)
    ensures Distinct(out)
  {
    assert forall i :: 0 <= i < |out| ==> (out + ps + qs)[i] == out[i];
  }

  lemma RoundShows<K>(nodes: set<Node<K>>, out: Nodes<K>, ps: Nodes<K>, qs: Nodes<K>,
                      list: Node?<K>, tail: Node?<K>, p: Node?<K>, q: Node?<K>)
    requires Round(nodes, out, ps, qs, list, tail, p, q)
    ensures (ps != [] ==> p == ps[0]) && q == First(qs)
  {}

  lemma MergeStep<K(!new)>(cmp: (K, K) -> int, xs: Nodes<K>, ys: Nodes<K>)
    requires xs != [] || ys != []
    ensures Merge(cmp, xs, ys) ==
              if xs != [] && (ys == [] || cmp(xs[0].key, ys[0].key) <= 0) then [xs[0]] + Merge(cmp, xs[1..], ys)
              else [ys[0]] + Merge(cmp, xs, ys[1..])
  {
    if ys == [] {
      assert xs == [xs[0]] + xs[1..];
    }
  }

  // The right run: at most size nodes at the start of the rest of the list.
  ghost function Run<K>(rest: Nodes<K>, size: nat): Nodes<K> { rest[..Min(size, |rest|)] }
  ghost function Beyond<K>(rest: Nodes<K>, size: nat): Nodes<K> { rest[Min(size, |rest|)..] }

  lemma RunShows<K>(rest: Nodes<K>, size: nat)
    ensures Run(rest, size) == [] <==> size == 0 || First(rest) == null
    ensures Run(rest, size) != [] ==> Run(rest, size)[0] == rest[0] == First(rest)
    ensures Run(rest, size) == [] ==> Beyond(rest, size) == rest
  {}

  lemma RunStep<K>(rest: Nodes<K>, size: nat)
    requires rest != [] && size > 0
    ensures Run(rest[1..], size - 1) == Run(rest, size)[1..] && Beyond(rest[1..], size - 1) == Beyond(rest, size)
  {}

  lemma MergeNothing<K(!new)>(cmp: (K, K) -> int)
    ensures Merge<K>(cmp, [], []) == []
  {}

  // One step of a merge: the front node of one of the two runs is linked to the tail.
  method MergeOne<K(!new)>(cmp: (K, K) -> int, head: Node?<K>, end: Node?<K>, p: Node?<K>, psize: nat, q: Node?<K>, qsize: nat,
                           ghost nodes: set<Node<K>>, ghost out: Nodes<K>, ghost ps: Nodes<K>, ghost qs: Nodes<K>)
    returns (head': Node?<K>, end': Node?<K>, p': Node?<K>, psize': nat, q': Node?<K>, qsize': nat,
             ghost out': Nodes<K>, ghost ps': Nodes<K>, ghost qs': Nodes<K>)
    requires Round(nodes, out, ps, qs, head, end, p, q) && psize == |ps| && (psize > 0 || (qsize > 0 && q != null))
    modifies nodes
    ensures Round(nodes, out', ps', qs', head', end', p', q') && psize' == |ps'| && psize' + qsize' < psize + qsize
    ensures out' + Merge(cmp, ps', Run(qs', qsize')) == out + Merge(cmp, ps, Run(qs, qsize))
    ensures Beyond(qs', qsize') == Beyond(qs, qsize)
  {
    hide Round, Merge, First, Merged, Chain, Linked, Parts, Run, Beyond;
    RoundShows(nodes, out, ps, qs, head, end, p, q);
    RunShows(qs, qsize);
    MergeStep(cmp, ps, Run(qs, qsize));
    head', end', p', psize', q', qsize' := head, end, p, psize, q, qsize;
    if psize > 0 && (qsize == 0 || q == null || cmp(p.key, q.key) <= 0) {
      head', p' := TakeLeft(head, end, p, q, nodes, out, ps, qs);
      end', psize' := p, psize - 1;
      out', ps', qs' := out + [ps[0]], ps[1..], qs;
    } else {
      head', q' := TakeRight(head, end, p, q, nodes, out, ps, qs);
      end', qsize' := q, qsize - 1;
      out', ps', qs' := out + [qs[0]], ps, qs[1..];
      RunStep(qs, qsize);
    }
  }

  // Merges the left run ps with the run of at most size nodes that starts the rest of the list,
  // and appends the result to what is merged already.
  method MergeRuns<K(!new)>(cmp: (K, K) -> int, list: Node?<K>, tail: Node?<K>, first: Node<K>, lefts: nat, second: Node?<K>,
                            size: nat, ghost nodes: set<Node<K>>, ghost out: Nodes<K>, ghost ps: Nodes<K>, ghost qs: Nodes<K>)
    returns (head: Node?<K>, end: Node?<K>, rest: Node?<K>)
    requires Round(nodes, out, ps, qs, list, tail, first, second) && |ps| == lefts
    modifies nodes
    ensures Round(nodes, out + Merge(cmp, ps, Run(qs, size)), [], Beyond(qs, size), head, end, null, rest)
  {
    hide Round, Merge, Merged, Chain, Linked, Parts, Run, Beyond;
    ghost var o, xs, ys := out, ps, qs;
    var p: Node?<K>, q, psize, qsize: nat := first, second, lefts, size;
    head, end := list, tail;
    while psize > 0 || (qsize > 0 && q != null)
      invariant psize == |xs| && Round(nodes, o, xs, ys, head, end, p, q)
      invariant o + Merge(cmp, xs, Run(ys, qsize)) == out + Merge(cmp, ps, Run(qs, size))
      invariant Beyond(ys, qsize) == Beyond(qs, size)
      decreases psize + qsize
    {
      head, end, p, psize, q, qsize, o, xs, ys := MergeOne(cmp, head, end, p, psize, q, qsize, nodes, o, xs, ys);
    }
    rest := q;
    RoundShows(nodes, o, xs, ys, head, end, p, q);
    RunShows(ys, qsize);
    MergeNothing(cmp);
    assert xs == [] && Run(ys, qsize) == [] && o + [] == o;
    RoundEnds(nodes, o, ys, head, end, p, q);
  }

  lemma RoundEnds<K>(nodes: set<Node<K>>, out: Nodes<K>, qs: Nodes<K>, list: Node?<K>, tail: Node?<K>, p: Node?<K>, q: Node?<K>)
    requires Round(nodes, out, [], qs, list, tail, p, q)
    ensures Round(nodes, out, [], qs, list, tail, null, q)
  {}

  // ---------- one pass over the list ----------

  lemma PassStep<K(!new)>(cmp: (K, K) -> int, s: Nodes<K>, size: nat)
    requires s != [] && size > 0
    ensures var a := Min(size, |s|);
            && Pass(cmp, s, size) == Merge(cmp, s[..a], Run(s[a..], size)) + Pass(cmp, Beyond(s[a..], size), size)
            && |Beyond(s[a..], size)| == |s| - Min(2 * size, |s|)
  {
    hide Merge;
    SecondRun(s, size);
  }

  lemma SecondRun<K>(s: Nodes<K>, size: nat)
    ensures var a, b := Min(size, |s|), Min(2 * size, |s|);
            Run(s[a..], size) == s[a..b] && Beyond(s[a..], size) == s[b..]
  {}

  lemma RoundBegins<K>(nodes: set<Node<K>>, s: Nodes<K>)
    requires Chain(s) && Distinct(s) && forall node :: node in s ==> node in nodes
    ensures Round(nodes, [], [], s, null, null, null, First(s))
  {
    assert [] + [] + s == s;
  }

  lemma RoundSplits<K>(nodes: set<Node<K>>, out: Nodes<K>, s: Nodes<K>, a: nat, list: Node?<K>, tail: Node?<K>, p: Node?<K>)
    requires Round(nodes, out, [], s, list, tail, null, p) && 0 < a <= |s|
    ensures Round(nodes, out, s[..a], s[a..], list, tail, p, First(s[a..]))
  {
    assert out + s[..a] + s[a..] == out + [] + s;
  }

  lemma RoundChain<K>(nodes: set<Node<K>>, out: Nodes<K>, s: Nodes<K>, list: Node?<K>, tail: Node?<K>, p: Node?<K>)
    requires Round(nodes, out, [], s, list, tail, null, p)
    ensures Chain(s) && First(s) == p
  {}

  lemma RoundDone<K>(nodes: set<Node<K>>, out: Nodes<K>, list: Node?<K>, tail: Node?<K>, p: Node?<K>)
    requires Round(nodes, out, [], [], list, tail, null, p)
    ensures Merged(out, list, tail) && Distinct(out) && forall node :: node in out ==> node in nodes
  {
    assert out + [] + [] == out;
  }

  // Merges the first two runs of the rest of the list.
  method MergePair<K(!new)>(cmp: (K, K) -> int, list: Node?<K>, end: Node?<K>, p: Node<K>, size: nat,
                            ghost nodes: set<Node<K>>, ghost out: Nodes<K>, ghost rest: Nodes<K>)
    returns (head: Node?<K>, tail: Node?<K>, next: Node?<K>, ghost out': Nodes<K>, ghost rest': Nodes<K>)
    requires Round(nodes, out, [], rest, list, end, null, p) && size > 0
    modifies nodes
    ensures Round(nodes, out', [], rest', head, tail, null, next)
    ensures out' + Pass(cmp, rest', size) == out + Pass(cmp, rest, size)
    ensures |rest'| == |rest| - Min(2 * size, |rest|) < |rest|
  {
    hide Round, Merged, Chain, Linked, Parts, Distinct, Merge, Pass, First, Run, Beyond;
    RoundChain(nodes, out, rest, list, end, p);
    NotEmpty(rest);
    var q, psize := Walk(p, size, rest);
    ghost var left, right := rest[..psize], rest[psize..];
    RoundSplits(nodes, out, rest, psize, list, end, p);
    PassStep(cmp, rest, size);
    head, tail, next := MergeRuns(cmp, list, end, p, psize, q, size, nodes, out, left, right);
    out', rest' := out + Merge(cmp, left, Run(right, size)), Beyond(right, size);
    assert out + (Merge(cmp, left, Run(right, size)) + Pass(cmp, rest', size)) == out' + Pass(cmp, rest', size);
  }

  // The runs are merged in pairs. The last node still points somewhere afterwards.
  method MergePass<K(!new)>(cmp: (K, K) -> int, first: Node<K>, size: nat, ghost nodes: set<Node<K>>, ghost s: Nodes<K>)
    returns (head: Node<K>, tail: Node<K>, merges: nat)
    requires Chain(s) && Distinct(s) && First(s) == first && size > 0 && forall node :: node in s ==> node in nodes
    modifies nodes
    ensures Merged(Pass(cmp, s, size), head, tail) && Distinct(Pass(cmp, s, size))
    ensures forall node :: node in Pass(cmp, s, size) ==> node in nodes
    ensures merges <= 1 <==> |s| <= 2 * size
  {
    RoundBegins(nodes, s);
    NotEmpty(s);
    hide Round, Merged, Chain, Linked, Parts, Distinct, Merge, Pass, First, Run, Beyond;
    ghost var out, rest: Nodes<K> := [], s;
    var p: Node?<K>, list: Node?<K>, end: Node?<K> := first, null, null;
    merges := 0;
    while p != null
      invariant Round(nodes, out, [], rest, list, end, null, p)
      invariant Pass(cmp, s, size) == out + Pass(cmp, rest, size)
      invariant merges == 0 ==> rest == s
      invariant merges == 1 ==> |rest| == |s| - Min(2 * size, |s|)
      invariant merges >= 2 ==> |s| > 2 * size
      decreases |rest|
    {
      RoundChain(nodes, out, rest, list, end, p);
      NotEmpty(rest);
      merges := merges + 1;
      list, end, p, out, rest := MergePair(cmp, list, end, p, size, nodes, out, rest);
    }
    RoundChain(nodes, out, rest, list, end, p);
    NotEmpty(rest);
    PassOfNothing(cmp, size);
    assert out + [] == out;
    RoundDone(nodes, out, list, end, p);
    MergedEnds(out, list, end);
    head, tail := list, end;
  }

  lemma MergedEnds<K>(out: Nodes<K>, list: Node?<K>, end: Node?<K>)
    requires Merged(out, list, end) && out != []
    ensures list != null && end != null
  {}

  lemma NotEmpty<K>(s: Nodes<K>)
    ensures First(s) == null <==> s == []
  {}

  lemma PassOfNothing<K(!new)>(cmp: (K, K) -> int, size: nat)
    requires size > 0
    ensures Pass<K>(cmp, [], size) == []
  {}

  // ---------- the macros ----------

  ghost predicate RingBack<K>(s: Nodes<K>)
    reads s
  {
    forall i :: 0 <= i < |s| ==> s[i].prev == if i == 0 then s[|s| - 1] else s[i - 1]
  }

  // The end of a pass in DL_SORT2: the head points back to the tail.
  method CloseRing<K>(head: Node<K>, tail: Node<K>, ghost s: Nodes<K>)
    requires Merged(s, head, tail) && Distinct(s)
    modifies head, tail
    ensures Chain(s) && RingBack(s) && First(s) == head
  {
    head.prev := tail;
    tail.next := null;
  }

  // The end of a pass in HASH_SRT.
  method CloseList<K>(head: Node<K>, tail: Node<K>, ghost s: Nodes<K>)
    requires Merged(s, head, tail) && Distinct(s)
    modifies tail
    ensures Chain(s) && BackLinked(s) && First(s) == head && Last(s) == tail
  {
    tail.next := null;
  }

  method RingPass<K(!new)>(cmp: (K, K) -> int, first: Node<K>, size: nat, ghost nodes: set<Node<K>>, ghost s: Nodes<K>)
    returns (head: Node<K>, merges: nat)
    requires Chain(s) && Distinct(s) && First(s) == first && size > 0 && forall node :: node in s ==> node in nodes
    modifies nodes
    ensures var t := Pass(cmp, s, size);
            Chain(t) && RingBack(t) && Distinct(t) && First(t) == head && forall node :: node in t ==> node in nodes
    ensures merges <= 1 <==> |s| <= 2 * size
  {
    hide Chain, Distinct, Pass, Linked, BackLinked, RingBack, First;
    var tail;
    head, tail, merges := MergePass(cmp, first, size, nodes, s);
    EndsAmong(Pass(cmp, s, size), head, tail);
    hide Merged;
    CloseRing(head, tail, Pass(cmp, s, size));
  }

  method ListPass<K(!new)>(cmp: (K, K) -> int, first: Node<K>, size: nat, ghost nodes: set<Node<K>>, ghost s: Nodes<K>)
    returns (head: Node<K>, tail: Node<K>, merges: nat)
    requires Chain(s) && Distinct(s) && First(s) == first && size > 0 && forall node :: node in s ==> node in nodes
    modifies nodes
    ensures var t := Pass(cmp, s, size);
            && Chain(t) && BackLinked(t) && Distinct(t) && First(t) == head && Last(t) == tail
            && forall node :: node in t ==> node in nodes
    ensures merges <= 1 <==> |s| <= 2 * size
  {
    hide Chain, Distinct, Pass, Linked, BackLinked, First, Last;
    head, tail, merges := MergePass(cmp, first, size, nodes, s);
    EndsAmong(Pass(cmp, s, size), head, tail);
    hide Merged;
    CloseList(head, tail, Pass(cmp, s, size));
  }

  lemma EndsAmong<K>(s: Nodes<K>, head: Node<K>, tail: Node<K>)
    requires Merged(s, head, tail)
    ensures head in s && tail in s
  {}

  method SortDoublyLinked<K(!new)>(cmp: (K, K) -> int, list: Node?<K>, ghost s: Nodes<K>) returns (head: Node?<K>)
    requires Chain(s) && Distinct(s) && First(s) == list
    modifies s
    ensures var t := SortFrom(cmp, s, 1); Chain(t) && Distinct(t) && First(t) == head && RingBack(t)
  {
    head := list;
    if head != null {
      hide Merged, Chain, Distinct, Pass, Linked, BackLinked, RingBack, First;
      ghost var t, nodes := s, set node | node in s;
      var size, looping := 1, true;
      while looping
        invariant size > 0 && Chain(t) && Distinct(t) && First(t) == head && head != null
        invariant forall node :: node in t ==> node in nodes
        invariant if looping then SortFrom(cmp, t, size) == SortFrom(cmp, s, 1) else t == SortFrom(cmp, s, 1) && RingBack(t)
        decreases looping, |t| - size
      {
        var merges;
        head, merges := RingPass(cmp, head, size, nodes, t);
        t := Pass(cmp, t, size);
        looping := merges > 1;
        size := size * 2;
      }
    }
  }

  // The table keeps the tail.
  method SortHashList<K(!new)>(cmp: (K, K) -> int, list: Node?<K>, ghost s: Nodes<K>, last: Node?<K>)
    returns (head: Node?<K>, tail: Node?<K>)
    requires Chain(s) && Distinct(s) && First(s) == list && Last(s) == last
    modifies s
    ensures var t := SortFrom(cmp, s, 1);
            Chain(t) && Distinct(t) && First(t) == head && Last(t) == tail && (list != null ==> BackLinked(t))
  {
    head, tail := list, last;
    if head != null {
      hide Merged, Chain, Distinct, Pass, Linked, BackLinked, First, Last;
      ghost var t, nodes := s, set node | node in s;
      var size, looping := 1, true;
      while looping
        invariant size > 0 && Chain(t) && Distinct(t) && First(t) == head && head != null
        invariant forall node :: node in t ==> node in nodes
        invariant if looping then SortFrom(cmp, t, size) == SortFrom(cmp, s, 1)
                  else t == SortFrom(cmp, s, 1) && BackLinked(t) && Last(t) == tail
        decreases looping, |t| - size
      {
        var end, merges;
        head, end, merges := ListPass(cmp, head, size, nodes, t);
        t := Pass(cmp, t, size);
        if merges <= 1 {
          looping, tail := false, end;
        }
        size := size * 2;
      }
    }
  }
}
