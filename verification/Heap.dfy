/**
  The priority queue of container.c: a binary heap over a list whose items know their own place.
*/
module Heap {
  import opened Basics

  class Item<K> {
    const key: K
    var index: int

    constructor (key: K)
      ensures this.key == key && index == -1
    {
      this.key, index := key, -1;
    }
  }

  function LeftChild(i: nat): nat { 2 * i + 1 }
  function Parent(i: nat): nat requires i > 0 { (i - 1) / 2 }

  ghost predicate LinkOk<K(!new)>(cmp: (K, K) -> int, s: seq<Item<K>>, i: nat)
    requires 0 < i < |s|
  {
    cmp(s[Parent(i)].key, s[i].key) <= 0
  }

  ghost predicate Ordered<K(!new)>(cmp: (K, K) -> int, s: seq<Item<K>>)
  {
    forall i :: 0 < i < |s| ==> LinkOk(cmp, s, i)
  }

  // In order but for the links down from idx; those would be in order for the parent of idx.
  ghost predicate OrderedBut<K(!new)>(cmp: (K, K) -> int, s: seq<Item<K>>, idx: nat)
  {
    && (forall i :: 0 < i < |s| && Parent(i) != idx && i != idx ==> LinkOk(cmp, s, i))
    && (forall i :: 0 < idx && 0 < i < |s| && Parent(i) == idx ==> cmp(s[Parent(idx)].key, s[i].key) <= 0)
  }

  // The same for the link up from idx.
  ghost predicate OrderedButUp<K(!new)>(cmp: (K, K) -> int, s: seq<Item<K>>, idx: nat)
  {
    && (forall i :: 0 < i < |s| && i != idx ==> LinkOk(cmp, s, i))
    && (forall i :: 0 < idx && 0 < i < |s| && Parent(i) == idx ==> cmp(s[Parent(idx)].key, s[i].key) <= 0)
  }

  ghost predicate UpOk<K(!new)>(cmp: (K, K) -> int, s: seq<Item<K>>, idx: nat)
    requires idx < |s|
  {
    idx == 0 || LinkOk(cmp, s, idx)
  }

  ghost predicate IsLeast<K(!new)>(cmp: (K, K) -> int, items: multiset<Item<K>>, item: Item<K>)
  {
    item in items && forall other :: other in items ==> cmp(item.key, other.key) <= 0
  }

  function Swapped<T>(s: seq<T>, i: nat, j: nat): seq<T>
    requires i < |s| && j < |s|
  {
    s[i := s[j]][j := s[i]]
  }

  ghost predicate SameItems<T>(s: seq<T>, t: seq<T>)
  {
    |s| == |t| && multiset(s) == multiset(t)
  }

  lemma SwappedItems<T>(s: seq<T>, i: nat, j: nat, t: seq<T>)
    requires i < |s| && j < |s| && SameItems(s, t)
    ensures SameItems(Swapped(s, i, j), t)
  {}

  lemma ItemKept<T>(s: seq<T>, t: seq<T>, i: nat)
    requires SameItems(s, t) && i < |s|
    ensures |s| == |t| && s[i] in t
  {
    assert s[i] in multiset(s);
  }

  lemma {:induction false} RootBelow<K(!new)>(cmp: (K, K) -> int, s: seq<Item<K>>, i: nat)
    requires TotalPreorder(cmp) && Ordered(cmp, s) && i < |s|
    ensures cmp(s[0].key, s[i].key) <= 0
  {
    if i > 0 {
      RootBelow(cmp, s, Parent(i));
      assert LinkOk(cmp, s, i);
    }
  }

  // The root of a heap is a least item.
  lemma RootIsLeast<K(!new)>(cmp: (K, K) -> int, s: seq<Item<K>>)
    requires TotalPreorder(cmp) && Ordered(cmp, s) && s != []
    ensures IsLeast(cmp, multiset(s), s[0])
  {
    forall item | item in multiset(s) ensures cmp(s[0].key, item.key) <= 0 {
      var i :| 0 <= i < |s| && s[i] == item;
      RootBelow(cmp, s, i);
    }
  }

  // ---------- sifting down ----------

  // The child, or idx itself, that the code swaps with.
  ghost predicate IsBest<K(!new)>(cmp: (K, K) -> int, s: seq<Item<K>>, idx: nat, best: nat)
  {
    && idx < |s| && best < |s|
    && (best == idx || (best > 0 && Parent(best) == idx))
    && (best != idx ==> cmp(s[best].key, s[idx].key) <= 0)
    && forall i :: 0 < i < |s| && Parent(i) == idx ==> cmp(s[best].key, s[i].key) <= 0
  }

  // What two comparisons find.
  lemma BestFound<K(!new)>(cmp: (K, K) -> int, s: seq<Item<K>>, idx: nat, best: nat)
    requires TotalPreorder(cmp) && LeftChild(idx) < |s|
    requires var left := LeftChild(idx);
             var first := if cmp(s[idx].key, s[left].key) < 0 then idx else left;
             best == if left + 1 < |s| && cmp(s[left + 1].key, s[first].key) < 0 then left + 1 else first
    ensures IsBest(cmp, s, idx, best) && best < |s|
  {
    var left := LeftChild(idx);
    assert forall i :: 0 < i && Parent(i) == idx <==> i == left || i == left + 1;
    assert forall a, b :: cmp(a, b) <= 0 || cmp(b, a) <= 0;
  }

  lemma SiftDown<K(!new)>(cmp: (K, K) -> int, s: seq<Item<K>>, idx: nat, best: nat)
    requires TotalPreorder(cmp) && OrderedBut(cmp, s, idx) && IsBest(cmp, s, idx, best) && best != idx && UpOk(cmp, s, idx)
    ensures OrderedBut(cmp, Swapped(s, idx, best), best) && UpOk(cmp, Swapped(s, idx, best), best)
  {
    var t := Swapped(s, idx, best);
    forall i | 0 < i < |t| && Parent(i) != best ensures LinkOk(cmp, t, i) {
      if Parent(i) == idx {
        assert cmp(s[best].key, s[i].key) <= 0;
      } else if i == idx {
        assert cmp(s[Parent(idx)].key, s[best].key) <= 0;
      } else {
        assert LinkOk(cmp, s, i);
      }
    }
    forall i | 0 < i < |t| && Parent(i) == best ensures cmp(t[Parent(best)].key, t[i].key) <= 0 {
      assert LinkOk(cmp, s, i);
    }
  }

  lemma SiftedDown<K(!new)>(cmp: (K, K) -> int, s: seq<Item<K>>, idx: nat)
    requires idx < |s| && OrderedBut(cmp, s, idx)
    requires LeftChild(idx) >= |s| || IsBest(cmp, s, idx, idx)
    ensures Ordered(cmp, s) <==> UpOk(cmp, s, idx)
  {
    assert forall i :: 0 < i && Parent(i) == idx ==> LeftChild(idx) <= i;
  }

  // With a smaller item than its parent nothing is ever swapped.
  lemma TooSmall<K(!new)>(cmp: (K, K) -> int, s: seq<Item<K>>, idx: nat, best: nat)
    requires TotalPreorder(cmp) && idx < |s| && OrderedBut(cmp, s, idx) && !UpOk(cmp, s, idx) && IsBest(cmp, s, idx, best)
    ensures best == idx
  {}

  // ---------- sifting up ----------

  lemma SiftUp<K(!new)>(cmp: (K, K) -> int, s: seq<Item<K>>, idx: nat)
    requires TotalPreorder(cmp) && 0 < idx < |s| && OrderedButUp(cmp, s, idx)
    requires cmp(s[idx].key, s[Parent(idx)].key) < 0
    ensures OrderedButUp(cmp, Swapped(s, idx, Parent(idx)), Parent(idx))
  {
    var p := Parent(idx);
    var t := Swapped(s, idx, p);
    forall i | 0 < i < |t| && i != p ensures LinkOk(cmp, t, i) {
      if i != idx {
        assert LinkOk(cmp, s, i);
      }
    }
    if p > 0 {
      assert LinkOk(cmp, s, p);
      forall i | 0 < i < |t| && Parent(i) == p ensures cmp(t[Parent(p)].key, t[i].key) <= 0 {
        if i != idx {
          assert LinkOk(cmp, s, i);
        }
      }
    }
  }

  // ---------- the queue ----------

  class Queue<K(!new)> {
    const cmp: (K, K) -> int
    var list: seq<Item<K>>

    // Every item knows its place, so none is in the list twice.
    ghost predicate Valid()
      reads this, list
    {
      TotalPreorder(cmp) && forall i :: 0 <= i < |list| ==> list[i].index == i
    }

    constructor (cmp: (K, K) -> int)
      requires TotalPreorder(cmp)
      ensures Valid() && list == [] && this.cmp == cmp
    {
      this.cmp, list := cmp, [];
    }

    // Swaps two items and updates their indices.
    method Swap(i: nat, j: nat)
      requires Valid() && i < |list| && j < |list|
      modifies this`list, list[i], list[j]
      ensures Valid() && list == Swapped(old(list), i, j)
    {
      hide TotalPreorder;
      var tmp := list[i];
      list := list[i := list[j]];
      list := list[j := tmp];
      list[i].index := i;
      list[j].index := j;
    }

    // Moves the item at position down while a child is not greater. Its own link up is never
    // looked at: the result is a heap exactly if that link was in order before.
    method Heapify(position: nat)
      requires Valid() && position < |list|
      modifies this`list, list
      ensures Valid() && SameItems(list, old(list))
      ensures old(OrderedBut(cmp, list, position)) ==> (Ordered(cmp, list) <==> old(UpOk(cmp, list, position)))
    {
      hide TotalPreorder, IsBest, OrderedBut, Ordered, UpOk, Swapped, SameItems;
      ghost var ok, repairable := UpOk(cmp, list, position), OrderedBut(cmp, list, position);
      var idx: nat := position;
      SameAsItself(list);
      while true
        invariant Valid() && SameItems(list, old(list)) && idx < |list|
        invariant repairable ==> OrderedBut(cmp, list, idx) && (UpOk(cmp, list, idx) <==> ok)
        decreases |list| - idx
      {
        var left := LeftChild(idx);
        if left >= |list| {
          Settled(idx, ok, repairable);
          return;
        }
        var best := if cmp(list[idx].key, list[left].key) < 0 then idx else left;
        if left + 1 < |list| && cmp(list[left + 1].key, list[best].key) < 0 {
          best := left + 1;
        }
        BestFound(cmp, list, idx, best);
        if best == idx {
          Settled(idx, ok, repairable);
          return;
        }
        if repairable {
          MovesDown(cmp, list, idx, best);
        }
        ItemKept(list, old(list), idx);
        ItemKept(list, old(list), best);
        SwappedItems(list, idx, best, old(list));
        Swap(idx, best);
        idx := best;
      }
    }

    lemma Settled(idx: nat, ok: bool, repairable: bool)
      requires idx < |list| && (LeftChild(idx) >= |list| || IsBest(cmp, list, idx, idx))
      requires repairable ==> OrderedBut(cmp, list, idx) && (UpOk(cmp, list, idx) <==> ok)
      ensures repairable ==> (Ordered(cmp, list) <==> ok)
    {
      if repairable {
        SiftedDown(cmp, list, idx);
      }
    }

    // The new item climbs from the end while it is smaller than its parent.
    method Add(item: Item<K>)
      requires Valid() && item !in list
      modifies this`list, list, item
      ensures Valid() && multiset(list) == multiset(old(list)) + multiset{item}
      ensures old(Ordered(cmp, list)) ==> Ordered(cmp, list)
      ensures old(Ordered(cmp, list)) && AllDiffer(cmp, multiset(list)) ==> StrictlyOrdered(cmp, list)
    {
      hide TotalPreorder, LinkOk, OrderedButUp, Ordered, Swapped, AllDiffer, StrictlyOrdered;
      ghost var ordered := Ordered(cmp, list);
      AtTheEnd(cmp, list, item);
      list := list + [item];
      item.index := |list| - 1;
      var idx: nat := |list| - 1;
      ghost var all := list;
      hide SameItems;
      SameAsItself(list);
      while idx != 0
        invariant Valid() && SameItems(list, all) && idx < |list|
        invariant ordered ==> OrderedButUp(cmp, list, idx)
      {
        var parent := Parent(idx);
        if cmp(list[idx].key, list[parent].key) < 0 {
          if ordered {
            SiftUp(cmp, list, idx);
          }
          ItemKept(list, all, idx);
          ItemKept(list, all, parent);
          SwappedItems(list, idx, parent, all);
          Swap(idx, parent);
          idx := parent;
        } else {
          break;
        }
      }
      SameMultiset(list, all);
      if ordered {
        Climbed(cmp, list, idx);
      }
      StaysStrict();
    }

    lemma StaysStrict()
      requires Valid()
      ensures Ordered(cmp, list) && AllDiffer(cmp, multiset(list)) ==> StrictlyOrdered(cmp, list)
    {
      if Ordered(cmp, list) && AllDiffer(cmp, multiset(list)) {
        StrictOfDiffering(cmp, list);
      }
    }

    // The item at idx leaves the list, and the last one takes its place.
    method TakeOut(idx: nat)
      requires Valid() && idx < |list|
      modifies this`list, list
      ensures Valid() && list == Filled(old(list), idx) && old(list)[idx].index == -1
    {
      hide TotalPreorder;
      list[idx].index := -1;
      var last := list[|list| - 1];
      list := list[..|list| - 1];
      if idx != |list| {
        list := list[idx := last];
        list[idx].index := idx;
      }
    }

    method Pop() returns (top: Item<K>)
      requires Valid() && list != []
      modifies this`list, list
      ensures Valid() && top == old(list[0]) && top.index == -1
      ensures multiset(list) == multiset(old(list)) - multiset{top}
      ensures old(Ordered(cmp, list)) ==> Ordered(cmp, list) && IsLeast(cmp, multiset(old(list)), top)
      ensures old(Ordered(cmp, list)) && AllDiffer(cmp, multiset(list)) ==> StrictlyOrdered(cmp, list)
    {
      hide TotalPreorder, LinkOk, Ordered, OrderedBut, IsLeast, UpOk, RemovalFits, SameItems, AllDiffer, StrictlyOrdered;
      ghost var s := list;
      top := list[0];
      LastMoved(s, 0);
      if Ordered(cmp, s) {
        RootIsLeast(cmp, s);
        RootFits(cmp, s);
        MovedInto(cmp, s, 0);
      }
      TakeOut(0);
      if list != [] {
        hide Filled;
        Heapify(0);
        SameMultiset(list, Filled(s, 0));
      }
      StaysStrict();
    }

    // Popping until the queue is empty brings out all items, in order.
    method Drain() returns (out: seq<Item<K>>)
      requires Valid()
      modifies this`list, list
      ensures Valid() && list == [] && multiset(out) == multiset(old(list))
      ensures old(Ordered(cmp, list)) ==> Ascending(cmp, out)
      ensures forall item :: item in out ==> item.index == -1
    {
      hide TotalPreorder, Ordered, IsLeast, Ascending, AllBefore, Together;
      out := [];
      ghost var ordered := Ordered(cmp, list);
      NothingPopped(cmp, list);
      while list != []
        invariant Valid() && Together(list, out, old(list))
        invariant ordered ==> Ordered(cmp, list) && Ascending(cmp, out) && AllBefore(cmp, out, multiset(list))
        invariant forall item :: item in out ==> item.index == -1
        invariant forall i :: 0 <= i < |list| ==> list[i] in old(list)
        decreases |list|
      {
        ghost var was := list;
        var top := Pop();
        StillThere(was, list, top);
        Gathered(was, list, top, out, old(list));
        if ordered {
          PoppedNext(cmp, out, multiset(was), top);
        }
        out := out + [top];
      }
      AllGathered(out, old(list));
    }

    // The last item takes the place of the removed one and is only ever sifted down: the result
    // is a heap exactly if that item is not smaller than the parent of its new place.
    method Remove(item: Item<K>)
      requires Valid() && item in list
      modifies this`list, list
      ensures Valid() && item.index == -1
      ensures multiset(list) == multiset(old(list)) - multiset{item}
      ensures old(Ordered(cmp, list)) ==>
                (Ordered(cmp, list) <==> RemovalFits(cmp, old(list), old(item.index)))
    {
      hide TotalPreorder, LinkOk, Ordered, OrderedBut, UpOk, RemovalFits, SameItems;
      ghost var s := list;
      var idx: nat := item.index;
      LastMoved(s, idx);
      if Ordered(cmp, s) {
        MovedInto(cmp, s, idx);
      }
      TakeOut(idx);
      if idx != |list| {
        hide Filled;
        Heapify(idx);
        SameMultiset(list, Filled(s, idx));
      }
    }
  }

  // The place is the last one or the root, or the last item is not smaller than its parent there.
  ghost predicate RemovalFits<K(!new)>(cmp: (K, K) -> int, s: seq<Item<K>>, idx: int)
    requires 0 <= idx < |s|
  {
    idx == |s| - 1 || idx == 0 || cmp(s[Parent(idx)].key, s[|s| - 1].key) <= 0
  }

  lemma MovedInto<K(!new)>(cmp: (K, K) -> int, s: seq<Item<K>>, idx: nat)
    requires Ordered(cmp, s) && idx < |s|
    ensures idx == |s| - 1 ==> Ordered(cmp, Filled(s, idx)) && RemovalFits(cmp, s, idx)
    ensures idx < |s| - 1 ==> UpOk(cmp, Filled(s, idx), idx) <==> RemovalFits(cmp, s, idx)
    ensures idx < |s| - 1 && TotalPreorder(cmp) ==> OrderedBut(cmp, Filled(s, idx), idx)
  {
    if idx == |s| - 1 {
      forall i | 0 < i < idx ensures LinkOk(cmp, Filled(s, idx), i) {
        assert LinkOk(cmp, s, i);
      }
    } else {
      FilledLinks(cmp, s, idx);
    }
  }

  lemma FilledLinks<K(!new)>(cmp: (K, K) -> int, s: seq<Item<K>>, idx: nat)
    requires Ordered(cmp, s) && idx < |s| - 1
    ensures TotalPreorder(cmp) ==> OrderedBut(cmp, Filled(s, idx), idx)
  {
    var t := Filled(s, idx);
    forall i | 0 < i < |t| && Parent(i) != idx && i != idx ensures LinkOk(cmp, t, i) {
      assert LinkOk(cmp, s, i);
    }
    forall i | TotalPreorder(cmp) && 0 < idx && 0 < i < |t| && Parent(i) == idx
      ensures cmp(t[Parent(idx)].key, t[i].key) <= 0
    {
      assert LinkOk(cmp, s, i) && LinkOk(cmp, s, idx);
      assert t[Parent(idx)] == s[Parent(idx)] && t[i] == s[i];
    }
  }

  lemma RootFits<K(!new)>(cmp: (K, K) -> int, s: seq<Item<K>>)
    requires s != []
    ensures RemovalFits(cmp, s, 0) && Ordered(cmp, [])
  {}

  lemma SameAsItself<T>(s: seq<T>)
    ensures SameItems(s, s)
  {}

  lemma SameMultiset<T>(s: seq<T>, t: seq<T>)
    requires SameItems(s, t)
    ensures multiset(s) == multiset(t)
  {}

  lemma AtTheEnd<K(!new)>(cmp: (K, K) -> int, s: seq<Item<K>>, item: Item<K>)
    ensures Ordered(cmp, s) ==> OrderedButUp(cmp, s + [item], |s|)
  {
    if Ordered(cmp, s) {
      forall i | 0 < i < |s| ensures LinkOk(cmp, s + [item], i) {
        assert LinkOk(cmp, s, i);
      }
    }
  }

  lemma Climbed<K(!new)>(cmp: (K, K) -> int, s: seq<Item<K>>, idx: nat)
    requires TotalPreorder(cmp) && idx < |s| && OrderedButUp(cmp, s, idx)
    requires idx == 0 || cmp(s[idx].key, s[Parent(idx)].key) >= 0
    ensures Ordered(cmp, s)
  {}

  lemma MovesDown<K(!new)>(cmp: (K, K) -> int, s: seq<Item<K>>, idx: nat, best: nat)
    requires TotalPreorder(cmp) && idx < |s| && OrderedBut(cmp, s, idx) && IsBest(cmp, s, idx, best) && best != idx
    ensures best < |s| && UpOk(cmp, s, idx)
    ensures OrderedBut(cmp, Swapped(s, idx, best), best) && UpOk(cmp, Swapped(s, idx, best), best)
  {
    if !UpOk(cmp, s, idx) {
      TooSmall(cmp, s, idx, best);
    } else {
      SiftDown(cmp, s, idx, best);
    }
  }

  // A removal that leaves no heap: taking 11 out of this heap puts 2 below 10.
  lemma RemovalCanBreak(s: seq<Item<int>>)
    requires |s| == 6
    requires s[0].key == 0 && s[1].key == 10 && s[2].key == 1 && s[3].key == 11 && s[4].key == 12 && s[5].key == 2
    ensures var cmp := (a: int, b: int) => a - b;
            TotalPreorder(cmp) && Ordered(cmp, s) && !RemovalFits(cmp, s, 3) && !Ordered(cmp, Filled(s, 3))
  {
    var cmp := (a: int, b: int) => a - b;
    assert Parent(1) == 0 && Parent(2) == 0 && Parent(3) == 1 && Parent(4) == 1 && Parent(5) == 2;
    assert !LinkOk(cmp, Filled(s, 3), 3);
  }

  // ---------- ties ----------

  // No item of the heap is equal to its parent.
  ghost predicate NoTies<K(!new)>(cmp: (K, K) -> int, s: seq<Item<K>>)
  {
    forall i :: 0 < i < |s| ==> cmp(s[Parent(i)].key, s[i].key) != 0
  }

  ghost predicate StrictlyOrdered<K(!new)>(cmp: (K, K) -> int, s: seq<Item<K>>)
  {
    forall i :: 0 < i < |s| ==> cmp(s[Parent(i)].key, s[i].key) < 0
  }

  // The order is the strict one exactly where no item is equal to its parent.
  lemma StrictWithoutTies<K(!new)>(cmp: (K, K) -> int, s: seq<Item<K>>)
    requires Ordered(cmp, s)
    ensures StrictlyOrdered(cmp, s) <==> NoTies(cmp, s)
  {
    forall i | 0 < i < |s| ensures cmp(s[Parent(i)].key, s[i].key) <= 0 {
      assert LinkOk(cmp, s, i);
    }
  }

  // No two of the items compare equal.
  ghost predicate AllDiffer<K(!new)>(cmp: (K, K) -> int, items: multiset<Item<K>>)
  {
    forall a, b :: a in items && b in items && a != b ==> cmp(a.key, b.key) != 0
  }

  // Every heap of such items is strictly ordered.
  lemma StrictOfDiffering<K(!new)>(cmp: (K, K) -> int, s: seq<Item<K>>)
    requires Ordered(cmp, s) && AllDiffer(cmp, multiset(s)) && forall i, j :: 0 <= i < j < |s| ==> s[i] != s[j]
    ensures StrictlyOrdered(cmp, s)
  {
    forall i | 0 < i < |s| ensures cmp(s[Parent(i)].key, s[i].key) < 0 {
      assert LinkOk(cmp, s, i) && s[Parent(i)] in multiset(s) && s[i] in multiset(s);
    }
  }

  // The converse does not hold: the one heap of 1, 2 and 2 is strictly ordered.
  lemma StrictWithEquals(s: seq<Item<int>>)
    requires |s| == 3 && Ordered((a: int, b: int) => a - b, s) && multiset([s[0].key, s[1].key, s[2].key]) == multiset{1, 2, 2}
    requires s[1] != s[2]
    ensures StrictlyOrdered((a: int, b: int) => a - b, s) && !AllDiffer((a: int, b: int) => a - b, multiset(s))
  {
    var cmp := (a: int, b: int) => a - b;
    assert Parent(1) == 0 && Parent(2) == 0 && LinkOk(cmp, s, 1) && LinkOk(cmp, s, 2);
    var keys := [s[0].key, s[1].key, s[2].key];
    assert forall k :: k in multiset(keys) ==> k == 1 || k == 2;
    assert keys[0] in multiset(keys) && keys[1] in multiset(keys) && keys[2] in multiset(keys);
    assert s[1] in multiset(s) && s[2] in multiset(s);
    assert multiset(keys)[1] == 1 && multiset(keys)[2] == 2;
  }

  // ---------- popping to the end ----------

  ghost predicate Ascending<K(!new)>(cmp: (K, K) -> int, s: seq<Item<K>>)
  {
    forall i, j :: 0 <= i < j < |s| ==> cmp(s[i].key, s[j].key) <= 0
  }

  // Each of the first is at most each of the others.
  ghost predicate AllBefore<K(!new)>(cmp: (K, K) -> int, first: seq<Item<K>>, others: multiset<Item<K>>)
  {
    forall a, b :: a in first && b in others ==> cmp(a.key, b.key) <= 0
  }

  // Two lists hold the items of a third one.
  ghost predicate Together<T>(s: seq<T>, t: seq<T>, all: seq<T>)
  {
    multiset(s) + multiset(t) == multiset(all)
  }

  lemma NothingPopped<K(!new)>(cmp: (K, K) -> int, s: seq<Item<K>>)
    ensures Ascending(cmp, []) && AllBefore(cmp, [], multiset(s)) && Together(s, [], s)
  {}

  lemma StillThere<T>(was: seq<T>, s: seq<T>, top: T)
    requires multiset(s) == multiset(was) - multiset{top}
    ensures forall i :: 0 <= i < |s| ==> s[i] in was
  {
    forall i | 0 <= i < |s| ensures s[i] in was {
      assert s[i] in multiset(s);
    }
  }

  lemma Gathered<T>(was: seq<T>, s: seq<T>, top: T, out: seq<T>, all: seq<T>)
    requires Together(was, out, all) && top in was && multiset(s) == multiset(was) - multiset{top}
    ensures Together(s, out + [top], all) && |s| < |was|
  {
    assert top in multiset(was) && multiset(was) == multiset(s) + multiset{top};
    assert |multiset(was)| == |was| && |multiset(s)| == |s|;
  }

  lemma AllGathered<T>(out: seq<T>, all: seq<T>)
    requires Together([], out, all)
    ensures multiset(out) == multiset(all)
  {}

  lemma PoppedNext<K(!new)>(cmp: (K, K) -> int, out: seq<Item<K>>, items: multiset<Item<K>>, top: Item<K>)
    requires TotalPreorder(cmp) && Ascending(cmp, out) && AllBefore(cmp, out, items) && IsLeast(cmp, items, top)
    ensures Ascending(cmp, out + [top]) && AllBefore(cmp, out + [top], items - multiset{top})
  {
    hide TotalPreorder;
  }
}
