/**
  The resizable array of container.c, edited in place.
*/
module SmartList {
  import opened Basics

  const DEFAULT_CAPACITY := 16
  const MAX_CAPACITY := 0x7fff_ffff

  // ---------- sorted lists ----------

  ghost predicate Sorted<T(!new)>(cmp: (T, T) -> int, s: seq<T>)
  {
    forall i, j :: 0 <= i < j < |s| ==> cmp(s[i], s[j]) <= 0
  }

  // A key's order relative to the members: greater than those before, less than those behind.
  ghost predicate InOrder<T>(cmp: T -> int, s: seq<T>)
  {
    forall i, j :: 0 <= i < j < |s| ==> (cmp(s[i]) <= 0 ==> cmp(s[j]) <= 0) && (cmp(s[i]) < 0 ==> cmp(s[j]) < 0)
  }

  // The first member of each run of equals.
  ghost function Uniq<T>(cmp: (T, T) -> int, s: seq<T>): (u: seq<T>)
    ensures s != [] ==> u != [] && u[0] == s[0]
    ensures |u| <= |s|
  {
    if |s| <= 1 then s
    else
      var u, last := Uniq(cmp, s[..|s| - 1]), s[|s| - 1];
      if cmp(u[|u| - 1], last) == 0 then u else u + [last]
  }

  ghost function FirstOf<T>(s: seq<T>, x: T): (k: nat)
    ensures k <= |s| && (k < |s| ==> s[k] == x) && x !in s[..k]
  {
    if s == [] || s[0] == x then 0
    else
      var k := 1 + FirstOf(s[1..], x);
      assert s[..k] == [s[0]] + s[1..][..k - 1];
      k
  }

  ghost predicate HasAlike<T>(cmp: (T, T) -> int, u: seq<T>, x: T)
  {
    exists i :: 0 <= i < |u| && cmp(u[i], x) == 0
  }

  ghost predicate Strict<T(!new)>(cmp: (T, T) -> int, s: seq<T>)
  {
    forall i, j :: 0 <= i < j < |s| ==> cmp(s[i], s[j]) < 0
  }

  lemma {:induction false} UniqMembers<T(!new)>(cmp: (T, T) -> int, s: seq<T>)
    ensures forall i :: 0 <= i < |Uniq(cmp, s)| ==> Uniq(cmp, s)[i] in s
  {
    if |s| > 1 {
      UniqMembers(cmp, s[..|s| - 1]);
    }
  }

  // On a sorted list the members left are in strictly ascending order, and each member that is
  // gone has an equal among them.
  lemma {:induction false} UniqIsStrict<T(!new)>(cmp: (T, T) -> int, s: seq<T>)
    requires TotalPreorder(cmp) && Sorted(cmp, s)
    ensures Strict(cmp, Uniq(cmp, s))
  {
    hide TotalPreorder, Strict, Sorted, Uniq;
    if |s| <= 1 {
      StrictOfShort(cmp, s);
    } else {
      var front, last := s[..|s| - 1], s[|s| - 1];
      var u := Uniq(cmp, front);
      UniqLast(cmp, s);
      UniqMembers(cmp, front);
      SortedFront(cmp, s, u[|u| - 1]);
      UniqIsStrict(cmp, front);
      if cmp(u[|u| - 1], last) != 0 {
        StrictMore(cmp, u, last);
      }
    }
  }

  lemma StrictOfShort<T(!new)>(cmp: (T, T) -> int, s: seq<T>)
    requires |s| <= 1
    ensures Strict(cmp, Uniq(cmp, s))
  {}

  lemma UniqLast<T>(cmp: (T, T) -> int, s: seq<T>)
    requires |s| > 1
    ensures var u := Uniq(cmp, s[..|s| - 1]);
            Uniq(cmp, s) == if cmp(u[|u| - 1], s[|s| - 1]) == 0 then u else u + [s[|s| - 1]]
  {}

  lemma SortedFront<T(!new)>(cmp: (T, T) -> int, s: seq<T>, x: T)
    requires Sorted(cmp, s) && s != [] && x in s[..|s| - 1]
    ensures Sorted(cmp, s[..|s| - 1]) && cmp(x, s[|s| - 1]) <= 0
  {}

  lemma StrictMore<T(!new)>(cmp: (T, T) -> int, u: seq<T>, next: T)
    requires TotalPreorder(cmp) && Strict(cmp, u) && (u != [] ==> cmp(u[|u| - 1], next) < 0)
    ensures Strict(cmp, u + [next])
  {
    forall i | 0 <= i < |u| ensures cmp(u[i], next) < 0 {
      if i < |u| - 1 {
        LessThan(cmp, u[i], u[|u| - 1], next);
      }
    }
  }

  lemma {:induction false} UniqCovers<T(!new)>(cmp: (T, T) -> int, s: seq<T>, k: nat)
    requires TotalPreorder(cmp) && k < |s|
    ensures HasAlike(cmp, Uniq(cmp, s), s[k])
  {
    if |s| > 1 {
      var front, last := s[..|s| - 1], s[|s| - 1];
      var u := Uniq(cmp, front);
      if k < |front| {
        UniqCovers(cmp, front, k);
        var i :| 0 <= i < |u| && cmp(u[i], front[k]) == 0;
        assert Uniq(cmp, s)[i] == u[i];
      } else if cmp(u[|u| - 1], last) != 0 {
        assert Uniq(cmp, s)[|u|] == last;
        assert cmp(last, last) == 0;
      }
    } else {
      assert cmp(s[0], s[0]) == 0;
    }
  }

  class List<T(0, ==, !new)> {
    var list: array<T>
    var numUsed: nat

    ghost predicate Valid()
      reads this
    {
      numUsed <= list.Length && DEFAULT_CAPACITY <= list.Length <= MAX_CAPACITY
    }

    ghost function Contents(): (s: seq<T>)
      reads this, list
      requires Valid()
    {
      list[..numUsed]
    }

    constructor ()
      ensures Valid() && fresh(list) && Contents() == []
    {
      list := new T[DEFAULT_CAPACITY];
      numUsed := 0;
    }

    // The capacity doubles until it suffices, which never leaves the range of an int.
    method EnsureCapacity(size: nat)
      requires Valid() && size <= MAX_CAPACITY
      modifies this`list
      ensures Valid() && Contents() == old(Contents()) && list.Length >= size
      ensures list == old(list) || fresh(list)
      ensures if size <= old(list.Length) then list == old(list) else list.Length < 2 * size || list.Length == MAX_CAPACITY
    {
      if size > list.Length {
        var higher := list.Length;
        if size > MAX_CAPACITY / 2 {
          higher := MAX_CAPACITY;
        } else {
          while size > higher
            invariant list.Length <= higher && (higher < 2 * size || higher == list.Length)
            decreases size - higher
          {
            higher := higher * 2;
            assert higher <= MAX_CAPACITY;
          }
        }
        var grown := new T[higher];
        forall k | 0 <= k < numUsed {
          grown[k] := list[k];
        }
        list := grown;
      }
    }

    method Add(element: T)
      requires Valid() && numUsed < MAX_CAPACITY
      modifies this, list
      ensures Valid() && Contents() == old(Contents()) + [element]
      ensures list == old(list) || fresh(list)
    {
      EnsureCapacity(numUsed + 1);
      list[numUsed] := element;
      numUsed := numUsed + 1;
    }

    method Reverse()
      requires Valid()
      modifies list
      ensures Valid() && |Contents()| == |old(Contents())|
      ensures forall k :: 0 <= k < numUsed ==> Contents()[k] == old(Contents())[numUsed - 1 - k]
    {
      var i, j := 0, numUsed - 1;
      while i < j
        invariant 0 <= i <= numUsed && j == numUsed - 1 - i && i <= j + 1
        invariant forall k :: 0 <= k < i || j < k < numUsed ==> list[k] == old(list[numUsed - 1 - k])
        invariant forall k :: i <= k <= j ==> list[k] == old(list[k])
      {
        var tmp := list[i];
        list[i] := list[j];
        list[j] := tmp;
        i, j := i + 1, j - 1;
      }
    }

    // The last member takes the place of the deleted one.
    method Del(idx: nat)
      requires Valid() && idx < numUsed
      modifies this`numUsed, list
      ensures Valid() && Contents() == Filled(old(Contents()), idx)
    {
      numUsed := numUsed - 1;
      list[idx] := list[numUsed];
    }

    method DelKeepOrder(idx: nat)
      requires Valid() && idx < numUsed
      modifies this`numUsed, list
      ensures Valid() && Contents() == Without(old(Contents()), idx)
    {
      numUsed := numUsed - 1;
      forall k | idx <= k < numUsed {
        list[k] := list[k + 1];
      }
    }

    method Insert(idx: nat, val: T)
      requires Valid() && idx <= numUsed < MAX_CAPACITY
      modifies this, list
      ensures Valid() && Contents() == old(Contents())[..idx] + [val] + old(Contents())[idx..]
      ensures list == old(list) || fresh(list)
    {
      if idx == numUsed {
        Add(val);
        return;
      }
      EnsureCapacity(numUsed + 1);
      ghost var s := Contents();
      MoveUp(idx);
      list[idx] := val;
      numUsed := numUsed + 1;
      InsertedIs(s, idx, val, Contents());
    }

    // Moves the members from idx on forward by one place.
    method MoveUp(idx: nat)
      requires Valid() && idx < numUsed < list.Length
      modifies list
      ensures forall k :: 0 <= k < idx ==> list[k] == old(list[..])[k]
      ensures forall k :: idx < k <= numUsed ==> list[k] == old(list[..])[k - 1]
    {
      forall k | idx < k <= numUsed {
        list[k] := list[k - 1];
      }
    }

    // Removes every member equal to the element. Those before the first of them stay in place; the
    // place of a removed one is taken by the last, which is then looked at itself.
    method Remove(element: T)
      requires Valid()
      modifies this`numUsed, list
      ensures Valid() && element !in Contents() && SameOthers(old(Contents()), Contents(), element)
      ensures var first := FirstOf(old(Contents()), element);
              first <= numUsed && Contents()[..first] == old(Contents())[..first]
    {
      hide SameOthers, Filled;
      ghost var s := Contents();
      ghost var first := FirstOf(s, element);
      var i := 0;
      SameOthersOfItself(s, element);
      while i < numUsed
        invariant Valid() && i <= numUsed && SameOthers(s, Contents(), element) && element !in Contents()[..i]
        invariant first <= numUsed && Contents()[..first] == s[..first]
        decreases numUsed - i
      {
        ghost var c := Contents();
        if list[i] == element {
          RemoveOne(s, c, element, first, i);
          Del(i);
          FilledShape(c, i);
        } else {
          assert c[..i + 1] == c[..i] + [c[i]];
          i := i + 1;
        }
      }
      assert Contents()[..i] == Contents();
    }

    // Where the key is, or else where it belongs. The final assertions of the code hold too.
    method BsearchIdx(cmp: T -> int) returns (idx: nat, found: bool)
      requires Valid() && InOrder(cmp, Contents())
      ensures found ==> idx < numUsed && cmp(Contents()[idx]) == 0
      ensures !found ==> idx <= numUsed && forall k :: 0 <= k < numUsed ==>
                           if k < idx then cmp(Contents()[k]) > 0 else cmp(Contents()[k]) < 0
    {
      if numUsed == 0 {
        return 0, false;
      } else if numUsed == 1 {
        var c := cmp(list[0]);
        return if c > 0 then 1 else 0, c == 0;
      }
      ghost var s := Contents();
      var hi, lo := numUsed - 1, 0;
      while lo <= hi
        invariant 0 <= lo <= numUsed && -1 <= hi < numUsed && lo <= hi + 1
        invariant forall k :: 0 <= k < lo ==> cmp(s[k]) > 0
        invariant forall k :: hi < k < numUsed ==> cmp(s[k]) < 0
        decreases hi - lo
      {
        var mid := (lo + hi) / 2;
        var c := cmp(list[mid]);
        assert c == cmp(s[mid]);
        if c > 0 {
          lo := mid + 1;
        } else if c < 0 {
          hi := mid - 1;
        } else {
          return mid, true;
        }
      }
      if lo < numUsed {
        assert cmp(list[lo]) == cmp(s[lo]) < 0;
      } else {
        assert cmp(list[numUsed - 1]) == cmp(s[numUsed - 1]) > 0;
      }
      return lo, false;
    }

    method DropIfEqual(cmp: (T, T) -> int, i: nat) returns (dropped: bool)
      requires Valid() && 0 < i < numUsed
      modifies this`numUsed, list
      ensures Valid() && (dropped <==> cmp(old(Contents())[i - 1], old(Contents())[i]) == 0)
      ensures Contents() == if dropped then Without(old(Contents()), i) else old(Contents())
    {
      dropped := cmp(list[i - 1], list[i]) == 0;
      if dropped {
        DelKeepOrder(i);
      }
    }

    // Removes and hands over to free all but the first of each run of equals.
    method RemoveDuplicates(cmp: (T, T) -> int) returns (freed: seq<T>)
      requires Valid()
      modifies this`numUsed, list
      ensures Valid() && Contents() == Uniq(cmp, old(Contents()))
      ensures multiset(Contents()) + multiset(freed) == multiset(old(Contents()))
    {
      hide UniqSoFar, Uniq, Without;
      freed := [];
      if numUsed == 0 {
        assert Contents() == [];
        UniqOfNothing(cmp);
        return;
      }
      ghost var s, n := Contents(), 1;  // n members of s looked at
      UniqStart(cmp, s);
      var i := 1;
      while i < numUsed
        invariant Valid() && n <= |s| && UniqSoFar(cmp, s, n, Contents(), i, freed)
        decreases |s| - n
      {
        ghost var c := Contents();
        UniqStep(cmp, s, n, c, i, freed);
        var second := list[i];
        var dropped := DropIfEqual(cmp, i);
        if dropped {
          freed := freed + [second];
          i := i - 1;
        }
        n := n + 1;
        i := i + 1;
      }
      UniqDone(cmp, s, n, Contents(), i, freed);
    }

    // Members are not null.
    method MostFrequent(cmp: (T, T) -> int) returns (m: Option<T>)
      requires Valid() && TotalPreorder(cmp) && Sorted(cmp, Contents())
      ensures if numUsed == 0 then m == None else m.Some? && IsMostFrequent(cmp, Contents(), m.value)
    {
      m := None;
      if numUsed == 0 {
        return;
      }
      hide TotalPreorder, Sorted, Scan, IsMostFrequent;
      ghost var s, a := Contents(), 0;
      var best, cur: Option<T>, count := 0, None, 0;
      ScanStart(cmp, s);
      for i := 0 to numUsed
        invariant Scan(cmp, s, a, i, cur, count, m, best)
      {
        var item := list[i];
        ScanStep(cmp, s, a, i, cur, count, m, best, item);
        if cur.Some? && cmp(cur.value, item) == 0 {
          count := count + 1;
        } else {
          if cur.Some? && count >= best {
            m, best := cur, count;
          }
          a := i;
          cur, count := Some(item), 1;
        }
      }
      ScanEnd(cmp, s, a, cur, count, m, best);
      if cur.Some? && count >= best {
        m, best := cur, count;
      }
    }
  }

  // Of the first n members i are left, and the others behind them are as they were.
  ghost predicate UniqSoFar<T>(cmp: (T, T) -> int, s: seq<T>, n: nat, c: seq<T>, i: int, freed: seq<T>)
  {
    && 1 <= n <= |s| && i == |Uniq(cmp, s[..n])| && c == Uniq(cmp, s[..n]) + s[n..]
    && multiset(c) + multiset(freed) == multiset(s)
  }

  lemma UniqOfNothing<T>(cmp: (T, T) -> int)
    ensures Uniq(cmp, []) == []
  {}

  lemma UniqStart<T>(cmp: (T, T) -> int, s: seq<T>)
    requires s != []
    ensures UniqSoFar(cmp, s, 1, s, 1, [])
  {
    assert s == s[..1] + s[1..];
  }

  lemma UniqDone<T>(cmp: (T, T) -> int, s: seq<T>, n: nat, c: seq<T>, i: int, freed: seq<T>)
    requires UniqSoFar(cmp, s, n, c, i, freed) && i >= |c|
    ensures c == Uniq(cmp, s) && multiset(c) + multiset(freed) == multiset(s)
  {
    assert n == |s| && s[..n] == s;
  }

  lemma UniqStep<T>(cmp: (T, T) -> int, s: seq<T>, n: nat, c: seq<T>, i: int, freed: seq<T>)
    requires UniqSoFar(cmp, s, n, c, i, freed) && i < |c|
    ensures 0 < i && n < |s|
    ensures cmp(c[i - 1], c[i]) == 0 ==> UniqSoFar(cmp, s, n + 1, Without(c, i), i, freed + [c[i]])
    ensures cmp(c[i - 1], c[i]) != 0 ==> UniqSoFar(cmp, s, n + 1, c, i + 1, freed)
  {
    hide Uniq;
    var u := Uniq(cmp, s[..n]);
    UniqMore(cmp, s, n);
    assert c[i - 1] == u[i - 1] && c[i] == s[n];
    assert c[..i] == u && c[i + 1..] == s[n + 1..];
    assert u + s[n..] == u + [s[n]] + s[n + 1..];
    OneLess(c, i, freed);
  }

  lemma OneLess<T>(c: seq<T>, i: nat, freed: seq<T>)
    requires i < |c|
    ensures multiset(c[..i] + c[i + 1..]) + multiset(freed + [c[i]]) == multiset(c) + multiset(freed)
  {
    assert c == c[..i] + [c[i]] + c[i + 1..];
  }

  lemma UniqMore<T>(cmp: (T, T) -> int, s: seq<T>, n: nat)
    requires 1 <= n < |s|
    ensures var u := Uniq(cmp, s[..n]);
            Uniq(cmp, s[..n + 1]) == if cmp(u[|u| - 1], s[n]) == 0 then u else u + [s[n]]
  {
    assert s[..n + 1][..n] == s[..n];
  }

  // The lists hold the same members, and as often, but for x.
  ghost predicate SameOthers<T(!new)>(s: seq<T>, c: seq<T>, x: T)
  {
    forall y :: y != x ==> multiset(c)[y] == multiset(s)[y]
  }

  lemma SameOthersOfItself<T(!new)>(s: seq<T>, x: T)
    ensures SameOthers(s, s, x)
  {}

  lemma InsertedIs<T>(s: seq<T>, idx: nat, x: T, r: seq<T>)
    requires idx <= |s| && |r| == |s| + 1 && r[idx] == x
    requires forall k :: 0 <= k < idx ==> r[k] == s[k]
    requires forall k :: idx < k < |r| ==> r[k] == s[k - 1]
    ensures r == s[..idx] + [x] + s[idx..]
  {}

  lemma FilledShape<T>(c: seq<T>, i: nat)
    requires i < |c|
    ensures |Filled(c, i)| == |c| - 1 && Filled(c, i)[..i] == c[..i]
  {}

  lemma RemoveOne<T(!new)>(s: seq<T>, c: seq<T>, x: T, first: nat, i: nat)
    requires SameOthers(s, c, x) && i < |c| && c[i] == x && first == FirstOf(s, x) <= |c| && c[..first] == s[..first]
    ensures SameOthers(s, Filled(c, i), x)
    ensures first <= i && Filled(c, i)[..first] == s[..first]
  {
    OthersKept(s, c, x, i);
    hide SameOthers, Filled, FirstOf;
    forall k | 0 <= k < first ensures c[k] != x {
      assert c[k] == c[..first][k] == s[..first][k];
    }
    FilledShape(c, i);
    assert Filled(c, i)[..first] == Filled(c, i)[..i][..first];
  }

  lemma OthersKept<T(!new)>(s: seq<T>, c: seq<T>, x: T, i: nat)
    requires SameOthers(s, c, x) && i < |c| && c[i] == x
    ensures SameOthers(s, Filled(c, i), x)
  {
    LastMoved(c, i);
    hide Filled;
  }

  // ---------- the most frequent member ----------

  // How many members compare equal to x.
  ghost function Frequency<T>(cmp: (T, T) -> int, s: seq<T>, x: T): nat
  {
    if s == [] then 0 else Frequency(cmp, s[..|s| - 1], x) + if cmp(s[|s| - 1], x) == 0 then 1 else 0
  }

  // A most frequent member; among several classes that are, one of the last.
  ghost predicate IsMostFrequent<T(!new)>(cmp: (T, T) -> int, s: seq<T>, m: T)
  {
    m in s && forall x :: x in s ==>
      Frequency(cmp, s, x) < Frequency(cmp, s, m) || (Frequency(cmp, s, x) == Frequency(cmp, s, m) && cmp(x, m) <= 0)
  }

  // The first a members are smaller than the others up to i, and those are all alike.
  ghost predicate Run<T(!new)>(cmp: (T, T) -> int, s: seq<T>, a: nat, i: nat)
  {
    && a < i <= |s| && (forall k :: 0 <= k < a ==> cmp(s[k], s[a]) < 0) && (forall k :: a <= k < i ==> cmp(s[k], s[a]) == 0)
  }

  // The best of the first a members, if there are any, with its frequency.
  ghost predicate BestBefore<T(!new)>(cmp: (T, T) -> int, s: seq<T>, a: nat, m: Option<T>, best: nat)
  {
    && a <= |s| && (a == 0 ==> m == None && best == 0)
    && (a > 0 ==> m.Some? && IsMostFrequent(cmp, s[..a], m.value) && best == Frequency(cmp, s[..a], m.value))
  }

  lemma FirstRun<T(!new)>(cmp: (T, T) -> int, s: seq<T>)
    requires s != [] && TotalPreorder(cmp)
    ensures Run(cmp, s, 0, 1) && BestBefore(cmp, s, 0, None, 0)
  {}

  // After i members: the current run began at a, and m is the best before it.
  ghost predicate Scan<T(!new)>(cmp: (T, T) -> int, s: seq<T>, a: nat, i: nat, cur: Option<T>, count: nat, m: Option<T>, best: nat)
  {
    if i == 0 then cur == None && m == None && best == 0
    else Run(cmp, s, a, i) && cur == Some(s[a]) && count == i - a && BestBefore(cmp, s, a, m, best)
  }

  lemma ScanStart<T(!new)>(cmp: (T, T) -> int, s: seq<T>)
    ensures Scan(cmp, s, 0, 0, None, 0, None, 0)
  {}

  lemma ScanStep<T(!new)>(cmp: (T, T) -> int, s: seq<T>, a: nat, i: nat, cur: Option<T>, count: nat, m: Option<T>, best: nat, item: T)
    requires TotalPreorder(cmp) && Sorted(cmp, s) && Scan(cmp, s, a, i, cur, count, m, best) && i < |s| && item == s[i]
    ensures if cur.Some? && cmp(cur.value, item) == 0 then Scan(cmp, s, a, i + 1, cur, count + 1, m, best)
            else if cur.Some? && count >= best then Scan(cmp, s, i, i + 1, Some(item), 1, cur, count)
            else Scan(cmp, s, i, i + 1, Some(item), 1, m, best)
  {
    hide TotalPreorder, Sorted, Run, BestBefore;
    if cur == None {
      FirstRun(cmp, s);
    } else if cmp(cur.value, item) == 0 {
      RunGrows(cmp, s, a, i);
    } else {
      RunEnds(cmp, s, a, i, m, best);
      NextRun(cmp, s, a, i);
    }
  }

  lemma ScanEnd<T(!new)>(cmp: (T, T) -> int, s: seq<T>, a: nat, cur: Option<T>, count: nat, m: Option<T>, best: nat)
    requires TotalPreorder(cmp) && s != [] && Scan(cmp, s, a, |s|, cur, count, m, best)
    ensures cur.Some?
    ensures if count >= best then IsMostFrequent(cmp, s, cur.value) else m.Some? && IsMostFrequent(cmp, s, m.value)
  {
    RunEnds(cmp, s, a, |s|, m, best);
    hide TotalPreorder, Run, BestBefore;
    if count >= best {
      BestOfAll(cmp, s, cur, count);
    } else {
      BestOfAll(cmp, s, m, best);
    }
  }

  lemma RunGrows<T(!new)>(cmp: (T, T) -> int, s: seq<T>, a: nat, i: nat)
    requires TotalPreorder(cmp) && Run(cmp, s, a, i) && i < |s| && cmp(s[a], s[i]) == 0
    ensures Run(cmp, s, a, i + 1)
  {}

  lemma NextRun<T(!new)>(cmp: (T, T) -> int, s: seq<T>, a: nat, i: nat)
    requires TotalPreorder(cmp) && Sorted(cmp, s) && Run(cmp, s, a, i) && i < |s| && cmp(s[a], s[i]) != 0
    ensures Run(cmp, s, i, i + 1)
  {
    assert cmp(s[a], s[i]) < 0;
    forall k | 0 <= k < i ensures cmp(s[k], s[i]) < 0 {
      if k < a {
        LessThan(cmp, s[k], s[a], s[i]);
      } else {
        ThanLess(cmp, s[k], s[a], s[i]);
      }
    }
  }

  lemma {:induction false} FrequencyNone<T(!new)>(cmp: (T, T) -> int, s: seq<T>, x: T)
    requires forall k :: 0 <= k < |s| ==> cmp(s[k], x) != 0
    ensures Frequency(cmp, s, x) == 0
  {
    if s != [] {
      FrequencyNone(cmp, s[..|s| - 1], x);
    }
  }

  // The members of a run, and those before it, by their frequencies at its end.
  lemma {:induction false} RunFrequency<T(!new)>(cmp: (T, T) -> int, s: seq<T>, a: nat, i: nat, x: T)
    requires TotalPreorder(cmp) && Run(cmp, s, a, i)
    ensures cmp(x, s[a]) == 0 ==> Frequency(cmp, s[..i], x) == i - a
    ensures cmp(x, s[a]) < 0 ==> Frequency(cmp, s[..i], x) == Frequency(cmp, s[..a], x)
  {
    RunShorter(cmp, s, a, i, x);
    FrequencyStep(cmp, s, i - 1, x);
    hide TotalPreorder, Run, Frequency;
    if i > a + 1 {
      RunFrequency(cmp, s, a, i - 1, x);
    } else if cmp(x, s[a]) == 0 {
      NoneBeforeRun(cmp, s, a, i, x);
    }
  }

  lemma RunShorter<T(!new)>(cmp: (T, T) -> int, s: seq<T>, a: nat, i: nat, x: T)
    requires TotalPreorder(cmp) && Run(cmp, s, a, i)
    ensures i > a + 1 ==> Run(cmp, s, a, i - 1)
    ensures cmp(x, s[a]) == 0 ==> cmp(s[i - 1], x) == 0
    ensures cmp(x, s[a]) < 0 ==> cmp(s[i - 1], x) != 0
  {
    assert cmp(s[i - 1], s[a]) == 0 && cmp(s[a], s[i - 1]) == 0;
    if cmp(x, s[a]) < 0 {
      LessThan(cmp, x, s[a], s[i - 1]);
    }
  }

  lemma FrequencyStep<T(!new)>(cmp: (T, T) -> int, s: seq<T>, i: nat, x: T)
    requires i < |s|
    ensures Frequency(cmp, s[..i + 1], x) == Frequency(cmp, s[..i], x) + if cmp(s[i], x) == 0 then 1 else 0
  {
    assert s[..i + 1][..i] == s[..i];
  }

  lemma NoneBeforeRun<T(!new)>(cmp: (T, T) -> int, s: seq<T>, a: nat, i: nat, x: T)
    requires TotalPreorder(cmp) && Run(cmp, s, a, i) && cmp(x, s[a]) == 0
    ensures Frequency(cmp, s[..a], x) == 0
  {
    forall k | 0 <= k < a ensures cmp(s[k], x) != 0 {
      LessThan(cmp, s[k], s[a], x);
    }
    FrequencyNone(cmp, s[..a], x);
  }

  lemma RunEnds<T(!new)>(cmp: (T, T) -> int, s: seq<T>, a: nat, i: nat, m: Option<T>, best: nat)
    requires TotalPreorder(cmp) && Run(cmp, s, a, i) && BestBefore(cmp, s, a, m, best)
    ensures if i - a >= best then BestBefore(cmp, s, i, Some(s[a]), i - a) else BestBefore(cmp, s, i, m, best)
  {
    RunFrequency(cmp, s, a, i, s[a]);
    assert s[..i][a] == s[a];
    forall x | x in s[..i] ensures InRun(cmp, s, a, i, x) || BeforeRun(cmp, s, a, i, x) {
      RunOrBefore(cmp, s, a, i, x);
    }
    if i - a < best {
      assert m.value in s[..a];
      BeforeRunToo(cmp, s, a, i, m.value);
    }
    hide TotalPreorder, Run, Frequency;
  }

  ghost predicate InRun<T(!new)>(cmp: (T, T) -> int, s: seq<T>, a: nat, i: nat, x: T)
    requires a < i <= |s|
  {
    cmp(x, s[a]) == 0 && Frequency(cmp, s[..i], x) == i - a
  }

  ghost predicate BeforeRun<T(!new)>(cmp: (T, T) -> int, s: seq<T>, a: nat, i: nat, x: T)
    requires a < i <= |s|
  {
    x in s[..a] && cmp(x, s[a]) < 0 && Frequency(cmp, s[..i], x) == Frequency(cmp, s[..a], x)
  }

  lemma RunOrBefore<T(!new)>(cmp: (T, T) -> int, s: seq<T>, a: nat, i: nat, x: T)
    requires TotalPreorder(cmp) && Run(cmp, s, a, i) && x in s[..i]
    ensures InRun(cmp, s, a, i, x) || BeforeRun(cmp, s, a, i, x)
  {
    var k :| 0 <= k < i && s[k] == x;
    RunFrequency(cmp, s, a, i, x);
    if k < a {
      assert s[..a][k] == x;
    }
  }

  lemma BeforeRunToo<T(!new)>(cmp: (T, T) -> int, s: seq<T>, a: nat, i: nat, x: T)
    requires TotalPreorder(cmp) && Run(cmp, s, a, i) && x in s[..a]
    ensures x in s[..i] && BeforeRun(cmp, s, a, i, x)
  {
    var k :| 0 <= k < a && s[..a][k] == x;
    assert s[..i][k] == x;
    RunFrequency(cmp, s, a, i, x);
  }

  lemma BestOfAll<T(!new)>(cmp: (T, T) -> int, s: seq<T>, m: Option<T>, best: nat)
    requires s != [] && BestBefore(cmp, s, |s|, m, best)
    ensures m.Some? && IsMostFrequent(cmp, s, m.value)
  {
    assert s[..|s|] == s;
  }
}
