/**
  Hibernation history: process_consensuses.py picks each relay's descriptors for a consensus period
  and writes its hibernation status as a list of changes, newest first; pathsim.py replays the
  list from its right end as time passes.
*/
module Hibernation {
  import opened Basics
  import opened Network

  const ROUTER_MAX_AGE := 60 * 60 * 48

  datatype Entry = Entry(time: int, fp: Fp, hibernating: bool)

  // Publication times of a relay's descriptors, with the hibernating flag of each.
  type Published = map<int, bool>

  // ---------- which descriptor ----------

  predicate Candidate(t: int, pubTime: int, validAfter: int, freshUntil: int)
  {
    validAfter - t < ROUTER_MAX_AGE && t <= pubTime && t > 0 && t <= freshUntil
  }

  predicate Distinct(ts: seq<int>) { forall i, j :: 0 <= i < j < |ts| ==> ts[i] != ts[j] }

  predicate InFreshPeriod(t: int, validAfter: int, freshUntil: int) { validAfter <= t <= freshUntil }

  // The times in the fresh period, in the order met.
  function FreshTimes(order: seq<int>, validAfter: int, freshUntil: int): seq<int>
  {
    if order == [] then []
    else
      var t := order[|order| - 1];
      FreshTimes(order[..|order| - 1], validAfter, freshUntil) +
      (if InFreshPeriod(t, validAfter, freshUntil) then [t] else [])
  }

  lemma {:induction false} FreshTimesMembers(order: seq<int>, validAfter: int, freshUntil: int)
    requires Distinct(order)
    ensures var ts := FreshTimes(order, validAfter, freshUntil);
            Distinct(ts) && forall t :: t in ts <==> t in order && InFreshPeriod(t, validAfter, freshUntil)
  {
    if order != [] {
      var front, t := order[..|order| - 1], order[|order| - 1];
      assert order == front + [t] && t !in front;
      FreshTimesMembers(front, validAfter, freshUntil);
    }
  }

  function FreshStep(cur: Option<int>, t: int, validAfter: int): (next: Option<int>)
    ensures next.Some?
  {
    if cur == None then Some(t)
    else if cur.value < validAfter then if cur.value < t <= validAfter then Some(t) else cur
    else if t < cur.value then Some(t) else cur
  }

  // The descriptor for the initial status, as picked when the times are met in the given order.
  function FreshFold(order: seq<int>, validAfter: int): Option<int>
  {
    if order == [] then None
    else FreshStep(FreshFold(order[..|order| - 1], validAfter), order[|order| - 1], validAfter)
  }

  method ChooseTimes(order: seq<int>, pubTime: int, validAfter: int, freshUntil: int)
    returns (descTime: int, initial: Option<int>, whileFresh: seq<int>)
    ensures descTime == 0 ==> forall t :: t in order ==> !Candidate(t, pubTime, validAfter, freshUntil)
    ensures descTime != 0 ==>
              && descTime in order && Candidate(descTime, pubTime, validAfter, freshUntil)
              && forall t :: t in order && Candidate(t, pubTime, validAfter, freshUntil) ==> t <= descTime
    ensures initial == FreshFold(order, validAfter)
    ensures whileFresh == FreshTimes(order, validAfter, freshUntil)
  {
    descTime, initial, whileFresh := 0, None, [];
    for i := 0 to |order|
      invariant descTime == 0 ==> forall t :: t in order[..i] ==> !Candidate(t, pubTime, validAfter, freshUntil)
      invariant descTime != 0 ==>
                  && descTime in order[..i] && Candidate(descTime, pubTime, validAfter, freshUntil)
                  && forall t :: t in order[..i] && Candidate(t, pubTime, validAfter, freshUntil) ==> t <= descTime
      invariant initial == FreshFold(order[..i], validAfter)
      invariant whileFresh == FreshTimes(order[..i], validAfter, freshUntil)
    {
      var t := order[i];
      assert order[..i + 1][..i] == order[..i];
      if validAfter - t < ROUTER_MAX_AGE && t <= pubTime && t > descTime && t <= freshUntil {
        descTime := t;
      }
      if t >= validAfter && t <= freshUntil {
        whileFresh := whileFresh + [t];
      }
      if initial == None {
        initial := Some(t);
      } else if initial.value < validAfter {
        if t > initial.value && t <= validAfter {
          initial := Some(t);
        }
      } else if t < initial.value {
        initial := Some(t);
      }
    }
    assert order[..|order|] == order;
  }

  ghost predicate HasOlder(order: seq<int>, validAfter: int)
  {
    exists t :: t in order && t < validAfter
  }

  lemma HasOlderStep(front: seq<int>, t: int, validAfter: int)
    ensures HasOlder(front + [t], validAfter) <==> HasOlder(front, validAfter) || t < validAfter
  {
    if t < validAfter {
      assert t in front + [t];
    }
    if HasOlder(front, validAfter) {
      var u :| u in front && u < validAfter;
      assert u in front + [t];
    }
  }

  // What that pick is meant to be: the newest descriptor before the period, or else the oldest.
  ghost predicate IsInitial(order: seq<int>, validAfter: int, initial: int)
  {
    initial in order &&
    if HasOlder(order, validAfter) then
      initial < validAfter && forall t :: t in order && t < validAfter ==> t <= initial
    else forall t :: t in order ==> initial <= t
  }

  lemma {:induction false} FreshFoldIs(order: seq<int>, validAfter: int)
    requires order != [] && validAfter !in order
    ensures FreshFold(order, validAfter).Some? && IsInitial(order, validAfter, FreshFold(order, validAfter).value)
  {
    var front, t := order[..|order| - 1], order[|order| - 1];
    assert order == front + [t];
    if front != [] {
      FreshFoldIs(front, validAfter);
    } else {
      assert order == [t];
    }
  }

  // Without a descriptor published exactly at the start of the period, dictionary order is
  // irrelevant to the pick.
  lemma FreshOrderIrrelevant(order1: seq<int>, order2: seq<int>, validAfter: int)
    requires forall t :: t in order1 <==> t in order2
    requires validAfter !in order1
    ensures FreshFold(order1, validAfter) == FreshFold(order2, validAfter)
  {
    assert order1 != [] ==> order1[0] in order1;
    assert order2 != [] ==> order2[0] in order2;
    if order1 != [] {
      FreshFoldIs(order1, validAfter);
      FreshFoldIs(order2, validAfter);
    }
  }

  // With one, everything before it in the dictionary is forgotten: the pick is the newest older
  // descriptor behind it, or else that one.
  lemma FreshFoldExactly(order: seq<int>, validAfter: int, p: nat)
    requires Distinct(order) && p < |order| && order[p] == validAfter
    ensures var rest := order[p + 1..];
            && (HasOlder(rest, validAfter) ==>
                  FreshFold(order, validAfter).Some? && IsInitial(rest, validAfter, FreshFold(order, validAfter).value))
            && (!HasOlder(rest, validAfter) ==> FreshFold(order, validAfter) == Some(validAfter))
  {
    hide HasOlder, IsInitial;
    var front, rest := order[..p], order[p + 1..];
    assert validAfter !in front && validAfter !in rest;
    assert order == (front + [validAfter]) + rest;
    assert (front + [validAfter])[..p] == front;
    FoldOlder(front, validAfter);
    assert FreshFold(front + [validAfter], validAfter) == Some(validAfter);
    hide FreshFold, Distinct;
    FoldAfter(front + [validAfter], rest, validAfter);
    FoldOlder(rest, validAfter);
    if HasOlder(rest, validAfter) {
      FreshFoldIs(rest, validAfter);
    }
  }

  // So with one, and an older one besides, the pick does depend on the order.
  lemma FreshOrderMatters(others: seq<int>, validAfter: int)
    requires validAfter !in others && HasOlder(others, validAfter)
    ensures FreshFold(others + [validAfter], validAfter) == Some(validAfter)
    ensures FreshFold([validAfter] + others, validAfter) != Some(validAfter)
  {
    assert (others + [validAfter])[..|others|] == others && [validAfter][..0] == [];
    FoldOlder(others, validAfter);
    FoldAfter([validAfter], others, validAfter);
  }

  // The pick is the same for every order of the dictionary exactly if there are not both a
  // descriptor published at the start of the period and an older one.
  lemma FreshOrderDecides(order: seq<int>, validAfter: int)
    requires Distinct(order)
    ensures (forall other :: multiset(other) == multiset(order) ==> FreshFold(other, validAfter) == FreshFold(order, validAfter))
       <==> !(validAfter in order && HasOlder(order, validAfter))
  {
    hide HasOlder, FreshFold;
    if validAfter in order && HasOlder(order, validAfter) {
      var first, last := TwoOrders(order, validAfter);
      assert FreshFold(first, validAfter) != FreshFold(last, validAfter);
    } else {
      forall other | multiset(other) == multiset(order) ensures FreshFold(other, validAfter) == FreshFold(order, validAfter) {
        SamePick(order, other, validAfter);
      }
    }
  }

  lemma TwoOrders(order: seq<int>, validAfter: int) returns (first: seq<int>, last: seq<int>)
    requires Distinct(order) && validAfter in order && HasOlder(order, validAfter)
    ensures multiset(first) == multiset(last) == multiset(order)
    ensures FreshFold(first, validAfter) != FreshFold(last, validAfter)
  {
    hide HasOlder, FreshFold;
    var p :| 0 <= p < |order| && order[p] == validAfter;
    var others := Without(order, p);
    first, last := [validAfter] + others, others + [validAfter];
    OlderKept(order, p, validAfter);
    FreshOrderMatters(others, validAfter);
    WithoutItems(order, p);
    assert multiset(first) == multiset{validAfter} + multiset(others) == multiset(last);
    assert order[p] in multiset(order);
  }

  lemma SamePick(order: seq<int>, other: seq<int>, validAfter: int)
    requires Distinct(order) && multiset(other) == multiset(order) && !(validAfter in order && HasOlder(order, validAfter))
    ensures FreshFold(other, validAfter) == FreshFold(order, validAfter)
  {
    SameElements(order, other);
    if validAfter in order {
      StartIsPicked(order, validAfter);
      StartIsPicked(other, validAfter);
    } else {
      FreshOrderIrrelevant(order, other, validAfter);
    }
  }

  lemma OlderKept(order: seq<int>, p: nat, validAfter: int)
    requires Distinct(order) && HasOlder(order, validAfter) && p < |order| && order[p] == validAfter
    ensures HasOlder(Without(order, p), validAfter) && validAfter !in Without(order, p)
  {
    var t :| t in order && t < validAfter;
    var i :| 0 <= i < |order| && order[i] == t;
    var others := Without(order, p);
    var k := if i < p then i else i - 1;
    assert others[k] == t && others[k] in others;
  }

  lemma OlderInPart(order: seq<int>, from: nat, validAfter: int)
    requires from <= |order| && HasOlder(order[from..], validAfter)
    ensures HasOlder(order, validAfter)
  {
    var t :| t in order[from..] && t < validAfter;
    assert t in order;
  }

  // A dictionary with the same keys, in another order.
  lemma SameElements(order: seq<int>, other: seq<int>)
    requires Distinct(order) && multiset(other) == multiset(order)
    ensures Distinct(other) && forall t :: t in order <==> t in other
  {
    forall t ensures t in order <==> t in other {
      assert t in multiset(order) <==> t in multiset(other);
    }
    forall i, j | 0 <= i < j < |other| ensures other[i] != other[j] {
      OnceOnly(order, other[i]);
      if other[i] == other[j] {
        TwiceIn(other, i, j);
      }
    }
  }

  lemma {:induction false} OnceOnly(order: seq<int>, t: int)
    requires Distinct(order)
    ensures multiset(order)[t] <= 1
  {
    if order != [] {
      var front, last := order[..|order| - 1], order[|order| - 1];
      assert order == front + [last];
      OnceOnly(front, t);
      if t == last {
        assert t !in front;
      }
    }
  }

  lemma TwiceIn(order: seq<int>, i: nat, j: nat)
    requires i < j < |order| && order[i] == order[j]
    ensures multiset(order)[order[i]] >= 2
  {
    assert order == order[..j] + [order[j]] + order[j + 1..];
    assert order[..j][i] == order[i];
    assert order[i] in multiset(order[..j]);
  }

  lemma StartIsPicked(order: seq<int>, validAfter: int)
    requires Distinct(order) && validAfter in order && !HasOlder(order, validAfter)
    ensures FreshFold(order, validAfter) == Some(validAfter)
  {
    var p :| 0 <= p < |order| && order[p] == validAfter;
    FreshFoldExactly(order, validAfter, p);
    if HasOlder(order[p + 1..], validAfter) {
      OlderInPart(order, p + 1, validAfter);
    }
  }

  // Once the descriptor at the start is held, an older one is what counts.
  lemma {:induction false} FoldAfter(held: seq<int>, others: seq<int>, validAfter: int)
    requires FreshFold(held, validAfter) == Some(validAfter) && validAfter !in others
    ensures FreshFold(held + others, validAfter) ==
            if HasOlder(others, validAfter) then FreshFold(others, validAfter) else Some(validAfter)
  {
    if others == [] {
      assert held + others == held;
    } else {
      var front, t := others[..|others| - 1], others[|others| - 1];
      assert others == front + [t];
      var all := held + others;
      assert all[..|all| - 1] == held + front && all[|all| - 1] == t;
      FoldAfter(held, front, validAfter);
      HasOlderStep(front, t, validAfter);
      hide IsInitial, HasOlder;
      FoldOlder(front, validAfter);
    }
  }

  lemma FoldOlder(order: seq<int>, validAfter: int)
    requires validAfter !in order
    ensures order == [] ==> !HasOlder(order, validAfter) && FreshFold(order, validAfter) == None
    ensures order != [] ==> FreshFold(order, validAfter).Some? && FreshFold(order, validAfter).value != validAfter &&
                            (HasOlder(order, validAfter) <==> FreshFold(order, validAfter).value < validAfter)
  {
    if order != [] {
      FreshFoldIs(order, validAfter);
    }
  }

  // ---------- status at a time ----------

  // The status a relay shows at a time of the period: that of its latest descriptor of the period
  // published by then, else the initial one.
  ghost predicate ShowsAt(ds: seq<int>, published: Published, init: bool, t: int, status: bool)
    requires forall d :: d in ds ==> d in published
  {
    if exists d :: d in ds && d <= t then
      exists d :: d in ds && d <= t && status == published[d] && forall e :: e in ds && e <= t ==> e <= d
    else status == init
  }

  predicate Ascending(ts: seq<int>) { forall i, j :: 0 <= i < j < |ts| ==> ts[i] < ts[j] }

  // Changes only, oldest first, starting from the given status; and the status they end with.
  function Changes(fp: Fp, ds: seq<int>, published: Published, init: bool): (r: (seq<Entry>, bool))
    requires forall d :: d in ds ==> d in published
  {
    if ds == [] then ([], init)
    else
      var d := ds[|ds| - 1];
      var (es, cur) := Changes(fp, ds[..|ds| - 1], published, init);
      if published[d] != cur then (es + [Entry(d, fp, published[d])], published[d]) else (es, cur)
  }

  // The status last set by time t.
  ghost function LastSet(es: seq<Entry>, init: bool, t: int): bool
  {
    if es == [] then init
    else if es[|es| - 1].time <= t then es[|es| - 1].hibernating
    else LastSet(es[..|es| - 1], init, t)
  }

  lemma {:induction false} ChangesFacts(fp: Fp, ds: seq<int>, published: Published, init: bool)
    requires (forall d :: d in ds ==> d in published) && Ascending(ds)
    ensures var (es, cur) := Changes(fp, ds, published, init);
            && cur == (if ds == [] then init else published[ds[|ds| - 1]])
            && (forall e :: e in es ==> e.fp == fp && e.time in ds)
            && (forall i, j :: 0 <= i < j < |es| ==> es[i].time < es[j].time)
  {
    if ds != [] {
      var front, d := ds[..|ds| - 1], ds[|ds| - 1];
      ChangesFacts(fp, front, published, init);
      forall e | e in front ensures e < d {
      }
    }
  }

  lemma ShowsStep(front: seq<int>, d: int, published: Published, init: bool, t: int, status: bool)
    requires (forall e :: e in front + [d] ==> e in published) && forall e :: e in front ==> e < d
    ensures forall e :: e in front ==> e in published
    ensures t < d && ShowsAt(front, published, init, t, status) ==> ShowsAt(front + [d], published, init, t, status)
    ensures d <= t && d in published ==> ShowsAt(front + [d], published, init, t, published[d])
  {
    assert forall e :: e in front + [d] <==> e in front || e == d;
    if d <= t {
      assert d in front + [d];
    }
  }

  // Leaving out descriptors that do not change the status loses nothing.
  lemma {:induction false} ChangesShow(fp: Fp, ds: seq<int>, published: Published, init: bool, t: int)
    requires (forall d :: d in ds ==> d in published) && Ascending(ds)
    ensures ShowsAt(ds, published, init, t, LastSet(Changes(fp, ds, published, init).0, init, t))
  {
    if ds != [] {
      var front, d := ds[..|ds| - 1], ds[|ds| - 1];
      var (es, cur) := Changes(fp, front, published, init);
      assert ds == front + [d] && d in ds;
      assert forall e :: e in front ==> e < d;
      ChangesShow(fp, front, published, init, t);
      ShowsStep(front, d, published, init, t, LastSet(es, init, t));
      hide ShowsAt;
      LastSetStep(es, Entry(d, fp, published[d]), init, t);
      if d <= t && published[d] == cur {
        ChangesEnd(fp, front, published, init, t);
      }
    }
  }

  lemma LastSetStep(es: seq<Entry>, e: Entry, init: bool, t: int)
    ensures LastSet(es + [e], init, t) == if e.time <= t then e.hibernating else LastSet(es, init, t)
  {
    assert (es + [e])[..|es|] == es;
  }

  // After all changes the status is that of the last descriptor.
  lemma ChangesEnd(fp: Fp, ds: seq<int>, published: Published, init: bool, t: int)
    requires (forall d :: d in ds ==> d in published && d <= t) && Ascending(ds)
    ensures LastSet(Changes(fp, ds, published, init).0, init, t) == Changes(fp, ds, published, init).1
    decreases |ds|
  {
    if ds != [] {
      ChangesEnd(fp, ds[..|ds| - 1], published, init, t);
    }
  }

  // ---------- sorting ----------

  function InsertTime(ts: seq<int>, t: int): seq<int>
  {
    if ts == [] || ts[|ts| - 1] <= t then ts + [t] else InsertTime(ts[..|ts| - 1], t) + [ts[|ts| - 1]]
  }

  function SortTimes(ts: seq<int>): seq<int>
  {
    if ts == [] then [] else InsertTime(SortTimes(ts[..|ts| - 1]), ts[|ts| - 1])
  }

  lemma {:induction false} InsertTimeOk(ts: seq<int>, t: int)
    requires Ascending(ts) && t !in ts
    ensures Ascending(InsertTime(ts, t)) && forall u :: u in InsertTime(ts, t) <==> u in ts || u == t
  {
    if ts != [] {
      var front, last := ts[..|ts| - 1], ts[|ts| - 1];
      assert ts == front + [last];
      InsertTimeOk(front, t);
      assert forall u :: u in front ==> u < last;
      assert last in ts && last != t;
      var ins := InsertTime(front, t);
      forall i | 0 <= i < |ins| ensures last <= t || ins[i] < last {
        assert ins[i] in ins;
      }
    }
  }

  lemma {:induction false} SortTimesOk(ts: seq<int>)
    requires Distinct(ts)
    ensures Ascending(SortTimes(ts)) && forall u :: u in SortTimes(ts) <==> u in ts
  {
    if ts != [] {
      var front, last := ts[..|ts| - 1], ts[|ts| - 1];
      assert ts == front + [last] && last !in front;
      SortTimesOk(front);
      InsertTimeOk(SortTimes(front), last);
    }
  }

  // Newest first; entries of one time keep their order.
  predicate Descending(es: seq<Entry>) { forall i, j :: 0 <= i < j < |es| ==> es[i].time >= es[j].time }

  function InsertEntry(es: seq<Entry>, e: Entry): seq<Entry>
  {
    if es == [] || es[|es| - 1].time >= e.time then es + [e] else InsertEntry(es[..|es| - 1], e) + [es[|es| - 1]]
  }

  function SortEntries(es: seq<Entry>): seq<Entry>
  {
    if es == [] then [] else InsertEntry(SortEntries(es[..|es| - 1]), es[|es| - 1])
  }

  lemma {:induction false} InsertEntryMultiset(es: seq<Entry>, e: Entry)
    ensures multiset(InsertEntry(es, e)) == multiset(es) + multiset{e}
  {
    if es != [] {
      var front, last := es[..|es| - 1], es[|es| - 1];
      assert es == front + [last];
      InsertEntryMultiset(front, e);
    }
  }

  // The oldest entry of the result is the oldest before, or the new one.
  lemma {:induction false} InsertEntryOk(es: seq<Entry>, e: Entry)
    requires Descending(es)
    ensures Descending(InsertEntry(es, e))
    ensures forall i :: 0 <= i < |InsertEntry(es, e)| ==>
              InsertEntry(es, e)[i].time >= e.time || (es != [] && InsertEntry(es, e)[i].time >= es[|es| - 1].time)
  {
    if es != [] {
      InsertEntryOk(es[..|es| - 1], e);
    }
  }

  lemma {:induction false} SortEntriesOk(es: seq<Entry>)
    ensures Descending(SortEntries(es)) && multiset(SortEntries(es)) == multiset(es)
  {
    if es != [] {
      assert es == es[..|es| - 1] + [es[|es| - 1]];
      SortEntriesOk(es[..|es| - 1]);
      InsertEntryOk(SortEntries(es[..|es| - 1]), es[|es| - 1]);
      InsertEntryMultiset(SortEntries(es[..|es| - 1]), es[|es| - 1]);
    }
  }

  // ---------- writing the history ----------

  // One relay of the consensus: when its entry says it was published, and its known descriptors
  // with the order in which the dictionary lists them.
  datatype Relay = Relay(fp: Fp, pubTime: int, order: seq<int>, published: Published) {
    ghost predicate Valid() { Distinct(order) && forall t :: t in order <==> t in published }
  }

  ghost predicate HasDescriptor(r: Relay, validAfter: int, freshUntil: int)
  {
    exists t :: t in r.order && Candidate(t, r.pubTime, validAfter, freshUntil)
  }

  function InitialStatus(r: Relay, validAfter: int): bool
    requires r.Valid() && r.order != []
  {
    FreshFoldMember(r.order, validAfter);
    r.published[FreshFold(r.order, validAfter).value]
  }

  lemma {:induction false} FreshFoldMember(order: seq<int>, validAfter: int)
    ensures FreshFold(order, validAfter).Some? <==> order != []
    ensures order != [] ==> FreshFold(order, validAfter).value in order
  {
    if order != [] {
      var front, t := order[..|order| - 1], order[|order| - 1];
      assert order == front + [t];
      FreshFoldMember(front, validAfter);
    }
  }

  function FreshDescriptors(r: Relay, validAfter: int, freshUntil: int): seq<int>
  {
    SortTimes(FreshTimes(r.order, validAfter, freshUntil))
  }

  lemma FreshDescriptorsOk(r: Relay, validAfter: int, freshUntil: int)
    requires r.Valid()
    ensures var ds := FreshDescriptors(r, validAfter, freshUntil);
            Ascending(ds) && forall t :: t in ds <==> t in r.published && InFreshPeriod(t, validAfter, freshUntil)
  {
    FreshTimesMembers(r.order, validAfter, freshUntil);
    SortTimesOk(FreshTimes(r.order, validAfter, freshUntil));
  }

  // The initial status at time 0, then the changes.
  ghost function RelayEntries(r: Relay, validAfter: int, freshUntil: int): seq<Entry>
    requires r.Valid()
  {
    if !HasDescriptor(r, validAfter, freshUntil) then []
    else
      FreshDescriptorsOk(r, validAfter, freshUntil);
      var init := InitialStatus(r, validAfter);
      [Entry(0, r.fp, init)] + Changes(r.fp, FreshDescriptors(r, validAfter, freshUntil), r.published, init).0
  }

  // The raise for a relay with a descriptor but no initial status is unreachable.
  method RelayHistory(r: Relay, validAfter: int, freshUntil: int) returns (es: seq<Entry>)
    requires r.Valid()
    ensures es == RelayEntries(r, validAfter, freshUntil)
  {
    var descTime, initial, whileFresh := ChooseTimes(r.order, r.pubTime, validAfter, freshUntil);
    es := [];
    FreshDescriptorsOk(r, validAfter, freshUntil);
    if descTime != 0 {
      assert HasDescriptor(r, validAfter, freshUntil);
      FreshFoldMember(r.order, validAfter);
      ghost var init := r.published[initial.value];
      var cur := r.published[initial.value];
      es := [Entry(0, r.fp, cur)];
      var ds := SortTimes(whileFresh);
      ghost var changes: seq<Entry> := [];
      for i := 0 to |ds|
        invariant es == [Entry(0, r.fp, init)] + changes
        invariant (changes, cur) == Changes(r.fp, ds[..i], r.published, init)
      {
        assert ds[i] in ds;
        ChangesStep(r.fp, ds, i, r.published, init);
        if r.published[ds[i]] != cur {
          cur := r.published[ds[i]];
          es := es + [Entry(ds[i], r.fp, cur)];
          changes := changes + [Entry(ds[i], r.fp, cur)];
        }
      }
      assert ds[..|ds|] == ds;
    }
  }

  lemma ChangesStep(fp: Fp, ds: seq<int>, i: nat, published: Published, init: bool)
    requires i < |ds| && forall d :: d in ds ==> d in published
    ensures var (es, cur) := Changes(fp, ds[..i], published, init);
            Changes(fp, ds[..i + 1], published, init) ==
            if published[ds[i]] != cur then (es + [Entry(ds[i], fp, published[ds[i]])], published[ds[i]]) else (es, cur)
  {
    assert ds[..i + 1][..i] == ds[..i];
  }

  ghost function AllEntries(relays: seq<Relay>, validAfter: int, freshUntil: int): seq<Entry>
    requires forall r :: r in relays ==> r.Valid()
  {
    if relays == [] then []
    else AllEntries(relays[..|relays| - 1], validAfter, freshUntil) + RelayEntries(relays[|relays| - 1], validAfter, freshUntil)
  }

  method PeriodHistory(relays: seq<Relay>, validAfter: int, freshUntil: int) returns (history: seq<Entry>)
    requires forall r :: r in relays ==> r.Valid()
    ensures history == SortEntries(AllEntries(relays, validAfter, freshUntil))
  {
    var all: seq<Entry> := [];
    for i := 0 to |relays|
      invariant all == AllEntries(relays[..i], validAfter, freshUntil)
    {
      assert relays[..i + 1][..i] == relays[..i];
      var es := RelayHistory(relays[i], validAfter, freshUntil);
      all := all + es;
    }
    assert relays[..|relays|] == relays;
    history := SortEntries(all);
  }

  // ---------- replaying it ----------

  function ReplayTo(es: seq<Entry>, status: map<Fp, bool>, t: int): (seq<Entry>, map<Fp, bool>)
  {
    if es == [] || es[|es| - 1].time > t then (es, status)
    else ReplayTo(es[..|es| - 1], status[es[|es| - 1].fp := es[|es| - 1].hibernating], t)
  }

  // The loop at the start of a period and in every minute.
  method PopUpTo(es: seq<Entry>, status: map<Fp, bool>, t: int) returns (rest: seq<Entry>, status': map<Fp, bool>)
    ensures (rest, status') == ReplayTo(es, status, t)
  {
    rest, status' := es, status;
    while rest != [] && rest[|rest| - 1].time <= t
      invariant ReplayTo(rest, status', t) == ReplayTo(es, status, t)
      decreases |rest|
    {
      var e := rest[|rest| - 1];
      rest, status' := rest[..|rest| - 1], status'[e.fp := e.hibernating];
    }
  }

  // Replaying in several steps is replaying at once.
  lemma {:induction false} ReplayCompose(es: seq<Entry>, status: map<Fp, bool>, t: int, t': int)
    requires t <= t'
    ensures var (rest, status') := ReplayTo(es, status, t);
            ReplayTo(rest, status', t') == ReplayTo(es, status, t')
  {
    if es != [] && es[|es| - 1].time <= t {
      ReplayCompose(es[..|es| - 1], status[es[|es| - 1].fp := es[|es| - 1].hibernating], t, t');
    }
  }

  ghost predicate LatestEntry(es: seq<Entry>, fp: Fp, t: int, e: Entry)
  {
    e in es && e.fp == fp && e.time <= t && forall f :: f in es && f.fp == fp && f.time <= t ==> f.time <= e.time
  }

  // The entries of a relay for one time agree.
  ghost predicate OneAtATime(es: seq<Entry>, fp: Fp)
  {
    forall e, f :: e in es && f in es && e.fp == f.fp == fp && e.time == f.time ==> e == f
  }

  lemma {:induction false} ReplayShowsLatest(es: seq<Entry>, status: map<Fp, bool>, t: int, fp: Fp, e: Entry)
    requires Descending(es) && OneAtATime(es, fp) && LatestEntry(es, fp, t, e)
    ensures fp in ReplayTo(es, status, t).1 && ReplayTo(es, status, t).1[fp] == e.hibernating
  {
    var front, last := es[..|es| - 1], es[|es| - 1];
    LatestIsLast(es, t, fp, e);
    var status' := status[last.fp := last.hibernating];
    if e in front {
      ReplayShowsLatest(front, status', t, fp, e);
    } else {
      ReplayLeavesAlone(front, status', t, fp);
    }
  }

  lemma LatestIsLast(es: seq<Entry>, t: int, fp: Fp, e: Entry)
    requires Descending(es) && OneAtATime(es, fp) && LatestEntry(es, fp, t, e)
    ensures es != [] && es[|es| - 1].time <= t && Descending(es[..|es| - 1]) && OneAtATime(es[..|es| - 1], fp)
    ensures e in es[..|es| - 1] ==> LatestEntry(es[..|es| - 1], fp, t, e)
    ensures e !in es[..|es| - 1] ==>
              e == es[|es| - 1] && forall f :: f in es[..|es| - 1] && f.fp == fp ==> f.time > t
  {
    var front, last := es[..|es| - 1], es[|es| - 1];
    assert es == front + [last];
    assert last.time <= e.time;
    forall f | f in front ensures f in es && f.time >= last.time {
    }
  }

  lemma {:induction false} ReplayLeavesAlone(es: seq<Entry>, status: map<Fp, bool>, t: int, fp: Fp)
    requires forall f :: f in es && f.fp == fp ==> f.time > t
    ensures fp in ReplayTo(es, status, t).1 <==> fp in status
    ensures fp in status ==> ReplayTo(es, status, t).1[fp] == status[fp]
  {
    if es != [] && es[|es| - 1].time <= t {
      var last := es[|es| - 1];
      assert last in es;
      ReplayLeavesAlone(es[..|es| - 1], status[last.fp := last.hibernating], t, fp);
    }
  }

  // ---------- main results ----------

  ghost predicate DistinctRelays(relays: seq<Relay>)
  {
    (forall r :: r in relays ==> r.Valid()) &&
    forall i, j :: 0 <= i < j < |relays| ==> relays[i].fp != relays[j].fp
  }

  lemma {:induction false} AllEntriesOf(relays: seq<Relay>, k: nat, validAfter: int, freshUntil: int, e: Entry)
    requires DistinctRelays(relays) && k < |relays| && e.fp == relays[k].fp
    ensures e in AllEntries(relays, validAfter, freshUntil) <==> e in RelayEntries(relays[k], validAfter, freshUntil)
  {
    hide RelayEntries, OneAtATime;
    var front, last := relays[..|relays| - 1], relays[|relays| - 1];
    assert last in relays;
    assert forall r :: r in front ==> r in relays;
    AllEntriesSplit(relays, validAfter, freshUntil, e);
    hide AllEntries;
    if k < |front| {
      AllEntriesOf(front, k, validAfter, freshUntil, e);
    } else {
      NotAmongOthers(front, validAfter, freshUntil, e);
    }
  }

  lemma AllEntriesSplit(relays: seq<Relay>, validAfter: int, freshUntil: int, e: Entry)
    requires relays != [] && (forall r :: r in relays ==> r.Valid())
    requires forall r :: r in relays[..|relays| - 1] ==> r.Valid()
    ensures var front, last := relays[..|relays| - 1], relays[|relays| - 1];
            e in AllEntries(relays, validAfter, freshUntil) <==>
              e in AllEntries(front, validAfter, freshUntil) || (e.fp == last.fp && e in RelayEntries(last, validAfter, freshUntil))
  {
    var last := relays[|relays| - 1];
    assert last in relays;
    RelayEntriesOk(last, validAfter, freshUntil);
  }

  lemma {:induction false} NotAmongOthers(relays: seq<Relay>, validAfter: int, freshUntil: int, e: Entry)
    requires (forall r :: r in relays ==> r.Valid()) && forall r :: r in relays ==> r.fp != e.fp
    ensures e !in AllEntries(relays, validAfter, freshUntil)
  {
    if relays != [] {
      assert relays[|relays| - 1] in relays;
      RelayEntriesOk(relays[|relays| - 1], validAfter, freshUntil);
      NotAmongOthers(relays[..|relays| - 1], validAfter, freshUntil, e);
    }
  }

  lemma RelayEntriesOk(r: Relay, validAfter: int, freshUntil: int)
    requires r.Valid()
    ensures forall e :: e in RelayEntries(r, validAfter, freshUntil) ==> e.fp == r.fp
    ensures validAfter > 0 ==> OneAtATime(RelayEntries(r, validAfter, freshUntil), r.fp)
  {
    if HasDescriptor(r, validAfter, freshUntil) {
      FreshDescriptorsOk(r, validAfter, freshUntil);
      var init, ds := InitialStatus(r, validAfter), FreshDescriptors(r, validAfter, freshUntil);
      hide InitialStatus, FreshDescriptors;
      ChangesFacts(r.fp, ds, r.published, init);
      var es := Changes(r.fp, ds, r.published, init).0;
      assert RelayEntries(r, validAfter, freshUntil) == [Entry(0, r.fp, init)] + es;
      hide RelayEntries, Changes;
      if validAfter > 0 {
        AscendingAgree(r.fp, es, init);
      }
    }
  }

  lemma AscendingAgree(fp: Fp, es: seq<Entry>, init: bool)
    requires forall e :: e in es ==> e.fp == fp && e.time > 0
    requires forall i, j :: 0 <= i < j < |es| ==> es[i].time < es[j].time
    ensures OneAtATime([Entry(0, fp, init)] + es, fp)
  {
    forall e, f | e in es && f in es && e.time == f.time ensures e == f {
      var i, j :| 0 <= i < |es| && 0 <= j < |es| && es[i] == e && es[j] == f;
    }
  }

  // The latest entry by time t carries the status last set.
  lemma {:induction false} LastSetIsLatest(fp: Fp, es: seq<Entry>, init: bool, t: int) returns (e: Entry)
    requires (forall f :: f in es ==> f.fp == fp && f.time > 0) && t >= 0
    requires forall i, j :: 0 <= i < j < |es| ==> es[i].time < es[j].time
    ensures LatestEntry([Entry(0, fp, init)] + es, fp, t, e) && e.hibernating == LastSet(es, init, t)
  {
    if es == [] {
      e := Entry(0, fp, init);
    } else {
      var front, last := es[..|es| - 1], es[|es| - 1];
      assert es == front + [last];
      e := LastSetIsLatest(fp, front, init, t);
      if last.time <= t {
        e := last;
      }
    }
  }

  // Replaying the written history up to any time of the period gives every relay that was given a
  // descriptor the status of its latest descriptor of the period, or else its initial status; and
  // the others are not mentioned.
  lemma ReplayedHistoryShows(relays: seq<Relay>, validAfter: int, freshUntil: int, k: nat, t: int)
    requires DistinctRelays(relays) && k < |relays| && 0 < validAfter <= t
    ensures var r, status := relays[k], ReplayTo(SortEntries(AllEntries(relays, validAfter, freshUntil)), map[], t).1;
            if HasDescriptor(r, validAfter, freshUntil) then
              r.fp in status && r.order != [] &&
              (forall d :: d in FreshDescriptors(r, validAfter, freshUntil) ==> d in r.published) &&
              ShowsAt(FreshDescriptors(r, validAfter, freshUntil), r.published, InitialStatus(r, validAfter), t, status[r.fp])
            else r.fp !in status
  {
    hide ShowsAt, ReplayTo;
    var r, all := relays[k], AllEntries(relays, validAfter, freshUntil);
    var history := SortEntries(all);
    SortEntriesOk(all);
    SameMembers(history, all);
    forall e: Entry | e.fp == r.fp ensures e in history <==> e in RelayEntries(r, validAfter, freshUntil) {
      AllEntriesOf(relays, k, validAfter, freshUntil, e);
    }
    if HasDescriptor(r, validAfter, freshUntil) {
      RelayEntriesOk(r, validAfter, freshUntil);
      FreshDescriptorsOk(r, validAfter, freshUntil);
      var init, ds := InitialStatus(r, validAfter), FreshDescriptors(r, validAfter, freshUntil);
      ChangesFacts(r.fp, ds, r.published, init);
      var e := LastSetIsLatest(r.fp, Changes(r.fp, ds, r.published, init).0, init, t);
      assert LatestEntry(history, r.fp, t, e);
      ReplayShowsLatest(history, map[], t, r.fp, e);
      ChangesShow(r.fp, ds, r.published, init, t);
    } else {
      ReplayLeavesAlone(history, map[], t, r.fp);
    }
  }

  lemma SameMembers(xs: seq<Entry>, ys: seq<Entry>)
    requires multiset(xs) == multiset(ys)
    ensures forall e :: e in xs <==> e in ys
  {
    forall e ensures e in xs <==> e in ys {
      assert e in xs <==> e in multiset(xs);
      assert e in ys <==> e in multiset(ys);
    }
  }

  // From the start of the period on, the replayed status never depends on dictionary order, even
  // where the pick of the initial descriptor does.
  lemma StatusOrderIrrelevant(r: Relay, r': Relay, validAfter: int, freshUntil: int, t: int, b: bool, b': bool)
    requires r.Valid() && r'.Valid() && r' == r.(order := r'.order)
    requires HasDescriptor(r, validAfter, freshUntil) && validAfter <= t && validAfter <= freshUntil
    requires forall d :: d in FreshDescriptors(r, validAfter, freshUntil) ==> d in r.published
    requires forall d :: d in FreshDescriptors(r', validAfter, freshUntil) ==> d in r'.published
    requires r.order != [] && ShowsAt(FreshDescriptors(r, validAfter, freshUntil), r.published, InitialStatus(r, validAfter), t, b)
    requires r'.order != [] && ShowsAt(FreshDescriptors(r', validAfter, freshUntil), r'.published, InitialStatus(r', validAfter), t, b')
    ensures b == b'
  {
    FreshDescriptorsOk(r, validAfter, freshUntil);
    FreshDescriptorsOk(r', validAfter, freshUntil);
    var ds, ds' := FreshDescriptors(r, validAfter, freshUntil), FreshDescriptors(r', validAfter, freshUntil);
    assert forall d :: d in ds <==> d in ds';
    if validAfter in r.order {
      assert validAfter in ds && validAfter <= t;
    } else {
      FreshOrderIrrelevant(r.order, r'.order, validAfter);
    }
  }
}
