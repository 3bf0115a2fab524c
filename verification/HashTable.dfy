/**
  The chained hash table of uthash.h: buckets that double in number when a chain gets long, and a
  list of all elements in the order of insertion. Both the chains and the list are doubly linked
  through the elements. A table without elements does not exist: the first addition makes it and
  the last deletion frees it.
*/
module HashTable {
  import opened Basics

  const INITIAL_LOG2 := 5
  const CAPACITY_THRESH := 10

  // An element with its hash handle: its neighbours in the order of insertion and in its bucket.
  class Handle<V> {
    const key: nat
    const value: V
    ghost const owner: object  // the table it is made for
    var next: Handle?<V>
    var prev: Handle?<V>
    var hhNext: Handle?<V>
    var hhPrev: Handle?<V>

    constructor (key: nat, value: V, ghost owner: object)
      ensures this.key == key && this.value == value && this.owner == owner
    {
      this.key, this.value, this.owner := key, value, owner;
      next, prev, hhNext, hhPrev := null, null, null, null;
    }
  }

  type Handles<V> = seq<Handle<V>>

  datatype Bucket<V> = Bucket(hhHead: Handle?<V>, count: nat, expandMult: nat)

  // ---------- links ----------

  ghost function At<V>(s: Handles<V>, i: int): Handle?<V> { if 0 <= i < |s| then s[i] else null }

  // The list of elements, in both directions and up to the nulls at its ends.
  ghost predicate Listed<V>(s: Handles<V>)
    reads s`next, s`prev
  {
    && (forall i {:trigger s[i].next} :: 0 <= i < |s| ==> s[i].next == At(s, i + 1))
    && (forall i {:trigger s[i].prev} :: 0 <= i < |s| ==> s[i].prev == At(s, i - 1))
  }

  // The same for a bucket's chain.
  ghost predicate Chained<V>(s: Handles<V>)
    reads s`hhNext, s`hhPrev
  {
    && (forall i {:trigger s[i].hhNext} :: 0 <= i < |s| ==> s[i].hhNext == At(s, i + 1))
    && (forall i {:trigger s[i].hhPrev} :: 0 <= i < |s| ==> s[i].hhPrev == At(s, i - 1))
  }

  // What a walk along a chain relies on.
  ghost predicate Forward<V>(s: Handles<V>, from: nat)
    reads s`hhNext
  {
    forall i {:trigger s[i].hhNext} :: from <= i < |s| ==> s[i].hhNext == At(s, i + 1)
  }

  // ---------- what a table holds ----------

  // The bucket of a key: for a power of two n, the remainder is what masking with n - 1 leaves.
  function Slot(hash: nat -> nat, key: nat, n: nat): (slot: nat)
    requires n > 0
    ensures slot < n
  {
    hash(key) % n
  }

  ghost predicate DistinctKeys<V>(items: Handles<V>)
  {
    forall i, j :: 0 <= i < j < |items| ==> items[i].key != items[j].key
  }

  ghost predicate HasKey<V>(items: Handles<V>, key: nat)
  {
    exists i :: 0 <= i < |items| && items[i].key == key
  }

  // A bucket's chain holds exactly those of the items that belong to it, each once.
  ghost predicate ChainOk<V>(hash: nat -> nat, chain: Handles<V>, slot: nat, n: nat, items: set<Handle<V>>)
    requires n > 0
  {
    && DistinctKeys(chain)
    && (forall item :: item in chain ==> item in items && Slot(hash, item.key, n) == slot)
    && (forall item :: item in items && Slot(hash, item.key, n) == slot ==> item in chain)
  }

  ghost predicate ChainsOk<V>(hash: nat -> nat, chains: seq<Handles<V>>, items: set<Handle<V>>)
  {
    forall k :: 0 <= k < |chains| ==> ChainOk(hash, chains[k], k, |chains|, items)
  }

  // Each bucket knows the first element of its chain and the length.
  ghost predicate HeadsOk<V>(buckets: seq<Bucket<V>>, chains: seq<Handles<V>>)
  {
    |buckets| == |chains| &&
    forall k :: 0 <= k < |buckets| ==> buckets[k].hhHead == At(chains[k], 0) && buckets[k].count == |chains[k]|
  }

  ghost predicate AllChained<V>(chains: seq<Handles<V>>, items: set<Handle<V>>)
    reads items`hhNext, items`hhPrev
  {
    forall k :: 0 <= k < |chains| ==> (forall h :: h in chains[k] ==> h in items) && Chained(chains[k])
  }

  // The buckets hold exactly the items, each in a chain that is linked through them.
  ghost predicate Holds<V>(hash: nat -> nat, buckets: seq<Bucket<V>>, chains: seq<Handles<V>>, items: set<Handle<V>>)
    reads items`hhNext, items`hhPrev
  {
    ChainsOk(hash, chains, items) && HeadsOk(buckets, chains) && AllChained(chains, items)
  }

  ghost function ItemSet<V>(items: Handles<V>): set<Handle<V>> { set item | item in items }

  // What the items say of a key.
  ghost function Entry<V>(items: Handles<V>, key: nat): (r: Option<V>)
    ensures r == None <==> !HasKey(items, key)
    ensures r.Some? ==> exists i :: 0 <= i < |items| && items[i].key == key && items[i].value == r.value
  {
    if HasKey(items, key) then
      var i :| 0 <= i < |items| && items[i].key == key;
      Some(items[i].value)
    else None
  }

  // With distinct keys the items are a map: these are its laws for look-up, addition and removal.
  lemma EntryFound<V>(items: Handles<V>, item: Handle<V>)
    requires DistinctKeys(items) && item in items
    ensures Entry(items, item.key) == Some(item.value)
  {}

  lemma EntryMissing<V>(items: Handles<V>, key: nat)
    requires !HasKey(items, key)
    ensures Entry(items, key) == None
  {}

  lemma EntryAdded<V>(items: Handles<V>, added: Handle<V>, key: nat)
    requires DistinctKeys(items) && !HasKey(items, added.key)
    ensures DistinctKeys(items + [added])
    ensures Entry(items + [added], key) == if key == added.key then Some(added.value) else Entry(items, key)
  {
    var more := items + [added];
    assert more[|items|] == added && forall i :: 0 <= i < |items| ==> more[i] == items[i];
    if key == added.key {
      EntryFound(more, added);
    } else if HasKey(items, key) {
      var i :| 0 <= i < |items| && items[i].key == key;
      EntryFound(items, items[i]);
      EntryFound(more, items[i]);
    } else {
      assert !HasKey(more, key);
    }
  }

  lemma EntryRemoved<V>(items: Handles<V>, k: nat, key: nat)
    requires DistinctKeys(items) && k < |items|
    ensures DistinctKeys(Without(items, k))
    ensures Entry(Without(items, k), key) == if key == items[k].key then None else Entry(items, key)
  {
    var rest := Without(items, k);
    WithoutDistinct(items, k);
    assert forall item :: item in rest <==> item in ItemSet(rest);
    assert forall item :: item in items <==> item in ItemSet(items);
    if key == items[k].key {
      assert !HasKey(rest, key);
    } else if HasKey(items, key) {
      var i :| 0 <= i < |items| && items[i].key == key;
      assert items[i] in rest;
      EntryFound(items, items[i]);
      EntryFound(rest, items[i]);
    } else {
      assert !HasKey(rest, key);
    }
  }

  lemma AddedEntries<V>(items: Handles<V>, added: Handle<V>)
    requires DistinctKeys(items) && !HasKey(items, added.key)
    ensures forall k :: Entry(items + [added], k) == if k == added.key then Some(added.value) else Entry(items, k)
  {
    hide Entry, DistinctKeys;
    forall k ensures Entry(items + [added], k) == if k == added.key then Some(added.value) else Entry(items, k) {
      EntryAdded(items, added, k);
    }
  }

  lemma RemovedEntries<V>(items: Handles<V>, at: nat)
    requires DistinctKeys(items) && at < |items|
    ensures forall k :: Entry(Without(items, at), k) == if k == items[at].key then None else Entry(items, k)
  {
    hide Entry, DistinctKeys;
    forall k ensures Entry(Without(items, at), k) == if k == items[at].key then None else Entry(items, k) {
      EntryRemoved(items, at, k);
    }
  }

  // How many items stand further back in their chains than ideal.
  ghost function Nonideal<V>(buckets: seq<Bucket<V>>, ideal: nat): nat
  {
    if buckets == [] then 0
    else
      var b := buckets[|buckets| - 1];
      Nonideal(buckets[..|buckets| - 1], ideal) + if b.count > ideal then b.count - ideal else 0
  }

  // A new item goes to the front of its bucket's chain.
  lemma PushOk<V>(hash: nat -> nat, chains: seq<Handles<V>>, item: Handle<V>, items: set<Handle<V>>)
    requires chains != [] && ChainsOk(hash, chains, items) && forall other :: other in items ==> other.key != item.key
    ensures var slot := Slot(hash, item.key, |chains|);
            ChainsOk(hash, chains[slot := [item] + chains[slot]], items + {item})
  {
    var slot := Slot(hash, item.key, |chains|);
    var after := chains[slot := [item] + chains[slot]];
    forall k | 0 <= k < |after| ensures ChainOk(hash, after[k], k, |after|, items + {item}) {
      assert ChainOk(hash, chains[k], k, |chains|, items);
      if k == slot {
        assert forall other :: other in chains[k] ==> other.key != item.key;
      }
    }
  }

  lemma WithoutDistinct<V>(items: Handles<V>, k: nat)
    requires DistinctKeys(items) && k < |items|
    ensures DistinctKeys(Without(items, k)) && ItemSet(Without(items, k)) == ItemSet(items) - {items[k]}
  {
    var rest := Without(items, k);
    forall item | item in items && item != items[k] ensures item in rest {
      var i :| 0 <= i < |items| && items[i] == item;
      assert rest[if i < k then i else i - 1] == item;
    }
  }

  lemma RemoveOk<V>(hash: nat -> nat, chains: seq<Handles<V>>, item: Handle<V>, j: nat, items: set<Handle<V>>)
    requires chains != [] && ChainsOk(hash, chains, items) && item in items
    requires var chain := chains[Slot(hash, item.key, |chains|)]; j < |chain| && chain[j] == item
    ensures var slot := Slot(hash, item.key, |chains|);
            ChainsOk(hash, chains[slot := Without(chains[slot], j)], items - {item})
  {
    var slot := Slot(hash, item.key, |chains|);
    var after := chains[slot := Without(chains[slot], j)];
    assert ChainOk(hash, chains[slot], slot, |chains|, items);
    WithoutDistinct(chains[slot], j);
    forall k | 0 <= k < |after| ensures ChainOk(hash, after[k], k, |after|, items - {item}) {
      assert ChainOk(hash, chains[k], k, |chains|, items);
      if k == slot {
        assert ItemSet(after[k]) == ItemSet(chains[k]) - {item};
        assert forall other :: other in after[k] <==> other in ItemSet(after[k]);
        assert forall other :: other in chains[k] <==> other in ItemSet(chains[k]);
      }
    }
  }

  lemma {:induction false} NonidealStep<V>(before: seq<Bucket<V>>, slot: nat, b: Bucket<V>, ideal: nat)
    requires slot < |before| && b.count == before[slot].count + 1
    ensures Nonideal(before[slot := b], ideal) == Nonideal(before, ideal) + if b.count > ideal then 1 else 0
  {
    var after, last := before[slot := b], |before| - 1;
    if slot == last {
      assert after[..last] == before[..last];
    } else {
      assert after[..last] == before[..last][slot := b];
      NonidealStep(before[..last], slot, b, ideal);
    }
  }

  // A bucket with a longer chain than ideal may grow accordingly before the next doubling.
  ghost predicate MultsOk<V>(buckets: seq<Bucket<V>>, ideal: nat)
    requires ideal > 0
  {
    forall k :: 0 <= k < |buckets| ==>
      buckets[k].expandMult == if buckets[k].count > ideal then buckets[k].count / ideal else 0
  }

  lemma {:induction false} NoneNonideal<V>(buckets: seq<Bucket<V>>, ideal: nat)
    requires forall k :: 0 <= k < |buckets| ==> buckets[k].count == 0
    ensures Nonideal(buckets, ideal) == 0
  {
    if buckets != [] {
      NoneNonideal(buckets[..|buckets| - 1], ideal);
    }
  }

  // The buckets an addition finds: those there are, or the new ones of a new table.
  ghost function Found<V>(buckets: seq<Bucket<V>>): (r: seq<Bucket<V>>)
    ensures r != []
  {
    if buckets == [] then seq(32, k => Bucket(null, 0, 0)) else buckets
  }

  // The bucket gets as long as ten elements for each unit of its multiplier and one.
  predicate Full<V>(b: Bucket<V>)
  {
    b.count + 1 >= (b.expandMult + 1) * CAPACITY_THRESH
  }

  // The share of the items that each of n buckets holds ideally, rounded up.
  function Ideal(items: nat, n: nat): nat
    requires n > 0
  {
    items / n + if items % n != 0 then 1 else 0
  }

  // ---------- relinking ----------

  // Links an element in front of a chain.
  method LinkFront<V>(first: Handle?<V>, e: Handle<V>, ghost chain: Handles<V>)
    requires Chained(chain) && first == At(chain, 0) && e !in chain && DistinctKeys(chain)
    modifies e`hhNext, e`hhPrev, chain`hhPrev
    ensures Chained([e] + chain)
    ensures forall h :: h in chain && h != first ==> h.hhPrev == old(h.hhPrev)
  {
    ghost var more := [e] + chain;
    e.hhNext := first;
    e.hhPrev := null;
    if first != null {
      first.hhPrev := e;
    }
    forall i | 0 <= i < |more| ensures more[i].hhNext == At(more, i + 1) && more[i].hhPrev == At(more, i - 1) {
      if i > 0 {
        assert more[i] == chain[i - 1];
        assert i > 1 ==> chain[i - 1] != chain[0];
      }
    }
  }

  // The place behind i, and before it, when k is skipped.
  function After(i: int, k: int): int { if i == k - 1 then k + 1 else i + 1 }
  function Ahead(i: int, k: int): int { if i == k + 1 then k - 1 else i - 1 }

  lemma AtWithout<V>(s: Handles<V>, k: nat, i: nat)
    requires k < |s| && i < |s| && i != k
    ensures var j := if i < k then i else i - 1;
            var rest := Without(s, k);
            j < |rest| && rest[j] == s[i] && At(rest, j + 1) == At(s, After(i, k)) && At(rest, j - 1) == At(s, Ahead(i, k))
  {}

  // Links the neighbours of an element in a chain to each other.
  method Unchain<V>(e: Handle<V>, ghost chain: Handles<V>, ghost j: nat)
    requires Chained(chain) && DistinctKeys(chain) && j < |chain| && chain[j] == e
    modifies chain`hhNext, chain`hhPrev
    ensures Chained(Without(chain, j))
  {
    assert e.hhPrev == At(chain, j - 1) && e.hhNext == At(chain, j + 1);
    if e.hhPrev != null {
      e.hhPrev.hhNext := e.hhNext;
    }
    forall i {:trigger chain[i].hhNext} | 0 <= i < |chain| && i != j ensures chain[i].hhNext == At(chain, After(i, j)) {
      assert i < j - 1 ==> chain[i].key != chain[j - 1].key;
      assert i > j ==> chain[i].key != chain[j].key;
    }
    if e.hhNext != null {
      e.hhNext.hhPrev := e.hhPrev;
    }
    forall i {:trigger chain[i].hhPrev} | 0 <= i < |chain| && i != j ensures chain[i].hhPrev == At(chain, Ahead(i, j)) {
      assert i > j + 1 ==> chain[i].key != chain[j + 1].key;
    }
    ChainedWithout(chain, j);
  }

  lemma ChainedWithout<V>(s: Handles<V>, k: nat)
    requires k < |s|
    requires forall i {:trigger s[i].hhNext} :: 0 <= i < |s| && i != k ==> s[i].hhNext == At(s, After(i, k))
    requires forall i {:trigger s[i].hhPrev} :: 0 <= i < |s| && i != k ==> s[i].hhPrev == At(s, Ahead(i, k))
    ensures Chained(Without(s, k))
  {
    hide Without, At, After, Ahead;
    var rest := Without(s, k);
    assert |rest| == |s| - 1 by { LengthWithout(s, k); }
    forall j | 0 <= j < |rest| ensures rest[j].hhNext == At(rest, j + 1) && rest[j].hhPrev == At(rest, j - 1) {
      AtWithout(s, k, if j < k then j else j + 1);
    }
  }

  lemma LengthWithout<V>(s: Handles<V>, k: nat)
    requires k < |s|
    ensures |Without(s, k)| == |s| - 1
    ensures At(Without(s, k), 0) == At(s, if k == 0 then 1 else 0)
    ensures At(Without(s, k), |s| - 2) == At(s, if k == |s| - 1 then k - 1 else |s| - 1)
  {}

  // The same in the list of all elements, whose two ends are known.
  method Unlist<V>(e: Handle<V>, head: Handle?<V>, tail: Handle?<V>, ghost s: Handles<V>, ghost k: nat)
    returns (head': Handle?<V>, tail': Handle?<V>)
    requires Listed(s) && DistinctKeys(s) && k < |s| && s[k] == e && head == At(s, 0) && tail == At(s, |s| - 1)
    modifies s`next, s`prev
    ensures var rest := Without(s, k); Listed(rest) && head' == At(rest, 0) && tail' == At(rest, |rest| - 1)
  {
    hide Without;
    LengthWithout(s, k);
    assert e.prev == At(s, k - 1) && e.next == At(s, k + 1);
    head', tail' := head, tail;
    if e == tail {
      tail' := e.prev;
    }
    assert e == tail <==> k == |s| - 1;
    if e.prev != null {
      e.prev.next := e.next;
    } else {
      head' := e.next;
    }
    assert tail' == At(s, if k == |s| - 1 then k - 1 else |s| - 1) && head' == At(s, if k == 0 then 1 else 0);
    forall i {:trigger s[i].next} | 0 <= i < |s| && i != k ensures s[i].next == At(s, After(i, k)) {
      assert i < k - 1 ==> s[i].key != s[k - 1].key;
    }
    if e.next != null {
      e.next.prev := e.prev;
    }
    forall i {:trigger s[i].prev} | 0 <= i < |s| && i != k ensures s[i].prev == At(s, Ahead(i, k)) {
      assert i > k + 1 ==> s[i].key != s[k + 1].key;
    }
    ListedWithout(s, k);
  }

  lemma ListedWithout<V>(s: Handles<V>, k: nat)
    requires k < |s|
    requires forall i {:trigger s[i].next} :: 0 <= i < |s| && i != k ==> s[i].next == At(s, After(i, k))
    requires forall i {:trigger s[i].prev} :: 0 <= i < |s| && i != k ==> s[i].prev == At(s, Ahead(i, k))
    ensures Listed(Without(s, k))
  {
    hide Without, At, After, Ahead;
    var rest := Without(s, k);
    assert |rest| == |s| - 1 by { LengthWithout(s, k); }
    forall j | 0 <= j < |rest| ensures rest[j].next == At(rest, j + 1) && rest[j].prev == At(rest, j - 1) {
      AtWithout(s, k, if j < k then j else j + 1);
    }
  }

  // Links an element behind the tail.
  method LinkLast<V>(e: Handle<V>, tail: Handle<V>, ghost s: Handles<V>)
    requires Listed(s) && DistinctKeys(s) && tail == At(s, |s| - 1) && e !in s && e.next == null
    modifies tail`next, e`prev
    ensures Listed(s + [e])
  {
    ghost var more := s + [e];
    tail.next := e;
    e.prev := tail;
    forall i | 0 <= i < |more| ensures more[i].next == At(more, i + 1) && more[i].prev == At(more, i - 1) {
      if i < |s| {
        assert more[i] == s[i];
        assert i < |s| - 1 ==> s[i] != s[|s| - 1];
      }
    }
  }

  // ---------- in a bucket ----------

  lemma ChainsApart<V>(hash: nat -> nat, chains: seq<Handles<V>>, items: set<Handle<V>>, i: nat, j: nat)
    requires ChainsOk(hash, chains, items) && i < |chains| && j < |chains| && i != j
    ensures forall h :: h in chains[i] ==> h in items && h !in chains[j]
  {
    assert ChainOk(hash, chains[i], i, |chains|, items) && ChainOk(hash, chains[j], j, |chains|, items);
  }

  lemma ItsChain<V>(hash: nat -> nat, buckets: seq<Bucket<V>>, chains: seq<Handles<V>>, items: set<Handle<V>>, k: nat)
    requires Holds(hash, buckets, chains, items) && k < |buckets|
    ensures |chains| == |buckets| && buckets[k].hhHead == At(chains[k], 0) && buckets[k].count == |chains[k]|
    ensures ChainOk(hash, chains[k], k, |chains|, items) && Chained(chains[k])
  {}

  // With one chain changed in order, and the other ones left alone, the buckets are in order.
  lemma StillHolds<V>(hash: nat -> nat, buckets: seq<Bucket<V>>, chains: seq<Handles<V>>, slot: nat, b: Bucket<V>, chain: Handles<V>,
                      items: set<Handle<V>>, items': set<Handle<V>>)
    requires HeadsOk(buckets, chains) && slot < |buckets| && ChainsOk(hash, chains[slot := chain], items')
    requires forall k :: 0 <= k < |chains| && k != slot ==> Chained(chains[k])
    requires Chained(chain) && b.hhHead == At(chain, 0) && b.count == |chain|
    ensures Holds(hash, buckets[slot := b], chains[slot := chain], items')
  {
    hide Chained;
    var after := chains[slot := chain];
    forall k | 0 <= k < |after| ensures (forall h :: h in after[k] ==> h in items') && Chained(after[k]) {
      assert ChainOk(hash, after[k], k, |after|, items');
    }
  }

  // Puts a new element in front of its bucket's chain.
  method Push<V>(hash: nat -> nat, buckets: seq<Bucket<V>>, ghost chains: seq<Handles<V>>, e: Handle<V>, expandMult: nat,
                 ghost items: set<Handle<V>>)
    returns (after: seq<Bucket<V>>, ghost longer: seq<Handles<V>>)
    requires buckets != [] && Holds(hash, buckets, chains, items) && forall other :: other in items ==> other.key != e.key
    modifies e`hhNext, e`hhPrev, items`hhPrev
    ensures var slot := Slot(hash, e.key, |buckets|);
            after == buckets[slot := Bucket(e, buckets[slot].count + 1, expandMult)]
    ensures Holds(hash, after, longer, items + {e})
  {
    var slot := Slot(hash, e.key, |buckets|);
    var b := buckets[slot];
    ghost var chain := chains[slot];
    ItsChain(hash, buckets, chains, items, slot);
    PushOk(hash, chains, e, items);
    OthersApart(hash, buckets, chains, items, slot);
    hide Chained, ChainsOk;
    LinkFront(b.hhHead, e, chain);
    after, longer := buckets[slot := Bucket(e, b.count + 1, expandMult)], chains[slot := [e] + chain];
    StillHolds(hash, buckets, chains, slot, after[slot], [e] + chain, items, items + {e});
  }

  lemma OthersApart<V>(hash: nat -> nat, buckets: seq<Bucket<V>>, chains: seq<Handles<V>>, items: set<Handle<V>>, slot: nat)
    requires Holds(hash, buckets, chains, items) && slot < |buckets|
    ensures forall k :: 0 <= k < |chains| && k != slot ==> Chained(chains[k])
    ensures forall k, h :: 0 <= k < |chains| && k != slot && h in chains[k] ==> h in items && h !in chains[slot]
    ensures forall k, i :: 0 <= k < |chains| && k != slot && 0 <= i < |chains[k]| ==>
              chains[k][i] in items && chains[k][i] !in chains[slot]
  {
    hide Chained;
    forall k | 0 <= k < |chains| && k != slot ensures forall h :: h in chains[k] ==> h in items && h !in chains[slot] {
      ChainsApart(hash, chains, items, k, slot);
    }
  }

  // Takes an element out of its bucket's chain, wherever in the chain it is.
  method DeleteInBucket<V>(hash: nat -> nat, buckets: seq<Bucket<V>>, ghost chains: seq<Handles<V>>, e: Handle<V>,
                           ghost items: set<Handle<V>>)
    returns (after: seq<Bucket<V>>, ghost shorter: seq<Handles<V>>)
    requires buckets != [] && Holds(hash, buckets, chains, items) && e in items
    modifies items`hhNext, items`hhPrev
    ensures |after| == |buckets| && Holds(hash, after, shorter, items - {e})
    ensures forall k :: 0 <= k < |buckets| ==>
              after[k].expandMult == buckets[k].expandMult &&
              (if k == Slot(hash, e.key, |buckets|) then after[k].count == buckets[k].count - 1 else after[k] == buckets[k])
  {
    var slot := Slot(hash, e.key, |buckets|);
    var b := buckets[slot];
    ghost var chain := chains[slot];
    ItsChain(hash, buckets, chains, items, slot);
    ghost var j :| 0 <= j < |chain| && chain[j] == e;
    var head := b.hhHead;
    if head == e {
      head := e.hhNext;
    }
    RemoveOk(hash, chains, e, j, items);
    OthersApart(hash, buckets, chains, items, slot);
    assert head == At(Without(chain, j), 0);
    hide Chained, ChainsOk;
    Unchain(e, chain, j);
    after, shorter := buckets[slot := Bucket(head, b.count - 1, b.expandMult)], chains[slot := Without(chain, j)];
    StillHolds(hash, buckets, chains, slot, after[slot], Without(chain, j), items, items - {e});
  }

  // A key is looked for in the one chain where it can be.
  lemma ChainDecides<V>(hash: nat -> nat, chains: seq<Handles<V>>, order: Handles<V>, key: nat)
    requires ChainsOk(hash, chains, ItemSet(order)) && chains != []
    ensures var chain := chains[Slot(hash, key, |chains|)];
            (HasKey(order, key) <==> HasKey(chain, key)) && forall i :: 0 <= i < |chain| ==> chain[i] in order
  {
    var slot := Slot(hash, key, |chains|);
    assert ChainOk(hash, chains[slot], slot, |chains|, ItemSet(order));
    if HasKey(order, key) {
      var i :| 0 <= i < |order| && order[i].key == key;
      assert order[i] in ItemSet(order);
      assert order[i] in chains[slot];
    }
  }

  class Table<V(==)> {
    const hash: nat -> nat

    // the bucket array; empty when there is no table
    var buckets: seq<Bucket<V>>
    var log2: nat
    var numItems: nat
    var idealMaxlen: nat
    var nonideal: nat
    var ineffective: nat
    var noexpand: bool

    // the list of all elements
    var head: Handle?<V>
    var tail: Handle?<V>

    // the elements in the order of insertion, and those of each bucket
    ghost var order: Handles<V>
    ghost var chains: seq<Handles<V>>

    ghost predicate Valid()
      reads this`buckets, this`log2, this`numItems, this`head, this`tail, this`order, this`chains, order
    {
      && (order == [] <==> buckets == [])
      && (buckets != [] ==> log2 >= INITIAL_LOG2 && |buckets| == Pow2(log2) && numItems == |order|)
      && ListOk() && Holds(hash, buckets, chains, ItemSet(order))
    }

    // The list is linked from its head to its tail, with one element for each key.
    ghost predicate ListOk()
      reads this`order, this`head, this`tail, order`next, order`prev
    {
      && DistinctKeys(order) && (forall h :: h in order ==> h.owner == this)
      && Listed(order) && head == At(order, 0) && tail == At(order, |order| - 1)
    }

    // What a table shows of itself: its elements are its own, one for each key.
    lemma Shows()
      requires Valid()
      ensures DistinctKeys(order) && (forall i :: 0 <= i < |order| ==> order[i].owner == this) && head == At(order, 0)
    {}

    // The count that callers ask for is the number of elements.
    lemma CountIs()
      requires Valid()
      ensures Count() == |order|
    {}

    constructor (hash: nat -> nat)
      ensures Valid() && order == [] && this.hash == hash
    {
      this.hash := hash;
      buckets, chains, order, head, tail := [], [], [], null, null;
      log2, numItems, idealMaxlen, nonideal, ineffective, noexpand := 0, 0, 0, 0, 0, false;
    }

    function Count(): nat
      reads this
    {
      if head == null then 0 else numItems
    }

    // Walks along the chain of the key's bucket.
    method Find(key: nat) returns (found: Handle?<V>)
      requires Valid()
      ensures found == null <==> !HasKey(order, key)
      ensures found != null ==> found in order && found.key == key
      ensures Entry(order, key) == if found == null then None else Some(found.value)
    {
      if head == null {
        return null;
      }
      var slot := Slot(hash, key, |buckets|);
      ghost var chain, k := chains[slot], 0;
      ItsChain(hash, buckets, chains, ItemSet(order), slot);
      ChainDecides(hash, chains, order, key);
      hide Holds, Listed, ChainOk, ItemSet, DistinctKeys, Entry;
      found := buckets[slot].hhHead;
      while found != null
        invariant 0 <= k <= |chain| && found == At(chain, k)
        invariant forall j :: 0 <= j < k ==> chain[j].key != key
        decreases |chain| - k
      {
        if found.key == key {
          EntryFound(order, found);
          return;
        }
        found := found.hhNext;
        k := k + 1;
      }
      EntryMissing(order, key);
    }

    // The key must be new.
    method Add(key: nat, value: V) returns (e: Handle<V>)
      requires Valid() && !HasKey(order, key)
      modifies this, order
      ensures Valid() && fresh(e) && e.key == key && e.value == value && order == old(order) + [e]
      ensures var found := Found(old(buckets));
              var full := Full(found[Slot(hash, key, |found|)]) && !(old(buckets) != [] && old(noexpand));
              |buckets| == if full then 2 * |found| else |found|
      ensures forall k :: Entry(order, k) == if k == key then Some(value) else Entry(old(order), k)
    {
      hide Entry, Holds, Pow2, Slot, DistinctKeys, Listed, HasKey, At, Found;
      e := new Handle(key, value, this);
      AddedEntries(order, e);
      NewKey(order, e);
      ghost var items := ItemSet(order);
      Enlist(e);
      ghost var found := buckets;
      var b := buckets[Slot(hash, key, |buckets|)];
      buckets, chains := Push(hash, buckets, chains, e, b.expandMult, items);
      hide ListOk;
      if Full(b) && !noexpand {
        Expand();
      }
    }

    // Appends a new element to the list, whose first one makes the table.
    method Enlist(e: Handle<V>)
      requires Valid() && !HasKey(order, e.key) && e !in order && e.owner == this
      modifies this, order`next, e`next, e`prev
      ensures order == old(order) + [e] && ListOk()
      ensures log2 >= INITIAL_LOG2 && |buckets| == Pow2(log2) && numItems == |order|
      ensures Holds(hash, buckets, chains, ItemSet(old(order)))
      ensures buckets == Found(old(buckets)) && (noexpand <==> old(buckets) != [] && old(noexpand))
    {
      hide Holds, Pow2, Listed, Entry;
      EntryAdded(order, e, e.key);
      hide HasKey, DistinctKeys, At;
      Ends(order, e);
      e.next := null;
      if head == null {
        head := e;
        e.prev := null;
        OneListed(e);
        MakeTable();
        assert ItemSet(old(order)) == {};
      } else {
        LinkLast(e, tail, order);
        tail := e;
      }
      order := order + [e];
      numItems := numItems + 1;
    }

    // Makes the table for the first element.
    method MakeTable()
      requires order == []
      modifies this`buckets, this`chains, this`log2, this`numItems, this`idealMaxlen, this`nonideal, this`ineffective, this`noexpand, this`tail
      ensures tail == head && numItems == 0 && log2 == INITIAL_LOG2 && |buckets| == Pow2(INITIAL_LOG2)
      ensures Holds(hash, buckets, chains, {}) && !noexpand && buckets == Found([])
    {
      hide Holds;
      tail := head;
      buckets := seq(32, k => Bucket(null, 0, 0));
      chains := seq(32, k => []);
      log2, numItems, idealMaxlen, nonideal, ineffective, noexpand := INITIAL_LOG2, 0, 0, 0, 0, false;
      NewBuckets(hash, buckets, chains);
      assert Pow2(5) == 2 * Pow2(4) == 4 * Pow2(3) == 8 * Pow2(2) == 16 * Pow2(1) == 32;
    }

    // Doubles the number of buckets and moves every element to its new one. The ideal length is
    // never zero, so the division by it is defined.
    method Expand()
      requires Valid() && buckets != []
      modifies this`buckets, this`chains, this`log2, this`idealMaxlen, this`nonideal, this`ineffective, this`noexpand
      modifies order`hhNext, order`hhPrev
      ensures Valid() && |buckets| == 2 * old(|buckets|)
      ensures idealMaxlen == Ideal(numItems, |buckets|) > 0 && nonideal == Nonideal(buckets, idealMaxlen)
      ensures MultsOk(buckets, idealMaxlen)
      ensures ineffective == if nonideal > numItems / 2 then old(ineffective) + 1 else 0
      ensures noexpand <==> old(noexpand) || ineffective > 1
    {
      hide Ideal, Nonideal, MultsOk, Holds, Listed, At;
      IdealPositive(numItems, 2 * |buckets|);
      idealMaxlen := Ideal(numItems, 2 * |buckets|);
      hide Valid;
      Redistribute();
      ineffective := if nonideal > numItems / 2 then ineffective + 1 else 0;
      if ineffective > 1 {
        noexpand := true;
      }
    }

    method Redistribute()
      requires Valid() && buckets != [] && idealMaxlen > 0
      modifies this`buckets, this`chains, this`log2, this`nonideal, order`hhNext, order`hhPrev
      ensures Valid() && |buckets| == 2 * old(|buckets|)
      ensures nonideal == Nonideal(buckets, idealMaxlen) && MultsOk(buckets, idealMaxlen)
    {
      hide Nonideal, MultsOk, Holds, ItemSet, Pow2, DistinctKeys, Listed, At;
      assert DistinctKeys(order);
      hide ListOk;
      buckets, nonideal, chains := MoveAll(hash, buckets, idealMaxlen, chains, order);
      Doubled(log2);
      log2 := log2 + 1;
    }

    // Deletes an element of the table.
    method Delete(e: Handle<V>) returns (ghost k: nat)
      requires Valid() && e in order
      modifies this, order
      ensures Valid() && k < |old(order)| && old(order)[k] == e && order == Without(old(order), k)
      ensures old(head) == e ==> head == old(e.next)
      ensures if order == [] then buckets == [] else |buckets| == |old(buckets)| && noexpand == old(noexpand)
      ensures forall key :: Entry(order, key) == if key == e.key then None else Entry(old(order), key)
    {
      hide Entry, Holds, DistinctKeys, Pow2, Without;
      k :| 0 <= k < |order| && order[k] == e;
      WithoutDistinct(order, k);
      RemovedEntries(order, k);
      Alone(order, k);
      HeadDeleted(order, k);
      assert e.prev == At(order, k - 1) && e.next == At(order, k + 1);
      hide Listed, At;
      if e.prev == null && e.next == null {
        buckets, chains, order, head, tail := [], [], [], null, null;
        NothingHeld<V>(hash);
        return;
      }
      Take(e, k);
    }

    // Unlinks one of several elements.
    method Take(e: Handle<V>, ghost k: nat)
      requires Valid() && k < |order| && order[k] == e && Without(order, k) != []
      modifies this`head, this`tail, this`order, this`buckets, this`chains, this`numItems, order
      ensures Valid() && order == Without(old(order), k) && head == At(order, 0) && |buckets| == |old(buckets)|
    {
      hide Holds, DistinctKeys, Pow2, Without, Listed, At;
      ghost var items, rest := ItemSet(order), Without(order, k);
      WithoutDistinct(order, k);
      Alone(order, k);
      InSet(order, e);
      head, tail := Unlist(e, head, tail, order, k);
      assert Listed(rest);
      buckets, chains := DeleteInBucket(hash, buckets, chains, e, items);
      assert Listed(rest);
      order := rest;
      numItems := numItems - 1;
    }
  }

  lemma NewBuckets<V>(hash: nat -> nat, buckets: seq<Bucket<V>>, chains: seq<Handles<V>>)
    requires |buckets| == |chains| && forall k :: 0 <= k < |buckets| ==> buckets[k] == Bucket(null, 0, 0) && chains[k] == []
    ensures Holds(hash, buckets, chains, {})
  {}

  lemma Ends<V>(s: Handles<V>, e: Handle<V>)
    ensures At(s, 0) == null <==> s == []
    ensures if s == [] then At(s, |s| - 1) == null else At(s, |s| - 1) == s[|s| - 1]
    ensures At(s + [e], |s|) == e && At(s + [e], 0) == if s == [] then e else At(s, 0)
    ensures forall h :: h in s + [e] <==> h in s || h == e
  {}

  lemma OneListed<V>(e: Handle<V>)
    requires e.next == null && e.prev == null
    ensures Listed([] + [e])
  {}

  lemma InSet<V>(items: Handles<V>, e: Handle<V>)
    requires e in items
    ensures e in ItemSet(items)
  {}

  lemma HeadDeleted<V>(s: Handles<V>, k: nat)
    requires DistinctKeys(s) && k < |s|
    ensures At(s, 0) == s[k] ==> At(Without(s, k), 0) == At(s, k + 1)
  {
    assert k > 0 ==> s[0].key != s[k].key;
  }

  lemma NewKey<V>(items: Handles<V>, e: Handle<V>)
    requires !HasKey(items, e.key)
    ensures e !in items && forall other :: other in ItemSet(items) ==> other.key != e.key
    ensures ItemSet(items + [e]) == ItemSet(items) + {e} && items + [e] != []
  {}

  lemma Alone<V>(s: Handles<V>, k: nat)
    requires k < |s|
    ensures if At(s, k - 1) == null && At(s, k + 1) == null then Without(s, k) == [] else Without(s, k) != []
    ensures |Without(s, k)| == |s| - 1 && forall h :: h in Without(s, k) ==> h in s
  {}

  lemma NothingHeld<V>(hash: nat -> nat)
    ensures Holds<V>(hash, [], [], ItemSet([])) && Listed<V>([]) && DistinctKeys<V>([]) && At<V>([], 0) == At<V>([], -1) == null
  {}

  // ---------- doubling ----------

  // The new buckets hold the items moved so far, with their statistics.
  ghost predicate Moved<V>(hash: nat -> nat, buckets: seq<Bucket<V>>, chains: seq<Handles<V>>, done: set<Handle<V>>, ideal: nat, nonideal: nat)
    requires ideal > 0
    reads done`hhNext, done`hhPrev
  {
    buckets != [] && Holds(hash, buckets, chains, done) && MultsOk(buckets, ideal) && nonideal == Nonideal(buckets, ideal)
  }

  lemma Doubled(n: nat)
    ensures Pow2(n + 1) == 2 * Pow2(n)
  {}

  lemma IdealPositive(items: nat, n: nat)
    requires items > 0 && n > 0
    ensures Ideal(items, n) > 0
  {
    if items / n == 0 {
      assert items % n == items;
    }
  }

  method MoveItem<V>(hash: nat -> nat, buckets: seq<Bucket<V>>, ghost chains: seq<Handles<V>>, e: Handle<V>, ideal: nat, nonideal: nat,
                     ghost done: set<Handle<V>>)
    returns (after: seq<Bucket<V>>, nonideal': nat, ghost longer: seq<Handles<V>>)
    requires ideal > 0 && Moved(hash, buckets, chains, done, ideal, nonideal) && forall other :: other in done ==> other.key != e.key
    modifies e`hhNext, e`hhPrev, done`hhPrev
    ensures |after| == |buckets| && Moved(hash, after, longer, done + {e}, ideal, nonideal')
  {
    var slot := Slot(hash, e.key, |buckets|);
    var count := buckets[slot].count + 1;
    var expandMult := buckets[slot].expandMult;
    nonideal' := nonideal;
    if count > ideal {
      nonideal' := nonideal + 1;
      expandMult := count / ideal;
    }
    hide Holds, Nonideal, Slot;
    after, longer := Push(hash, buckets, chains, e, expandMult, done);
    NonidealStep(buckets, slot, Bucket(e, count, expandMult), ideal);
  }

  // Walks along an old chain.
  method MoveChain<V>(hash: nat -> nat, buckets: seq<Bucket<V>>, ghost chains: seq<Handles<V>>, first: Handle?<V>, ideal: nat, nonideal: nat,
                      ghost chain: Handles<V>, ghost done: set<Handle<V>>)
    returns (after: seq<Bucket<V>>, nonideal': nat, ghost longer: seq<Handles<V>>)
    requires ideal > 0 && Moved(hash, buckets, chains, done, ideal, nonideal)
    requires Forward(chain, 0) && first == At(chain, 0) && DistinctKeys(chain)
    requires forall item, other :: item in chain && other in done ==> other.key != item.key
    modifies chain`hhNext, chain`hhPrev, done`hhPrev
    ensures |after| == |buckets| && Moved(hash, after, longer, done + ItemSet(chain), ideal, nonideal')
  {
    hide Moved;
    after, nonideal', longer := buckets, nonideal, chains;
    ghost var moved: set<Handle<V>>, k := done, 0;
    var e := first;
    while e != null
      invariant 0 <= k <= |chain| && e == At(chain, k) && Forward(chain, k)
      invariant |after| == |buckets| && moved == done + ItemSet(chain[..k]) && Moved(hash, after, longer, moved, ideal, nonideal')
      decreases |chain| - k
    {
      var next := e.hhNext;
      forall other | other in moved ensures other.key != e.key {
        if other !in done {
          var i :| 0 <= i < k && chain[..k][i] == other;
        }
      }
      after, nonideal', longer := MoveItem(hash, after, longer, e, ideal, nonideal', moved);
      assert chain[..k + 1] == chain[..k] + [chain[k]];
      moved := moved + {e};
      e := next;
      k := k + 1;
    }
    assert chain[..|chain|] == chain;
  }

  method MoveAll<V>(hash: nat -> nat, buckets: seq<Bucket<V>>, ideal: nat, ghost chains: seq<Handles<V>>, ghost order: Handles<V>)
    returns (after: seq<Bucket<V>>, nonideal: nat, ghost longer: seq<Handles<V>>)
    requires ideal > 0 && buckets != [] && DistinctKeys(order) && Holds(hash, buckets, chains, ItemSet(order))
    modifies order`hhNext, order`hhPrev
    ensures |after| == 2 * |buckets| && Holds(hash, after, longer, ItemSet(order))
    ensures MultsOk(after, ideal) && nonideal == Nonideal(after, ideal)
  {
    after := seq(2 * |buckets|, k => Bucket(null, 0, 0));
    longer := seq(2 * |buckets|, k => []);
    nonideal := 0;
    ghost var items, done := ItemSet(order), {};
    DistinctSet(order);
    NoneNonideal(after, ideal);
    NewBuckets(hash, after, longer);
    assert Moved(hash, after, longer, done, ideal, nonideal);
    forall k | 0 <= k < |chains| ensures Forward(chains[k], 0) {
      assert Chained(chains[k]);
    }
    hide Moved, Forward;
    for i := 0 to |buckets|
      invariant |after| == 2 * |buckets| && Moved(hash, after, longer, done, ideal, nonideal)
      invariant forall item :: item in done <==> item in items && Slot(hash, item.key, |buckets|) < i
      invariant forall k :: i <= k < |chains| ==> Forward(chains[k], 0)
    {
      ghost var chain := chains[i];
      assert ChainOk(hash, chain, i, |buckets|, items);
      assert forall j :: 0 <= j < |chain| ==> chain[j] in items && chain[j] in order;
      assert forall h :: h in done ==> h in items && h in order;
      after, nonideal, longer := MoveChain(hash, after, longer, buckets[i].hhHead, ideal, nonideal, chain, done);
      forall k | i < k < |chains| ensures Forward(chains[k], 0) {
        ChainsApart(hash, chains, items, k, i);
      }
      done := done + ItemSet(chain);
    }
    assert done == items;
  }

  ghost predicate OneOfEachKey<V>(items: set<Handle<V>>)
  {
    forall a, b :: a in items && b in items && a.key == b.key ==> a == b
  }

  lemma DistinctSet<V>(items: Handles<V>)
    requires DistinctKeys(items)
    ensures OneOfEachKey(ItemSet(items))
  {}

  // ---------- the counts add up ----------

  ghost function Total<V>(buckets: seq<Bucket<V>>): nat
  {
    if buckets == [] then 0 else Total(buckets[..|buckets| - 1]) + buckets[|buckets| - 1].count
  }

  lemma {:induction false} TotalStep<V>(buckets: seq<Bucket<V>>, slot: nat, b: Bucket<V>)
    requires slot < |buckets| && buckets[slot].count == b.count + 1
    ensures Total(buckets) == Total(buckets[slot := b]) + 1
  {
    var last := |buckets| - 1;
    if slot == last {
      assert buckets[slot := b][..last] == buckets[..last];
    } else {
      assert buckets[slot := b][..last] == buckets[..last][slot := b];
      TotalStep(buckets[..last], slot, b);
    }
  }

  lemma {:induction false} TotalOfEmpty<V>(buckets: seq<Bucket<V>>)
    requires forall k :: 0 <= k < |buckets| ==> buckets[k].count == 0
    ensures Total(buckets) == 0
  {
    if buckets != [] {
      TotalOfEmpty(buckets[..|buckets| - 1]);
    }
  }

  // The bucket counts together are the number of items.
  lemma {:induction false} CountsAddUp<V>(hash: nat -> nat, buckets: seq<Bucket<V>>, chains: seq<Handles<V>>, order: Handles<V>)
    requires ChainsOk(hash, chains, ItemSet(order)) && HeadsOk(buckets, chains) && DistinctKeys(order) && buckets != []
    ensures Total(buckets) == |order|
    decreases |order|
  {
    if order == [] {
      forall k | 0 <= k < |buckets| ensures buckets[k].count == 0 {
        assert ChainOk(hash, chains[k], k, |buckets|, {});
        assert multiset(chains[k]) == multiset{};
        assert |multiset(chains[k])| == |chains[k]|;
      }
      TotalOfEmpty(buckets);
    } else {
      var last := |order| - 1;
      var item := order[last];
      assert item in ItemSet(order);
      var slot := Slot(hash, item.key, |buckets|);
      assert ChainOk(hash, chains[slot], slot, |buckets|, ItemSet(order));
      var j :| 0 <= j < |chains[slot]| && chains[slot][j] == item;
      var shorter := Without(chains[slot], j);
      var less := Bucket(At(shorter, 0), buckets[slot].count - 1, 0);
      WithoutDistinct(order, last);
      assert Without(order, last) == order[..last];
      hide ItemSet, DistinctKeys;
      RemoveOk(hash, chains, item, j, ItemSet(order));
      CountsAddUp(hash, buckets[slot := less], chains[slot := shorter], order[..last]);
      TotalStep(buckets, slot, less);
    }
  }
}
