/**
  latency_hash.c: latencies by pairs of node numbers, as a table of tables.
*/
module LatencyHash {
  import opened Basics
  import opened HashTable

  datatype Code = Ok | DupInsert | Missing

  type Inner = Table<real>

  class LatencyMap {
    const hash: nat -> nat
    const outer: Table<Inner>

    ghost function Inners(): set<Inner>
      reads this, outer
    {
      set e | e in outer.order :: e.value
    }

    // Their elements.
    ghost function InnerHandles(): set<Handle<real>>
      reads this, outer, Inners()
    {
      set inner, e | inner in Inners() && e in inner.order :: e
    }

    // Each inner table belongs to one outer key.
    ghost predicate Sound()
      reads this, outer, outer.order, Inners(), InnerHandles()
    {
      && outer.Valid() && outer.hash == hash && Unshared(outer.order)
      && forall inner :: inner in Inners() ==>
           assert forall e :: e in inner.order ==> e in InnerHandles(); inner.Valid() && inner.hash == hash
    }

    // None of them is empty.
    ghost predicate Valid()
      reads this, outer, outer.order, Inners(), InnerHandles()
    {
      Sound() && forall inner :: inner in Inners() ==> inner.order != []
    }

    constructor (hash: nat -> nat)
      ensures Valid() && fresh(outer) && outer.order == []
    {
      this.hash := hash;
      outer := new Table(hash);
    }

    // The latency of a pair, if it has one.
    ghost function Latency(k1: nat, k2: nat): Option<real>
      reads this, outer, Inners()
    {
      match Entry(outer.order, k1)
      case None => None
      case Some(inner) => if inner in Inners() then Entry(inner.order, k2) else None
    }

    method Get(k1: nat, k2: nat) returns (code: Code, latency: real)
      requires Valid()
      ensures match Latency(k1, k2) case Some(l) => code == Ok && latency == l case None => code == Missing
    {
      latency := 0.0;
      var e := outer.Find(k1);
      if e == null {
        return Missing, latency;
      }
      var found := e.value.Find(k2);
      if found == null {
        return Missing, latency;
      }
      return Ok, found.value;
    }

    // The inner table for a key, made if there is none.
    method InnerFor(k1: nat) returns (table: Inner)
      requires Valid()
      modifies outer, outer.order
      ensures Sound() && Entry(outer.order, k1) == Some(table) && forall inner :: inner in Inners() && inner != table ==> inner.order != []
      ensures Inners() == old(Inners()) + {table} && (table !in old(Inners()) ==> fresh(table))
      ensures forall a, b :: Latency(a, b) == old(Latency(a, b))
      ensures forall i :: 0 <= i < |table.order| ==> table.order[i] in old(InnerHandles())
    {
      hide Table.Valid, Entry, HasKey, Unshared;
      var e := outer.Find(k1);
      if e != null {
        HandlesOf(e.value);
        return e.value;
      }
      table := NewInner(k1);
      EntryOfNothing(table.order);
    }

    method NewInner(k1: nat) returns (table: Inner)
      requires Sound() && !HasKey(outer.order, k1)
      modifies outer, outer.order
      ensures Sound() && Inners() == old(Inners()) + {table} && fresh(table) && table.order == []
      ensures forall a :: Entry(outer.order, a) == if a == k1 then Some(table) else old(Entry(outer.order, a))
    {
      hide Table.Valid, Entry, HasKey;
      Owned();
      table := new Table(hash);
      var added := outer.Add(k1, table);
    }

    method Insert(k1: nat, k2: nat, latency: real) returns (code: Code)
      requires Valid()
      modifies outer, outer.order, Inners(), InnerHandles()
      ensures Valid() && fresh(Inners() - old(Inners()))
      ensures code == match old(Latency(k1, k2)) case Some(l) => if l != latency then DupInsert else Ok case None => Ok
      ensures forall a, b :: Latency(a, b) ==
                if a == k1 && b == k2 && old(Latency(k1, k2)) == None then Some(latency) else old(Latency(a, b))
    {
      hide Table.Valid, Entry, HasKey, Unshared, Latency;
      var table := InnerFor(k1);
      code := Put(table, k1, k2, latency);
    }

    method Put(table: Inner, k1: nat, k2: nat, latency: real) returns (code: Code)
      requires Sound() && Entry(outer.order, k1) == Some(table) && table in Inners()
      requires forall inner :: inner in Inners() && inner != table ==> inner.order != []
      modifies table, table.order
      ensures Valid() && Inners() == old(Inners())
      ensures code == match old(Latency(k1, k2)) case Some(l) => if l != latency then DupInsert else Ok case None => Ok
      ensures forall a, b :: Latency(a, b) ==
                if a == k1 && b == k2 && old(Latency(k1, k2)) == None then Some(latency) else old(Latency(a, b))
    {
      hide Table.Valid, Entry, HasKey, Unshared;
      EntryOfNothing(table.order);
      ApartFrom(k1, table);
      Owned();
      var found := table.Find(k2);
      if found == null {
        var added := table.Add(k2, latency);
      } else if found.value != latency {
        return DupInsert;
      }
      return Ok;
    }

    lemma HandlesOf(table: Inner)
      requires table in Inners()
      ensures forall i :: 0 <= i < |table.order| ==> table.order[i] in InnerHandles()
    {
      assert forall i :: 0 <= i < |table.order| ==> table.order[i] in table.order;
    }

    // Tables do not share elements.
    lemma Owned()
      requires Sound()
      ensures forall inner, i :: inner in Inners() && 0 <= i < |inner.order| ==> inner.order[i].owner == inner
      ensures forall i :: 0 <= i < |outer.order| ==> outer.order[i].owner == outer
    {
      hide Table.Valid;
      outer.Shows();
      forall inner | inner in Inners() ensures forall i :: 0 <= i < |inner.order| ==> inner.order[i].owner == inner {
        inner.Shows();
      }
    }

    // Another key's inner table is another table.
    lemma ApartFrom(k1: nat, table: Inner)
      requires Sound() && Entry(outer.order, k1) == Some(table)
      ensures forall a :: a != k1 ==> Entry(outer.order, a) != Some(table)
    {
      forall a | a != k1 ensures Entry(outer.order, a) != Some(table) {
        if Entry(outer.order, a).Some? {
          EntryHasKey(outer.order, a);
          EntryHasKey(outer.order, k1);
        }
      }
    }

    // An inner table that becomes empty is freed.
    method Remove(k1: nat, k2: nat) returns (code: Code)
      requires Valid()
      modifies outer, outer.order, Inners(), InnerHandles()
      ensures Valid() && Inners() <= old(Inners())
      ensures code == if old(Latency(k1, k2)) == None then Missing else Ok
      ensures forall a, b :: Latency(a, b) == if a == k1 && b == k2 then None else old(Latency(a, b))
    {
      hide Table.Valid, Entry, HasKey, Unshared;
      var e := outer.Find(k1);
      if e == null {
        return Missing;
      }
      var found := e.value.Find(k2);
      if found == null {
        return Missing;
      }
      HandlesOf(e.value);
      assert Latency(k1, k2) != None;
      hide Latency;
      Take(e, found);
      DropIfEmpty(e);
      return Ok;
    }

    method Take(e: Handle<Inner>, found: Handle<real>)
      requires Valid() && e in outer.order && Entry(outer.order, e.key) == Some(e.value) && found in e.value.order
      modifies e.value, e.value.order
      ensures Sound() && forall inner :: inner in Inners() && inner != e.value ==> inner.order != []
      ensures forall a, b :: Latency(a, b) == if a == e.key && b == found.key then None else old(Latency(a, b))
    {
      hide Table.Valid, Entry, HasKey, Unshared, Without;
      ApartFrom(e.key, e.value);
      Owned();
      ghost var at := e.value.Delete(found);
    }

    method DropIfEmpty(e: Handle<Inner>)
      requires Sound() && e in outer.order && Entry(outer.order, e.key) == Some(e.value)
      requires forall inner :: inner in Inners() && inner != e.value ==> inner.order != []
      modifies outer, outer.order
      ensures Valid() && Inners() <= old(Inners())
      ensures forall a, b :: Latency(a, b) == old(Latency(a, b))
    {
      hide Table.Valid, Entry, Unshared, Without;
      EntryOfNothing(e.value.order);
      EntryHasKey(outer.order, e.key);
      e.value.CountIs();
      if e.value.Count() == 0 {
        ghost var was := outer.order;
        ghost var place := outer.Delete(e);
        UnsharedWithout(was, place);
      }
    }

    // The next element is known before its predecessor goes.
    method Clear()
      requires Valid()
      modifies outer, outer.order, Inners(), InnerHandles()
      ensures Valid() && outer.order == []
    {
      hide Table.Valid, Unshared, Without;
      var e := outer.head;
      HeadOf(outer);
      while e != null
        invariant Valid() && Inners() <= old(Inners()) && InnerHandles() <= old(InnerHandles())
        invariant e == outer.head && (e == null <==> outer.order == [])
        invariant forall i :: 0 <= i < |outer.order| ==> outer.order[i] in old(outer.order)
        decreases |outer.order|
      {
        var next := e.next;
        HeadOf(outer);
        HandlesOf(e.value);
        ClearFirst(e);
        HeadOf(outer);
        e := next;
      }
    }

    lemma HeadOf<V>(table: Table<V>)
      requires table.Valid()
      ensures table.head == null <==> table.order == []
      ensures table.head != null ==> table.head in table.order
    {}

    // Frees the elements of the first inner table, and then the table.
    method ClearFirst(e: Handle<Inner>)
      requires Valid() && e in outer.order && outer.head == e
      modifies outer, outer.order, e.value, e.value.order
      ensures Valid() && Inners() <= old(Inners()) && outer.head == old(e.next) && |outer.order| < |old(outer.order)|
      ensures InnerHandles() <= old(InnerHandles())
      ensures forall i :: 0 <= i < |outer.order| ==> outer.order[i] in old(outer.order)
    {
      hide Table.Valid, Unshared, Without, Entry;
      Owned();
      ClearInner(e.value);
      ghost var was := outer.order;
      ghost var place := outer.Delete(e);
      UnsharedWithout(was, place);
    }

    method ClearInner(table: Inner)
      requires table.Valid()
      modifies table, table.order
      ensures table.Valid() && table.order == []
    {
      var e := table.head;
      while e != null
        invariant table.Valid() && e == table.head
        invariant forall i :: 0 <= i < |table.order| ==> table.order[i] in old(table.order)
        decreases |table.order|
      {
        var next := e.next;
        ghost var at := table.Delete(e);
        e := next;
      }
    }
  }

  ghost predicate Unshared(items: Handles<Inner>)
  {
    forall i, j :: 0 <= i < j < |items| ==> items[i].value != items[j].value
  }

  lemma UnsharedWithout(items: Handles<Inner>, k: nat)
    requires Unshared(items) && k < |items|
    ensures Unshared(Without(items, k)) && |Without(items, k)| == |items| - 1
    ensures forall e :: e in Without(items, k) <==> e in items && e.value != items[k].value
  {
    var rest := Without(items, k);
    forall e | e in items && e.value != items[k].value ensures e in rest {
      var i :| 0 <= i < |items| && items[i] == e;
      assert rest[if i < k then i else i - 1] == e;
    }
  }

  lemma EntryOfNothing<V>(items: Handles<V>)
    ensures items == [] ==> forall key :: Entry(items, key) == None
  {}

  lemma EntryHasKey<V>(items: Handles<V>, key: nat)
    requires Entry(items, key).Some?
    ensures HasKey(items, key) && exists i :: 0 <= i < |items| && items[i].key == key && items[i].value == Entry(items, key).value
  {}
}
