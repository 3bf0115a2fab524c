/**
  The state of one simulated client of pathsim.py as a value: its guards, the circuits in its clean
  and dirty deques, and the cover counters of the port needs. The client invariant and the effect
  of each step are defined here, and the invariant is proved to survive them.
*/
module ClientSpec {
  import opened Basics
  import opened Network

  // ---------- constants of TorOptions ----------

  const GUARD_DOWN_TIME := 30 * 24 * 60 * 60
  const MAX_CIRCUIT_DIRTINESS := 10 * 60
  const CIRCUIT_IDLE_TIMEOUT := 60 * 60
  const MAX_UNUSED_OPEN_CIRCUITS := 14
  const PORT_NEED_LIFETIME := 60 * 60
  const PORT_NEED_COVER_NUM := 2
  const MAX_POPULATE_ATTEMPTS := 32
  const LONG_LIVED_PORTS: set<nat> := {21, 22, 706, 1863, 5050, 5190, 5222, 5223, 6523, 6667, 6697, 8300}
  const HOUR := 60 * 60

  // The part of TorOptions that the command line sets.
  datatype Options = Options(numGuards: nat, minNumGuards: nat, guardExpirationMin: nat, guardExpirationMax: nat) {
    predicate Valid() { numGuards >= 1 && minNumGuards >= 1 && guardExpirationMin <= guardExpirationMax }
  }

  // ---------- data ----------

  datatype GuardState = GuardState(expires: int, badSince: Option<int>, unreachableSince: Option<int>,
                                   lastAttempted: int, madeContact: bool)

  // A circuit is a dictionary in the source. Its id stands for object identity, which equality of
  // dictionaries ignores. The two pings are only used by the congestion-aware variant.
  datatype Circuit = Circuit(id: nat, time: int, fast: bool, stable: bool, internal: bool, dirtyTime: Option<int>,
                             guard: Fp, middle: Fp, exit: Fp, covering: set<nat>,
                             initialPing: real, avgPing: Option<real>)

  datatype Need = Need(expires: Option<int>, fast: bool, stable: bool, coverNum: nat)

  type Guards = map<Fp, GuardState>
  type Needs = map<nat, Need>

  datatype ClientState = ClientState(guards: Guards, covered: map<nat, int>,
                                     clean: seq<Circuit>, dirty: seq<Circuit>, nextId: nat)

  datatype Stream = Connect(time: int, ip: Ip, port: nat) | Resolve(time: int)

  // ---------- filtering a deque ----------

  ghost function Keep(circs: seq<Circuit>, ok: Circuit -> bool): (r: seq<Circuit>)
    ensures |r| <= |circs|
  {
    if circs == [] then []
    else
      var last := circs[|circs| - 1];
      Keep(circs[..|circs| - 1], ok) + (if ok(last) then [last] else [])
  }

  ghost function Drop(circs: seq<Circuit>, ok: Circuit -> bool): seq<Circuit>
  {
    Keep(circs, c => !ok(c))
  }

  lemma KeepStep(circs: seq<Circuit>, ok: Circuit -> bool, k: nat)
    requires k < |circs|
    ensures Keep(circs[..k + 1], ok) == Keep(circs[..k], ok) + (if ok(circs[k]) then [circs[k]] else [])
  {
    assert circs[..k + 1][..k] == circs[..k];
  }

  lemma DropStep(circs: seq<Circuit>, ok: Circuit -> bool, k: nat)
    requires k < |circs|
    ensures Drop(circs[..k + 1], ok) == if ok(circs[k]) then Drop(circs[..k], ok) else Drop(circs[..k], ok) + [circs[k]]
  {
    KeepStep(circs, c => !ok(c), k);
  }

  lemma {:induction false} KeepMembers(circs: seq<Circuit>, ok: Circuit -> bool, c: Circuit)
    ensures c in Keep(circs, ok) <==> c in circs && ok(c)
  {
    if circs != [] {
      var front := circs[..|circs| - 1];
      KeepMembers(front, ok, c);
      assert circs == front + [circs[|circs| - 1]];
    }
  }

  // Every pair of kept circuits stood in the same order before.
  lemma {:induction false} KeepOrder(circs: seq<Circuit>, ok: Circuit -> bool, i: nat, j: nat)
    requires i < j < |Keep(circs, ok)|
    ensures exists a, b :: 0 <= a < b < |circs| && circs[a] == Keep(circs, ok)[i] && circs[b] == Keep(circs, ok)[j]
  {
    var n := |circs| - 1;
    var front := circs[..n];
    if j < |Keep(front, ok)| {
      KeepOrder(front, ok, i, j);
      var a, b :| 0 <= a < b < |front| && front[a] == Keep(front, ok)[i] && front[b] == Keep(front, ok)[j];
      assert circs[a] == Keep(circs, ok)[i] && circs[b] == Keep(circs, ok)[j];
    } else {
      KeepMembers(front, ok, Keep(front, ok)[i]);
      var a :| 0 <= a < |front| && front[a] == Keep(front, ok)[i];
      assert circs[a] == Keep(circs, ok)[i] && circs[n] == Keep(circs, ok)[j];
    }
  }

  // Dropping the tail of a deque is filtering when the test separates them.
  lemma {:induction false} KeepPrefix(circs: seq<Circuit>, ok: Circuit -> bool, k: nat)
    requires k <= |circs|
    requires forall i :: 0 <= i < k ==> ok(circs[i])
    requires forall i :: k <= i < |circs| ==> !ok(circs[i])
    ensures Keep(circs, ok) == circs[..k]
  {
    if circs != [] {
      var front := circs[..|circs| - 1];
      if k == |circs| {
        KeepPrefix(front, ok, k - 1);
        assert circs[..k] == front[..k - 1] + [circs[k - 1]];
      } else {
        KeepPrefix(front, ok, k);
        assert circs[..k] == front[..k];
      }
    }
  }

  lemma KeepNone(ok: Circuit -> bool)
    ensures Keep([], ok) == [] && Drop([], ok) == []
  {}

  lemma {:induction false} DropSuffix(circs: seq<Circuit>, ok: Circuit -> bool, k: nat)
    requires k <= |circs|
    requires forall i :: 0 <= i < k ==> ok(circs[i])
    requires forall i :: k <= i < |circs| ==> !ok(circs[i])
    ensures Drop(circs, ok) == circs[k..]
  {
    if circs != [] {
      var front := circs[..|circs| - 1];
      if k == |circs| {
        DropSuffix(front, ok, k - 1);
      } else {
        DropSuffix(front, ok, k);
        assert circs[k..] == front[k..] + [circs[|circs| - 1]];
      }
    }
  }

  // ---------- cover counts ----------

  // How many circuits indicate that they cover the port.
  ghost function CoverCount(circs: seq<Circuit>, port: nat): nat
  {
    if circs == [] then 0
    else CoverCount(circs[..|circs| - 1], port) + (if port in circs[|circs| - 1].covering then 1 else 0)
  }

  lemma {:induction false} CoverCountConcat(xs: seq<Circuit>, ys: seq<Circuit>, port: nat)
    ensures CoverCount(xs + ys, port) == CoverCount(xs, port) + CoverCount(ys, port)
  {
    if ys == [] {
      assert xs + ys == xs;
    } else {
      assert (xs + ys)[..|xs + ys| - 1] == xs + ys[..|ys| - 1];
      CoverCountConcat(xs, ys[..|ys| - 1], port);
    }
  }

  lemma {:induction false} CoverCountSplit(circs: seq<Circuit>, ok: Circuit -> bool, port: nat)
    ensures CoverCount(circs, port) == CoverCount(Keep(circs, ok), port) + CoverCount(Drop(circs, ok), port)
  {
    if circs != [] {
      var front, last := circs[..|circs| - 1], circs[|circs| - 1];
      CoverCountSplit(front, ok, port);
      CoverCountConcat(Keep(front, ok), if ok(last) then [last] else [], port);
      CoverCountConcat(Drop(front, ok), if ok(last) then [] else [last], port);
      CoverCountOne(last, port);
    }
  }

  lemma CoverCountOne(c: Circuit, port: nat)
    ensures CoverCount([c], port) == (if port in c.covering then 1 else 0)
  {
    assert [c][..0] == [];
  }

  // ---------- the client invariant ----------

  // The counters are kept for exactly the current port needs, each equals the number of clean
  // circuits that cover its port, and no clean circuit covers anything else.
  ghost predicate CoversOk(covered: map<nat, int>, clean: seq<Circuit>, needs: set<nat>)
  {
    && covered.Keys == needs
    && (forall c :: c in clean ==> c.covering <= needs)
    && (forall p :: p in covered ==> covered[p] == CoverCount(clean, p))
  }

  // Newest on the left, never used, and at most the permitted number of them.
  ghost predicate CleanOk(clean: seq<Circuit>, now: int)
  {
    && |clean| <= MAX_UNUSED_OPEN_CIRCUITS
    && (forall c :: c in clean ==> c.dirtyTime == None && c.time <= now)
    && (forall i, j :: 0 <= i < j < |clean| ==> clean[i].time >= clean[j].time)
  }

  // Most recently used first, or rather: most recently put into use.
  ghost predicate DirtyOk(dirty: seq<Circuit>, now: int)
  {
    && (forall c :: c in dirty ==> c.dirtyTime.Some? && c.dirtyTime.value <= now)
    && (forall i, j :: 0 <= i < j < |dirty| ==> dirty[i].dirtyTime.value >= dirty[j].dirtyTime.value)
  }

  // No object sits in a deque twice, or in both.
  ghost predicate IdsOk(s: ClientState)
  {
    && (forall c :: c in s.clean + s.dirty ==> c.id < s.nextId)
    && (forall i, j :: 0 <= i < j < |s.clean + s.dirty| ==> (s.clean + s.dirty)[i].id != (s.clean + s.dirty)[j].id)
  }

  // Only a contacted guard is ever unreachable, and it was tried when it became so.
  ghost predicate GuardOk(g: GuardState, now: int)
  {
    g.unreachableSince.Some? ==> g.madeContact && g.unreachableSince.value <= g.lastAttempted <= now
  }

  predicate GuardUp(g: Fp, stats: RelStats)
  {
    g in stats && Running in stats[g].flags && Guard in stats[g].flags
  }

  // A guard is marked bad exactly while the consensus does not list it as a running guard, and
  // its descriptor has been seen.
  ghost predicate GuardsOk(guards: Guards, stats: RelStats, descs: Descriptors, now: int)
  {
    forall g :: g in guards ==>
      g in descs && GuardOk(guards[g], now) && (guards[g].badSince == None <==> GuardUp(g, stats))
  }

  // What is known of guards whatever the consensus.
  ghost predicate RecordsOk(guards: Guards, descs: Descriptors, now: int)
  {
    forall g :: g in guards ==> g in descs && GuardOk(guards[g], now)
  }

  lemma GuardsOkMember(guards: Guards, fp: Fp, stats: RelStats, descs: Descriptors, now: int)
    requires GuardsOk(guards, stats, descs, now) && fp in guards
    ensures fp in descs && GuardOk(guards[fp], now) && (guards[fp].badSince == None <==> GuardUp(fp, stats))
  {}

  lemma GuardsOkUpdate(guards: Guards, fp: Fp, g: GuardState, stats: RelStats, descs: Descriptors, now: int)
    requires GuardsOk(guards, stats, descs, now) && fp in guards
    requires GuardOk(g, now) && g.badSince == guards[fp].badSince
    ensures GuardsOk(guards[fp := g], stats, descs, now)
  {}

  lemma GuardsOkAdd(guards: Guards, fp: Fp, g: GuardState, stats: RelStats, descs: Descriptors, now: int)
    requires GuardsOk(guards, stats, descs, now) && fp in descs && GuardUp(fp, stats)
    requires g.unreachableSince == None && g.badSince == None
    ensures GuardsOk(guards[fp := g], stats, descs, now)
  {}

  lemma GuardsInDescs(guards: Guards, stats: RelStats, descs: Descriptors, now: int)
    requires GuardsOk(guards, stats, descs, now)
    ensures guards.Keys <= descs.Keys
  {}

  lemma GuardsOkRemove(guards: Guards, fp: Fp, stats: RelStats, descs: Descriptors, now: int)
    requires GuardsOk(guards, stats, descs, now)
    ensures GuardsOk(guards - {fp}, stats, descs, now)
  {}

  ghost predicate RelayLive(r: Fp, stats: RelStats, hib: map<Fp, bool>)
  {
    r in stats && Running in stats[r].flags && r in hib
  }

  ghost predicate PathLive(c: Circuit, stats: RelStats, hib: map<Fp, bool>)
  {
    RelayLive(c.guard, stats, hib) && RelayLive(c.middle, stats, hib) && RelayLive(c.exit, stats, hib)
  }

  ghost predicate PathsLive(s: ClientState, stats: RelStats, hib: map<Fp, bool>)
  {
    forall c :: c in s.clean + s.dirty ==> PathLive(c, stats, hib)
  }

  // Everything about the deques and counters that holds between any two steps.
  ghost predicate DequesOk(s: ClientState, needs: set<nat>, now: int)
  {
    CoversOk(s.covered, s.clean, needs) && CleanOk(s.clean, now) && DirtyOk(s.dirty, now) && IdsOk(s)
  }

  // Time may pass.
  lemma DequesLater(s: ClientState, needs: set<nat>, now: int, later: int)
    requires DequesOk(s, needs, now) && now <= later
    ensures DequesOk(s, needs, later)
  {}

  // ---------- removing circuits ----------

  // Cover counts once the given clean circuits are gone.
  ghost function Uncovered(covered: map<nat, int>, gone: seq<Circuit>): map<nat, int>
  {
    map p | p in covered :: covered[p] - CoverCount(gone, p)
  }

  lemma UncoveredNone(covered: map<nat, int>)
    ensures Uncovered(covered, []) == covered
  {}

  lemma UncoveredKeys(covered: map<nat, int>, gone: seq<Circuit>)
    ensures Uncovered(covered, gone).Keys == covered.Keys
  {}

  lemma UncoveredMore(covered: map<nat, int>, gone: seq<Circuit>, c: Circuit)
    ensures Uncovered(Uncovered(covered, gone), [c]) == Uncovered(covered, gone + [c])
  {
    forall p | p in covered ensures CoverCount(gone + [c], p) == CoverCount(gone, p) + CoverCount([c], p) {
      CoverCountConcat(gone, [c], p);
    }
  }

  lemma UncoveredOneFirst(covered: map<nat, int>, c: Circuit, gone: seq<Circuit>)
    ensures Uncovered(Uncovered(covered, gone), [c]) == Uncovered(covered, [c] + gone)
  {
    forall p | p in covered ensures CoverCount([c] + gone, p) == CoverCount(gone, p) + CoverCount([c], p) {
      CoverCountConcat([c], gone, p);
    }
  }

  ghost function KeepClean(s: ClientState, ok: Circuit -> bool): ClientState
  {
    s.(clean := Keep(s.clean, ok), covered := Uncovered(s.covered, Drop(s.clean, ok)))
  }

  ghost function KeepDirty(s: ClientState, ok: Circuit -> bool): ClientState
  {
    s.(dirty := Keep(s.dirty, ok))
  }

  lemma KeepCleanOk(s: ClientState, ok: Circuit -> bool, needs: set<nat>, now: int)
    requires DequesOk(s, needs, now)
    ensures DequesOk(KeepClean(s, ok), needs, now)
  {
    var s' := KeepClean(s, ok);
    forall c ensures c in s'.clean <==> c in s.clean && ok(c) {
      KeepMembers(s.clean, ok, c);
    }
    forall p | p in s'.covered ensures s'.covered[p] == CoverCount(s'.clean, p) {
      CoverCountSplit(s.clean, ok, p);
    }
    forall i, j | 0 <= i < j < |s'.clean| ensures s'.clean[i].time >= s'.clean[j].time {
      KeepOrder(s.clean, ok, i, j);
    }
    KeepIds(s.clean, s.dirty, ok, s.nextId);
    assert IdsOk(s');
  }

  lemma KeepDirtyOk(s: ClientState, ok: Circuit -> bool, needs: set<nat>, now: int)
    requires DequesOk(s, needs, now)
    ensures DequesOk(KeepDirty(s, ok), needs, now)
  {
    var s' := KeepDirty(s, ok);
    forall c ensures c in s'.dirty <==> c in s.dirty && ok(c) {
      KeepMembers(s.dirty, ok, c);
    }
    forall i, j | 0 <= i < j < |s'.dirty| ensures s'.dirty[i].dirtyTime.value >= s'.dirty[j].dirtyTime.value {
      KeepOrder(s.dirty, ok, i, j);
    }
    IdsSwap(s.clean, s.dirty);
    KeepIds(s.dirty, s.clean, ok, s.nextId);
    IdsSwap(s'.dirty, s.clean);
  }

  ghost predicate DistinctIds(circs: seq<Circuit>)
  {
    forall i, j :: 0 <= i < j < |circs| ==> circs[i].id != circs[j].id
  }

  lemma IdsSwap(xs: seq<Circuit>, ys: seq<Circuit>)
    requires DistinctIds(xs + ys)
    ensures DistinctIds(ys + xs)
  {
    var zs, ws := xs + ys, ys + xs;
    forall i, j | 0 <= i < j < |ws| ensures ws[i].id != ws[j].id {
      var a := if i < |ys| then |xs| + i else i - |ys|;
      var b := if j < |ys| then |xs| + j else j - |ys|;
      assert ws[i] == zs[a] && ws[j] == zs[b];
    }
  }

  lemma KeepIds(xs: seq<Circuit>, ys: seq<Circuit>, ok: Circuit -> bool, bound: nat)
    requires DistinctIds(xs + ys) && forall c :: c in xs + ys ==> c.id < bound
    ensures DistinctIds(Keep(xs, ok) + ys) && forall c :: c in Keep(xs, ok) + ys ==> c.id < bound
  {
    var ks := Keep(xs, ok);
    forall c | c in ks ensures c in xs {
      KeepMembers(xs, ok, c);
    }
    forall i, j | 0 <= i < j < |ks + ys| ensures (ks + ys)[i].id != (ks + ys)[j].id {
      if j < |ks| {
        KeepOrder(xs, ok, i, j);
        var a, b :| 0 <= a < b < |xs| && xs[a] == ks[i] && xs[b] == ks[j];
        assert (xs + ys)[a].id != (xs + ys)[b].id;
      } else if i < |ks| {
        KeepMembers(xs, ok, ks[i]);
        var a :| 0 <= a < |xs| && xs[a] == ks[i];
        assert (xs + ys)[a].id != (xs + ys)[j - |ks| + |xs|].id;
      } else {
        assert (xs + ys)[i - |ks| + |xs|].id != (xs + ys)[j - |ks| + |xs|].id;
      }
    }
  }

  // ---------- adding and moving circuits ----------

  // One more clean circuit, on the left, covering the ports it says.
  ghost function AddClean(s: ClientState, c: Circuit): ClientState
  {
    s.(clean := [c] + s.clean, nextId := s.nextId + 1,
       covered := map p | p in s.covered :: s.covered[p] + (if p in c.covering then 1 else 0))
  }

  // The counters as the source counts them: first for the need a circuit was made for ...
  lemma AddCleanStart(s: ClientState, c: Circuit, port: nat)
    requires port in s.covered
    ensures AddClean(s, c.(covering := {port})) ==
            s.(clean := [c.(covering := {port})] + s.clean, nextId := s.nextId + 1,
               covered := s.covered[port := s.covered[port] + 1])
  {}

  // ... then for one more at a time.
  lemma AddCleanPort(s: ClientState, c: Circuit, port: nat)
    requires port in s.covered && port !in c.covering
    ensures var t := AddClean(s, c);
            && |t.clean| > 0 && t.clean[0] == c && port in t.covered
            && AddClean(s, c.(covering := c.covering + {port})) ==
                 t.(clean := t.clean[0 := c.(covering := c.covering + {port})], covered := t.covered[port := t.covered[port] + 1])
  {}

  lemma AddCleanOk(s: ClientState, c: Circuit, needs: set<nat>, now: int)
    requires DequesOk(s, needs, now) && |s.clean| < MAX_UNUSED_OPEN_CIRCUITS
    requires c.id == s.nextId && c.time == now && c.dirtyTime == None && c.covering <= needs
    ensures DequesOk(AddClean(s, c), needs, now)
  {
    var s' := AddClean(s, c);
    forall p | p in s'.covered ensures s'.covered[p] == CoverCount(s'.clean, p) {
      CoverCountConcat([c], s.clean, p);
      CoverCountOne(c, p);
    }
    assert s'.clean + s'.dirty == [c] + (s.clean + s.dirty);
  }

  // A circuit put straight into use.
  ghost function AddDirty(s: ClientState, c: Circuit): ClientState
  {
    s.(dirty := [c] + s.dirty, nextId := s.nextId + 1)
  }

  lemma AddDirtyOk(s: ClientState, c: Circuit, needs: set<nat>, now: int)
    requires DequesOk(s, needs, now) && c.id == s.nextId && c.dirtyTime == Some(now)
    ensures DequesOk(AddDirty(s, c), needs, now)
  {
    var s' := AddDirty(s, c);
    IdsSwap(s.clean, s.dirty);
    assert s'.dirty + s'.clean == [c] + (s.dirty + s.clean);
    forall d | d in s'.clean + s'.dirty ensures d.id < s'.nextId {
      if d != c {
        assert d in s.clean + s.dirty;
      }
    }
    forall d | d in s.dirty + s.clean ensures d.id != c.id {
      assert d in s.clean + s.dirty;
    }
    IdsSwap(s'.dirty, s'.clean);
  }

  // Clean circuit k becomes the newest dirty one, and no longer counts as cover.
  ghost function UseClean(s: ClientState, k: nat, t: int): ClientState
    requires k < |s.clean|
  {
    s.(clean := s.clean[..k] + s.clean[k + 1..],
       dirty := [s.clean[k].(dirtyTime := Some(t))] + s.dirty,
       covered := Uncovered(s.covered, [s.clean[k]]))
  }

  lemma UseCleanParts(s: ClientState, k: nat, t: int, s': ClientState)
    requires k < |s.clean| && s'.guards == s.guards && s'.nextId == s.nextId
    requires s'.clean == s.clean[..k] + s.clean[k + 1..] && s'.dirty == [s.clean[k].(dirtyTime := Some(t))] + s.dirty
    requires s'.covered == Uncovered(s.covered, [s.clean[k]])
    ensures s' == UseClean(s, k, t)
  {}

  lemma UseCleanOk(s: ClientState, k: nat, needs: set<nat>, now: int)
    requires DequesOk(s, needs, now) && k < |s.clean|
    ensures DequesOk(UseClean(s, k, now), needs, now)
  {
    var s' := UseClean(s, k, now);
    UseCleanCovers(s, k, needs, now);
    UseCleanIds(s, k, now);
    assert forall c :: c in s'.clean ==> c in s.clean;
  }

  lemma UseCleanCovers(s: ClientState, k: nat, needs: set<nat>, now: int)
    requires CoversOk(s.covered, s.clean, needs) && k < |s.clean|
    ensures CoversOk(UseClean(s, k, now).covered, UseClean(s, k, now).clean, needs)
  {
    var s' := UseClean(s, k, now);
    forall p | p in s'.covered ensures s'.covered[p] == CoverCount(s'.clean, p) {
      CoverCountRemove(s.clean, k, p);
    }
    forall c | c in s'.clean ensures c in s.clean {
    }
  }

  lemma CoverCountRemove(circs: seq<Circuit>, k: nat, port: nat)
    requires k < |circs|
    ensures CoverCount(circs, port) == CoverCount(circs[..k] + circs[k + 1..], port) + CoverCount([circs[k]], port)
  {
    CoverCountConcat(circs[..k], circs[k + 1..], port);
    CoverCountConcat(circs[..k] + [circs[k]], circs[k + 1..], port);
    CoverCountConcat(circs[..k], [circs[k]], port);
    assert circs == circs[..k] + [circs[k]] + circs[k + 1..];
  }

  lemma UseCleanIds(s: ClientState, k: nat, now: int)
    requires IdsOk(s) && k < |s.clean|
    ensures IdsOk(UseClean(s, k, now))
  {
    var s' := UseClean(s, k, now);
    var zs, ws, n := s.clean + s.dirty, s'.clean + s'.dirty, |s.clean|;
    forall i | 0 <= i < |ws| ensures ws[i].id == zs[if i < k then i else if i < n - 1 then i + 1 else if i == n - 1 then k else i].id {
    }
    forall i, j | 0 <= i < j < |ws| ensures ws[i].id != ws[j].id {
      var a := if i < k then i else if i < n - 1 then i + 1 else if i == n - 1 then k else i;
      var b := if j < k then j else if j < n - 1 then j + 1 else if j == n - 1 then k else j;
      assert a != b && ws[i].id == zs[a].id && ws[j].id == zs[b].id;
    }
    forall c | c in ws ensures c.id < s.nextId {
      var i :| 0 <= i < |ws| && ws[i] == c;
    }
  }

  // The congestion-aware variant stores a measured ping with the circuit in use.
  ghost function SetPing(s: ClientState, k: nat, ping: real): ClientState
    requires k < |s.dirty|
  {
    s.(dirty := s.dirty[k := s.dirty[k].(avgPing := Some(ping))])
  }

  lemma SetPingOk(s: ClientState, k: nat, ping: real, needs: set<nat>, now: int)
    requires DequesOk(s, needs, now) && k < |s.dirty|
    ensures DequesOk(SetPing(s, k, ping), needs, now)
  {
    var s' := SetPing(s, k, ping);
    var zs, ws := s.clean + s.dirty, s'.clean + s'.dirty;
    assert forall i :: 0 <= i < |ws| ==> ws[i].id == zs[i].id;
    assert forall c :: c in s'.dirty ==> c in s.dirty || c == s'.dirty[k];
  }

  // ---------- port needs come and go ----------

  ghost function WithPort(circs: seq<Circuit>, port: nat, covers: Circuit -> bool): (r: seq<Circuit>)
    ensures |r| == |circs|
  {
    seq(|circs|, i requires 0 <= i < |circs| =>
      if covers(circs[i]) then circs[i].(covering := circs[i].covering + {port}) else circs[i])
  }

  ghost function WithoutPort(circs: seq<Circuit>, port: nat): (r: seq<Circuit>)
    ensures |r| == |circs|
  {
    seq(|circs|, i requires 0 <= i < |circs| => circs[i].(covering := circs[i].covering - {port}))
  }

  // A new need starts out covered by the clean circuits that happen to suit it.
  ghost function AddNeed(s: ClientState, port: nat, covers: Circuit -> bool): ClientState
  {
    s.(clean := WithPort(s.clean, port, covers), covered := s.covered[port := |Keep(s.clean, covers)|])
  }

  ghost function RemoveNeed(s: ClientState, port: nat): ClientState
  {
    s.(clean := WithoutPort(s.clean, port), covered := s.covered - {port})
  }

  lemma {:induction false} WithPortCount(circs: seq<Circuit>, port: nat, covers: Circuit -> bool, p: nat)
    requires forall c :: c in circs ==> port !in c.covering
    ensures CoverCount(WithPort(circs, port, covers), p) ==
            if p == port then |Keep(circs, covers)| else CoverCount(circs, p)
  {
    if circs != [] {
      var front := circs[..|circs| - 1];
      assert WithPort(circs, port, covers)[..|circs| - 1] == WithPort(front, port, covers);
      WithPortCount(front, port, covers, p);
      assert circs[|circs| - 1] in circs;
    }
  }

  lemma {:induction false} WithoutPortCount(circs: seq<Circuit>, port: nat, p: nat)
    ensures CoverCount(WithoutPort(circs, port), p) == if p == port then 0 else CoverCount(circs, p)
  {
    if circs != [] {
      var front := circs[..|circs| - 1];
      assert WithoutPort(circs, port)[..|circs| - 1] == WithoutPort(front, port);
      WithoutPortCount(front, port, p);
    }
  }

  // Changing what clean circuits cover disturbs nothing but the counters.
  lemma RecoverOk(s: ClientState, clean: seq<Circuit>, covered: map<nat, int>, needs: set<nat>, now: int)
    requires CleanOk(s.clean, now) && DirtyOk(s.dirty, now) && IdsOk(s) && CoversOk(covered, clean, needs)
    requires |clean| == |s.clean|
    requires forall i :: 0 <= i < |clean| ==> clean[i] == s.clean[i].(covering := clean[i].covering)
    ensures DequesOk(s.(clean := clean, covered := covered), needs, now)
  {
    var s' := s.(clean := clean, covered := covered);
    var zs, ws := s.clean + s.dirty, s'.clean + s'.dirty;
    assert forall i :: 0 <= i < |ws| ==> ws[i].id == zs[i].id;
    forall c | c in clean ensures c.dirtyTime == None && c.time <= now {
      var i :| 0 <= i < |clean| && clean[i] == c;
      assert s.clean[i] in s.clean;
    }
    forall c | c in ws ensures c.id < s.nextId {
      var i :| 0 <= i < |ws| && ws[i] == c;
      assert zs[i] in zs;
    }
  }

  lemma AddNeedOk(s: ClientState, port: nat, covers: Circuit -> bool, needs: set<nat>, now: int)
    requires DequesOk(s, needs, now) && port !in needs
    ensures DequesOk(AddNeed(s, port, covers), needs + {port}, now)
  {
    var s' := AddNeed(s, port, covers);
    AddNeedCovers(s, port, covers, needs);
    hide CoversOk, CleanOk, DirtyOk, IdsOk;
    RecoverOk(s, s'.clean, s'.covered, needs + {port}, now);
  }

  lemma AddNeedCovers(s: ClientState, port: nat, covers: Circuit -> bool, needs: set<nat>)
    requires CoversOk(s.covered, s.clean, needs) && port !in needs
    ensures CoversOk(AddNeed(s, port, covers).covered, AddNeed(s, port, covers).clean, needs + {port})
  {
    var s' := AddNeed(s, port, covers);
    forall p | p in s'.covered ensures s'.covered[p] == CoverCount(s'.clean, p) {
      WithPortCount(s.clean, port, covers, p);
    }
    forall c | c in s'.clean ensures c.covering <= needs + {port} {
      var i :| 0 <= i < |s'.clean| && s'.clean[i] == c;
      assert s.clean[i] in s.clean;
    }
  }

  lemma RemoveNeedOk(s: ClientState, port: nat, needs: set<nat>, now: int)
    requires DequesOk(s, needs, now)
    ensures DequesOk(RemoveNeed(s, port), needs - {port}, now)
  {
    var s' := RemoveNeed(s, port);
    forall p | p in s'.covered ensures s'.covered[p] == CoverCount(s'.clean, p) {
      WithoutPortCount(s.clean, port, p);
    }
    forall c | c in s'.clean ensures c.covering <= needs - {port} {
      var i :| 0 <= i < |s'.clean| && s'.clean[i] == c;
      assert s.clean[i] in s.clean;
    }
    RecoverOk(s, s'.clean, s'.covered, needs - {port}, now);
  }

  // ---------- guards over time ----------

  // How long to wait before trying an unreachable guard again, by the age of the outage.
  function Backoff(outage: int): int
  {
    if outage < 6 * HOUR then HOUR
    else if outage < 3 * 24 * HOUR then 4 * HOUR
    else if outage < 7 * 24 * HOUR then 18 * HOUR
    else 36 * HOUR
  }

  predicate TimeToRetry(g: GuardState, time: int)
    requires g.unreachableSince.Some?
  {
    g.lastAttempted < g.unreachableSince.value ||
    time > g.lastAttempted + Backoff(time - g.unreachableSince.value)
  }

  // Since only contacted guards become unreachable, at a time they were tried, the first test of
  // the retry rule never decides.
  lemma RetryNowIsDead(g: GuardState, now: int, time: int)
    requires GuardOk(g, now) && g.unreachableSince.Some?
    ensures TimeToRetry(g, time) <==> time > g.lastAttempted + Backoff(time - g.unreachableSince.value)
  {}

  // May be offered for a circuit at this time, as far as its own record goes.
  predicate Offered(g: GuardState, time: int)
  {
    g.badSince == None && (g.unreachableSince == None || TimeToRetry(g, time))
  }

  // A failed attempt on a contacted guard: the first one of an outage, or a retry that was due.
  ghost predicate Fails(g: GuardState, g': GuardState, time: int)
  {
    g.madeContact && g' == g.(unreachableSince := g'.unreachableSince, lastAttempted := time) &&
    if g.unreachableSince == None then g'.unreachableSince == Some(time)
    else g'.unreachableSince == g.unreachableSince &&
         time > g.lastAttempted + Backoff(time - g.unreachableSince.value)
  }

  // What creating a circuit may do to the record of a guard that stays on the list.
  ghost predicate Evolves(g: GuardState, g': GuardState, time: int, hibernating: bool)
  {
    g' == g ||
    (if hibernating then Fails(g, g', time) else g' == g.(unreachableSince := None, madeContact := true))
  }

  // A guard that has just failed is not offered again at the same time.
  lemma FailedIsNotOffered(g: GuardState, g': GuardState, time: int)
    requires GuardOk(g, time) && Fails(g, g', time)
    ensures GuardOk(g', time) && !Offered(g', time)
  {}

  // The record after one attempt; None when a guard never contacted is dropped.
  function Tried(g: GuardState, time: int, hibernating: bool): (r: Option<GuardState>)
    ensures r == None <==> hibernating && !g.madeContact
    ensures r.Some? && !hibernating ==> r.value.madeContact && r.value.unreachableSince == None
    ensures r.Some? && hibernating ==>
              r.value.lastAttempted == time &&
              r.value.unreachableSince == if g.unreachableSince == None then Some(time) else g.unreachableSince
    ensures r.Some? ==> r.value.expires == g.expires && r.value.badSince == g.badSince
  {
    if !hibernating then Some(g.(unreachableSince := None, madeContact := true))
    else if !g.madeContact then None
    else if g.unreachableSince != None then Some(g.(lastAttempted := time))
    else Some(g.(unreachableSince := Some(time), lastAttempted := time))
  }

  ghost predicate NewGuard(g: GuardState, time: int, opts: Options, hibernating: bool)
  {
    && time + opts.guardExpirationMin <= g.expires <= time + opts.guardExpirationMax
    && g == GuardState(g.expires, None, None, 0, g.madeContact) && (g.madeContact ==> !hibernating)
  }

  // Guard lists before and after creating circuits at the given time.
  ghost predicate GuardsEvolve(old_: Guards, new_: Guards, time: int, opts: Options, hib: map<Fp, bool>)
  {
    && (forall g :: g in new_ ==> g in old_ || g in hib)
    && (forall g :: g in new_ && g in hib ==>
          || (g in old_ && Evolves(old_[g], new_[g], time, hib[g]))
          || (NewGuard(new_[g], time, opts, hib[g]) && (g in old_ ==> hib[g] && !old_[g].madeContact)))
    && (forall g :: g in new_ && g !in hib ==> new_[g] == old_[g])
    && (forall g :: g in old_ && g !in new_ ==> g in hib && hib[g] && !old_[g].madeContact)
  }

  lemma EvolveStart(guards: Guards, time: int, opts: Options, hib: map<Fp, bool>)
    ensures GuardsEvolve(guards, guards, time, opts, hib)
  {}

  lemma EvolveAdd(start: Guards, guards: Guards, fp: Fp, g: GuardState, time: int, opts: Options, hib: map<Fp, bool>)
    requires GuardsEvolve(start, guards, time, opts, hib) && fp !in guards && fp in hib
    requires NewGuard(g, time, opts, true)
    ensures GuardsEvolve(start, guards[fp := g], time, opts, hib)
  {}

  // A new guard that turns out to be hibernating leaves the list again.
  lemma EvolveRemove(start: Guards, guards: Guards, fp: Fp, time: int, opts: Options, hib: map<Fp, bool>)
    requires GuardsEvolve(start, guards, time, opts, hib) && fp in guards && fp in hib
    requires hib[fp] && !guards[fp].madeContact
    ensures GuardsEvolve(start, guards - {fp}, time, opts, hib)
  {}

  // A contacted guard that was offered and is found hibernating.
  lemma EvolveFail(start: Guards, guards: Guards, fp: Fp, g: GuardState, time: int, opts: Options, hib: map<Fp, bool>)
    requires GuardsEvolve(start, guards, time, opts, hib) && fp in guards && fp in hib
    requires hib[fp] && GuardOk(guards[fp], time) && Offered(guards[fp], time) && Fails(guards[fp], g, time)
    ensures GuardsEvolve(start, guards[fp := g], time, opts, hib)
  {}

  lemma EvolveContact(start: Guards, guards: Guards, fp: Fp, time: int, opts: Options, hib: map<Fp, bool>)
    requires GuardsEvolve(start, guards, time, opts, hib) && fp in guards && fp in hib && !hib[fp]
    ensures GuardsEvolve(start, guards[fp := guards[fp].(unreachableSince := None, madeContact := true)], time, opts, hib)
  {}

  // ---------- the start of a consensus period ----------

  // None when the guard is removed: down for too long, or expired.
  function PeriodGuard(g: GuardState, up: bool, validAfter: int, freshUntil: int): (r: Option<GuardState>)
  {
    var bad := if up then None else if g.badSince == None then Some(validAfter) else g.badSince;
    if bad.Some? && freshUntil - bad.value >= GUARD_DOWN_TIME then None
    else if g.expires <= validAfter then None
    else Some(g.(badSince := bad))
  }

  ghost function PeriodGuards(guards: Guards, stats: RelStats, validAfter: int, freshUntil: int): Guards
  {
    map g | g in guards && PeriodGuard(guards[g], GuardUp(g, stats), validAfter, freshUntil).Some? ::
      PeriodGuard(guards[g], GuardUp(g, stats), validAfter, freshUntil).value
  }

  // The list with only some of its guards updated yet.
  ghost function PartPeriodGuards(guards: Guards, done: set<Fp>, stats: RelStats, validAfter: int, freshUntil: int): Guards
  {
    map g | g in guards && (g in done ==> g in PeriodGuards(guards, stats, validAfter, freshUntil)) ::
      if g in done then PeriodGuards(guards, stats, validAfter, freshUntil)[g] else guards[g]
  }

  lemma PartPeriodEnds(guards: Guards, stats: RelStats, validAfter: int, freshUntil: int)
    ensures PartPeriodGuards(guards, guards.Keys - guards.Keys, stats, validAfter, freshUntil) == guards
    ensures PartPeriodGuards(guards, guards.Keys, stats, validAfter, freshUntil) ==
            PeriodGuards(guards, stats, validAfter, freshUntil)
  {}

  // Updating one more guard.
  lemma PartPeriodStep(guards: Guards, done: set<Fp>, g: Fp, stats: RelStats, validAfter: int, freshUntil: int)
    requires g in guards && g !in done
    ensures var part := PartPeriodGuards(guards, done, stats, validAfter, freshUntil);
            var r := PeriodGuard(guards[g], GuardUp(g, stats), validAfter, freshUntil);
            && g in part && part[g] == guards[g]
            && PartPeriodGuards(guards, done + {g}, stats, validAfter, freshUntil) ==
                 (if r.Some? then part[g := r.value] else part - {g})
  {}

  // Whatever the consensus before was, afterwards every guard is marked bad exactly while down,
  // has not expired, and has been down for less than 30 days at the end of the period.
  lemma PeriodGuardsOk(guards: Guards, stats: RelStats, descs: Descriptors, now: int, validAfter: int, freshUntil: int)
    requires forall g :: g in guards ==> g in descs && GuardOk(guards[g], now)
    ensures var guards' := PeriodGuards(guards, stats, validAfter, freshUntil);
            && GuardsOk(guards', stats, descs, now)
            && (forall g :: g in guards' ==> guards'[g].expires > validAfter)
            && (forall g :: g in guards' && guards'[g].badSince.Some? ==>
                  freshUntil - guards'[g].badSince.value < GUARD_DOWN_TIME)
  {}
}
