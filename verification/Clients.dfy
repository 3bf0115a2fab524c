/**
  One simulated client of pathsim.py: the steps that change its guards, its circuit deques and its
  cover counters. What a step does to the deques is tied to the functions of ClientSpec.
*/
module Clients {
  import opened Basics
  import opened Network
  import opened Selection
  import opened ClientSpec

  datatype Error = NotFresh | NoNtorCircuit | ZeroTotalWeight | GapOrOverlap

  // TapeEnded: the run so far used up its random draws.
  datatype Outcome<+T> = Done(value: T) | TapeEnded | Raised(error: Error)

  // What a client sees of the network at one moment.
  datatype View = View(stats: RelStats, descs: Descriptors, hib: map<Fp, bool>, validAfter: int, freshUntil: int,
                       guards: WeightedNodes, middles: WeightedNodes, opts: Options, weights: BwWeights, scale: nat)

  ghost function GuardKind(v: View): set<Fp>
  {
    set r | r in v.stats && r in v.descs && GuardFlags(v.stats[r].flags)
  }

  ghost function MiddleKind(v: View): set<Fp>
  {
    set r | r in v.stats && Running in v.stats[r].flags
  }

  ghost predicate ViewOk(v: View)
  {
    WellFormed(v.stats, v.descs) && v.stats.Keys <= v.hib.Keys && v.opts.Valid() &&
    Weighed(v.guards, GuardKind(v), v.stats, GuardPosition, v.weights, v.scale) &&
    Weighed(v.middles, MiddleKind(v), v.stats, MiddlePosition, v.weights, v.scale)
  }

  // A list of exits for a purpose: exactly those that fit it, or loosely those that might exit to
  // its port, in both cases by their weights as exits.
  ghost predicate ExitListOk(v: View, list: WeightedNodes, exact: bool, fast: bool, stable: bool, target: Target)
  {
    WellFormed(v.stats, v.descs) &&
    Weighed(list, ExitKind(v, exact, fast, stable, target), v.stats, ExitPosition, v.weights, v.scale)
  }

  ghost function ExitKind(v: View, exact: bool, fast: bool, stable: bool, target: Target): set<Fp>
    requires WellFormed(v.stats, v.descs)
  {
    if exact then set r | r in v.stats && ExitFilter(r, v.stats, v.descs, fast, stable, target, false)
    else set r | r in v.stats && ExitFilter(r, v.stats, v.descs, fast, stable, Loosely(target), true)
  }

  // Loose lists are made for a port.
  function Loosely(target: Target): Target
  {
    match target
    case AddressPort(_, port) => PortOnly(port)
    case _ => target
  }

  lemma ViewDrawable(v: View)
    requires ViewOk(v)
    ensures Drawable(v.guards, GuardKind(v)) && Drawable(v.middles, MiddleKind(v))
  {
    hide Weighed, Drawable;
    WeighedIsDrawable(v.guards, GuardKind(v), v.stats, GuardPosition, v.weights, v.scale);
    WeighedIsDrawable(v.middles, MiddleKind(v), v.stats, MiddlePosition, v.weights, v.scale);
  }

  lemma ExitsDrawable(v: View, list: WeightedNodes, exact: bool, fast: bool, stable: bool, target: Target)
    requires ExitListOk(v, list, exact, fast, stable, target)
    ensures Drawable(list, ExitKind(v, exact, fast, stable, target))
  {
    hide Weighed, Drawable;
    WeighedIsDrawable(list, ExitKind(v, exact, fast, stable, target), v.stats, ExitPosition, v.weights, v.scale);
  }

  // ---------- circuits as built ----------

  ghost predicate RelayFits(r: Fp, v: View, fast: bool, stable: bool)
    requires v.stats.Keys <= v.hib.Keys
  {
    r in v.stats && Running in v.stats[r].flags && !v.hib[r] &&
    (!fast || Fast in v.stats[r].flags) && (!stable || Stable in v.stats[r].flags)
  }

  // Three awake running relays that meet the flags, pairwise far apart; the exit fits the purpose
  // and the guard is one.
  ghost predicate PathFits(guard: Fp, middle: Fp, exit: Fp, v: View, fast: bool, stable: bool, target: Target)
    requires ViewOk(v)
  {
    && RelayFits(guard, v, fast, stable) && RelayFits(middle, v, fast, stable) && RelayFits(exit, v, fast, stable)
    && Guard in v.stats[guard].flags && ExitFilter(exit, v.stats, v.descs, fast, stable, target, false)
    && FarApart(exit, guard, v.descs) && FarApart(exit, middle, v.descs) && FarApart(guard, middle, v.descs)
  }

  predicate HasKey(guard: Fp, middle: Fp, exit: Fp, descs: Descriptors)
    requires guard in descs && middle in descs && exit in descs
  {
    descs[guard].ntorKey || descs[middle].ntorKey || descs[exit].ntorKey
  }

  // A circuit on such a path, one of whose relays has an ntor key.
  ghost predicate WellBuilt(c: Circuit, v: View, time: int, fast: bool, stable: bool, target: Target)
    requires ViewOk(v)
  {
    && c.time == time && c.fast == fast && c.stable == stable && !c.internal && c.dirtyTime == None
    && c.covering == {} && c.avgPing == None
    && PathFits(c.guard, c.middle, c.exit, v, fast, stable, target) && HasKey(c.guard, c.middle, c.exit, v.descs)
  }

  // There is a path for the purpose without any ntor key.
  ghost predicate Keyless(v: View, fast: bool, stable: bool, target: Target)
  {
    ViewOk(v) && exists g, m, e :: PathFits(g, m, e, v, fast, stable, target) && !HasKey(g, m, e, v.descs)
  }

  // In the terms of the path specification: neither one family, listed mutually, nor one /16.
  ghost predicate Unrelated(a: Fp, b: Fp, v: View)
    requires ViewOk(v) && a in v.descs && b in v.descs
  {
    a != b && !InSameFamily(v.descs[a], v.descs[b]) && !InSameFamily(v.descs[b], v.descs[a]) &&
    !SameFirstTwoOctets(v.descs[a].address, v.descs[b].address)
  }

  lemma WellBuiltPath(c: Circuit, v: View, time: int, fast: bool, stable: bool, target: Target)
    requires ViewOk(v) && WellBuilt(c, v, time, fast, stable, target)
    ensures Unrelated(c.guard, c.middle, v) && Unrelated(c.guard, c.exit, v) && Unrelated(c.middle, c.exit, v)
  {
    hide Drawable, Weighed;
    FarApartMeans(c.exit, c.guard, v.descs);
    FarApartMeans(c.exit, c.middle, v.descs);
    FarApartMeans(c.guard, c.middle, v.descs);
  }

  predicate CircuitCovers(c: Circuit, descs: Descriptors, port: nat, need: Need)
    requires c.exit in descs
  {
    (!need.fast || c.fast) && (!need.stable || c.stable) && CanExitToPort(descs[c.exit].exitPolicy, port)
  }

  predicate Supports(c: Circuit, stream: Stream, descs: Descriptors)
    requires c.exit in descs
  {
    match stream
    case Connect(_, ip, port) =>
      CanExitTo(descs[c.exit].exitPolicy, ip, port) && !c.internal && (c.stable || port !in LONG_LIVED_PORTS)
    case Resolve(_) =>
      !PolicyIsRejectStar(descs[c.exit].exitPolicy) && !c.internal
  }

  // ---------- guards as offered for a circuit ----------

  ghost predicate GuardUsable(g: Fp, guards: Guards, v: View, fast: bool, stable: bool, exit: Fp, time: int)
    requires WellFormed(v.stats, v.descs) && g in guards && exit in v.descs && g in v.stats
  {
    Offered(guards[g], time) && (!fast || Fast in v.stats[g].flags) && (!stable || Stable in v.stats[g].flags) &&
    FarApart(exit, g, v.descs)
  }

  ghost predicate AllUsable(gs: seq<Fp>, guards: Guards, v: View, fast: bool, stable: bool, exit: Fp, time: int)
    requires WellFormed(v.stats, v.descs) && exit in v.descs
  {
    forall g :: g in gs ==> g in guards && g in v.stats && GuardUsable(g, guards, v, fast, stable, exit, time)
  }

  lemma UsableKept(gs: seq<Fp>, guards: Guards, fp: Fp, g: GuardState, v: View, fast: bool, stable: bool, exit: Fp, time: int)
    requires WellFormed(v.stats, v.descs) && exit in v.descs && AllUsable(gs, guards, v, fast, stable, exit, time)
    requires fp !in guards
    ensures AllUsable(gs, guards[fp := g], v, fast, stable, exit, time)
    ensures fp in v.stats && GuardUsable(fp, guards[fp := g], v, fast, stable, exit, time) ==>
              AllUsable(gs + [fp], guards[fp := g], v, fast, stable, exit, time)
  {}

  // None is the raise for a guard not marked bad although the consensus or its descriptor lacks.
  method GuardFilterForCirc(g: Fp, guards: Guards, v: View, fast: bool, stable: bool, exit: Fp, time: int)
    returns (res: Option<bool>)
    requires WellFormed(v.stats, v.descs) && g in guards && exit in v.descs
    ensures res == None <==> guards[g].badSince == None && (g !in v.stats || g !in v.descs)
    ensures res == Some(true) ==> g in v.stats
    ensures res.Some? && g in v.stats ==> res.value == GuardUsable(g, guards, v, fast, stable, exit, time)
  {
    if guards[g].badSince != None {
      return Some(false);
    }
    if g !in v.stats || g !in v.descs {
      return None;
    }
    var near := InSame16Subnet(v.descs[exit].address, v.descs[g].address);
    return Some((!fast || Fast in v.stats[g].flags) && (!stable || Stable in v.stats[g].flags) &&
                (guards[g].unreachableSince == None || TimeToRetry(guards[g], time)) &&
                exit != g && !InSameFamily(v.descs[exit], v.descs[g]) && !near);
  }

  // The list of guards fit for a circuit, in some order of the dictionary. The raise is
  // unreachable when the guards marked good are exactly those that are up.
  method UsableGuards(guards: Guards, v: View, fast: bool, stable: bool, exit: Fp, time: int) returns (usable: seq<Fp>)
    requires ViewOk(v) && GuardsOk(guards, v.stats, v.descs, time) && exit in v.descs
    ensures forall g :: g in usable <==>
              g in guards && g in v.stats && GuardUsable(g, guards, v, fast, stable, exit, time)
    ensures forall i, j :: 0 <= i < j < |usable| ==> usable[i] != usable[j]
  {
    hide Drawable, Weighed, GuardUsable, GuardsOk;
    var ks := KeysOf(guards);
    usable := [];
    for i := 0 to |ks|
      invariant forall g :: g in usable <==>
                  g in ks[..i] && g in v.stats && GuardUsable(g, guards, v, fast, stable, exit, time)
      invariant forall a, b :: 0 <= a < b < |usable| ==> usable[a] != usable[b]
    {
      assert ks[..i + 1] == ks[..i] + [ks[i]];
      var fits := GuardFilterForCirc(ks[i], guards, v, fast, stable, exit, time);
      GuardsOkMember(guards, ks[i], v.stats, v.descs, time);
      assert fits.Some?;
      if fits.value {
        usable := usable + [ks[i]];
      }
    }
  }

  // Guards may have come, and none has gone or changed.
  ghost predicate OnlyMore(guards: Guards, guards': Guards)
  {
    forall g :: g in guards ==> g in guards' && guards'[g] == guards[g]
  }

  lemma NoMore(guards: Guards)
    ensures OnlyMore(guards, guards)
  {}

  lemma OnlyMoreTwice(guards: Guards, guards': Guards, guards'': Guards)
    requires OnlyMore(guards, guards') && OnlyMore(guards', guards'')
    ensures OnlyMore(guards, guards'')
  {}

  lemma OneMore(guards: Guards, guards': Guards, fp: Fp, g: GuardState)
    requires OnlyMore(guards, guards') && fp !in guards'
    ensures OnlyMore(guards, guards'[fp := g])
  {}

  // Live guards whatever the circuit, counted once each.
  method LiveGuards(guards: Guards, descs: Descriptors, time: int) returns (live: seq<Fp>)
    ensures forall g :: g in live <==> g in guards && g in descs && Offered(guards[g], time)
    ensures forall i, j :: 0 <= i < j < |live| ==> live[i] != live[j]
  {
    var ks := KeysOf(guards);
    live := [];
    for i := 0 to |ks|
      invariant forall g :: g in live <==> g in ks[..i] && g in descs && Offered(guards[g], time)
      invariant forall a, b :: 0 <= a < b < |live| ==> live[a] != live[b]
    {
      if guards[ks[i]].badSince == None && ks[i] in descs &&
         (guards[ks[i]].unreachableSince == None || TimeToRetry(guards[ks[i]], time)) {
        live := live + [ks[i]];
      }
    }
  }

  // Draws guards until one does not clash with the list.
  method GetNewGuard(guards: Guards, v: View, rng: Random) returns (guard: Option<Fp>)
    requires ViewOk(v) && guards.Keys <= v.descs.Keys
    modifies rng
    ensures guard.Some? ==> guard.value in GuardKind(v) && guard.value !in guards && |rng.tape| < |old(rng.tape)|
    ensures guard.Some? ==> forall g :: g in guards ==> FarApart(g, guard.value, v.descs)
    ensures Rejecting(v.guards, NoClash(guards, v.descs), old(rng.tape), rng.tape, guard)
    ensures |rng.tape| <= |old(rng.tape)| && (guard == None ==> rng.tape == [])
  {
    hide IsAddress, Rejected, Rejecting, Drawable, Weighed, FarApart, Selects;
    ghost var ok := NoClash(guards, v.descs);
    NoneRejected(v.guards, ok, rng.tape);
    ViewDrawable(v);
    while true
      invariant |rng.tape| <= |old(rng.tape)| && Rejected(v.guards, ok, old(rng.tape), rng.tape)
      decreases |rng.tape|
    {
      ghost var tape := rng.tape;
      var node := DrawNode(v.guards, GuardKind(v), rng);
      if node == None {
        TapeRejected(v.guards, ok, old(rng.tape));
        return None;
      }
      NextDrawn(v.guards, ok, old(rng.tape), tape, node.value);
      var clash := Clashes(node.value, guards, v.descs);
      if !clash {
        return node;
      }
    }
  }

  ghost function NoClash(guards: Guards, descs: Descriptors): Fp -> bool
  {
    (r: Fp) => r in descs && guards.Keys <= descs.Keys && (forall a :: a in descs ==> IsAddress(descs[a].address)) &&
               forall g :: g in guards ==> FarApart(g, r, descs)
  }

  method Clashes(node: Fp, guards: Guards, descs: Descriptors) returns (clash: bool)
    requires node in descs && guards.Keys <= descs.Keys
    requires forall r :: r in descs ==> IsAddress(descs[r].address)
    ensures clash <==> exists g :: g in guards && !FarApart(g, node, descs)
    ensures !clash ==> node !in guards
  {
    var ks := KeysOf(guards);
    for i := 0 to |ks|
      invariant forall g :: g in ks[..i] ==> FarApart(g, node, descs)
    {
      var near := InSame16Subnet(descs[ks[i]].address, descs[node].address);
      if ks[i] == node || InSameFamily(descs[ks[i]], descs[node]) || near {
        assert !FarApart(ks[i], node, descs);
        return true;
      }
    }
    return false;
  }

  // ---------- choosing relays ----------

  // Draws exits until one is awake, rechecking them when the list is only a loose one.
  method SelectExit(v: View, list: WeightedNodes, exact: bool, fast: bool, stable: bool, target: Target, rng: Random)
    returns (exit: Option<Fp>)
    requires ViewOk(v) && ExitListOk(v, list, exact, fast, stable, target)
    modifies rng
    ensures exit.Some? ==> exit.value in v.stats && !v.hib[exit.value] && |rng.tape| < |old(rng.tape)|
    ensures exit.Some? ==> ExitFilter(exit.value, v.stats, v.descs, fast, stable, target, false)
    ensures Rejecting(list, AwakeExit(v, fast, stable, target), old(rng.tape), rng.tape, exit)
    ensures |rng.tape| <= |old(rng.tape)| && (exit == None ==> rng.tape == [])
  {
    hide Rejected, Rejecting, Drawable, Weighed, ExitFilter, Selects;
    ghost var kind, ok := ExitKind(v, exact, fast, stable, target), AwakeExit(v, fast, stable, target);
    NoneRejected(list, ok, rng.tape);
    ExitsDrawable(v, list, exact, fast, stable, target);
    while true
      invariant |rng.tape| <= |old(rng.tape)| && Rejected(list, ok, old(rng.tape), rng.tape)
      decreases |rng.tape|
    {
      ghost var tape := rng.tape;
      var node := DrawNode(list, kind, rng);
      if node == None {
        TapeRejected(list, ok, old(rng.tape));
        return None;
      }
      NextDrawn(list, ok, old(rng.tape), tape, node.value);
      if (exact || ExitFilter(node.value, v.stats, v.descs, fast, stable, target, false)) && !v.hib[node.value] {
        return node;
      }
    }
  }

  ghost function AwakeExit(v: View, fast: bool, stable: bool, target: Target): Fp -> bool
  {
    (r: Fp) => r in v.stats && r in v.descs && r in v.hib && !v.hib[r] && ExitFilter(r, v.stats, v.descs, fast, stable, target, false)
  }

  // Draws middles until one is awake, fits, and is far apart from exit and guard.
  method SelectMiddle(v: View, fast: bool, stable: bool, exit: Fp, guard: Fp, rng: Random) returns (middle: Option<Fp>)
    requires ViewOk(v) && exit in v.descs && guard in v.descs
    modifies rng
    ensures middle.Some? ==> middle.value in v.stats && !v.hib[middle.value] && |rng.tape| < |old(rng.tape)|
    ensures middle.Some? ==> MiddleFits(middle.value, v.stats, v.descs, fast, stable, Some(exit), Some(guard))
    ensures Rejecting(v.middles, AwakeMiddle(v, fast, stable, exit, guard), old(rng.tape), rng.tape, middle)
    ensures |rng.tape| <= |old(rng.tape)| && (middle == None ==> rng.tape == [])
  {
    hide Rejected, Rejecting, Drawable, Weighed, Selects, MiddleFits;
    ghost var ok := AwakeMiddle(v, fast, stable, exit, guard);
    NoneRejected(v.middles, ok, rng.tape);
    ViewDrawable(v);
    while true
      invariant |rng.tape| <= |old(rng.tape)| && Rejected(v.middles, ok, old(rng.tape), rng.tape)
      decreases |rng.tape|
    {
      ghost var tape := rng.tape;
      var node := DrawNode(v.middles, MiddleKind(v), rng);
      if node == None {
        TapeRejected(v.middles, ok, old(rng.tape));
        return None;
      }
      NextDrawn(v.middles, ok, old(rng.tape), tape, node.value);
      var fits := MiddleFilter(node.value, v.stats, v.descs, fast, stable, Some(exit), Some(guard));
      if fits && !v.hib[node.value] {
        return node;
      }
    }
  }

  ghost function AwakeMiddle(v: View, fast: bool, stable: bool, exit: Fp, guard: Fp): Fp -> bool
  {
    (r: Fp) => WellFormed(v.stats, v.descs) && exit in v.descs && guard in v.descs && r in v.stats && r in v.hib && !v.hib[r] &&
               MiddleFits(r, v.stats, v.descs, fast, stable, Some(exit), Some(guard))
  }

  // ---------- how a path is searched for ----------

  // What a search changes: the guard list and the tape.
  datatype Search = Search(guards: Guards, tape: seq<Draw>)

  datatype Found = Path(guard: Fp, middle: Fp, exit: Fp) | NoKey | TapeOut

  datatype Request = Request(v: View, time: int, fast: bool, stable: bool, target: Target, list: WeightedNodes)

  // A guard is drawn, and then the time for which it stays on the list.
  ghost function Adding(v: View, time: int, s: Search): (r: (Option<Fp>, Search))
    requires v.opts.Valid()
    ensures |r.1.tape| <= |s.tape| && (r.0.Some? ==> |r.1.tape| < |s.tape|) && (r.0 == None ==> r.1 == Search(s.guards, []))
  {
    var (node, rest) := FirstPass(v.guards, NoClash(s.guards, v.descs), s.tape);
    if node == None || rest == [] then (None, Search(s.guards, []))
    else
      var expiration := v.opts.guardExpirationMin + Scaled(rest[0], v.opts.guardExpirationMax - v.opts.guardExpirationMin + 1);
      (node, Search(s.guards[node.value := GuardState(expiration + time, None, None, 0, false)], rest[1..]))
  }

  ghost function Filling(v: View, time: int, s: Search, n: nat): (r: (bool, Search))
    requires v.opts.Valid()
    ensures |r.1.tape| <= |s.tape| && (!r.0 ==> r.1.tape == [])
    decreases n
  {
    if n == 0 then (true, s)
    else
      var (added, t) := Adding(v, time, s);
      if added == None then (false, t) else Filling(v, time, t, n - 1)
  }

  // With too few guards on the list, how many it takes for enough live ones.
  ghost function ToFill(v: View, guards: Guards, time: int): nat
  {
    var live := |set g | g in guards && g in v.descs && Offered(guards[g], time)|;
    if |guards| < v.opts.numGuards && live < v.opts.numGuards then v.opts.numGuards - live else 0
  }

  ghost predicate UsableIn(g: Fp, guards: Guards, v: View, fast: bool, stable: bool, exit: Fp, time: int)
  {
    WellFormed(v.stats, v.descs) && exit in v.descs && g in guards && g in v.stats && GuardUsable(g, guards, v, fast, stable, exit, time)
  }

  // Guards are added until enough are usable.
  ghost function Enlarging(v: View, time: int, fast: bool, stable: bool, exit: Fp, s: Search, usable: seq<Fp>): (r: (Option<seq<Fp>>, Search))
    requires v.opts.Valid()
    ensures |r.1.tape| <= |s.tape| && (r.0 == None ==> r.1.tape == []) && (r.0.Some? ==> r.0.value != [])
    decreases |s.tape|
  {
    if |usable| >= v.opts.minNumGuards then (Some(usable[..if |usable| < v.opts.numGuards then |usable| else v.opts.numGuards]), s)
    else
      var (added, t) := Adding(v, time, s);
      if added == None then (None, t)
      else Enlarging(v, time, fast, stable, exit, t, if UsableIn(added.value, t.guards, v, fast, stable, exit, time) then usable + [added.value] else usable)
  }

  // The usable guards in some order of the dictionary.
  ghost predicate ListsUsable(usable: seq<Fp>, guards: Guards, v: View, fast: bool, stable: bool, exit: Fp, time: int)
  {
    && (forall g :: g in usable <==> UsableIn(g, guards, v, fast, stable, exit, time))
    && forall i, j :: 0 <= i < j < |usable| ==> usable[i] != usable[j]
  }

  ghost predicate Offers(v: View, time: int, fast: bool, stable: bool, exit: Fp, s: Search, offered: Option<seq<Fp>>, t: Search)
    requires v.opts.Valid()
  {
    var (filled, u) := Filling(v, time, s, ToFill(v, s.guards, time));
    if !filled then offered == None && t == u
    else exists usable :: ListsUsable(usable, u.guards, v, fast, stable, exit, time) &&
                          (offered, t) == Enlarging(v, time, fast, stable, exit, u, usable)
  }

  ghost function LiveIn(guards: Guards, v: View, time: int): set<Fp>
  {
    set g | g in guards && g in v.descs && Offered(guards[g], time)
  }

  ghost function AllUsableIn(guards: Guards, v: View, fast: bool, stable: bool, exit: Fp, time: int): set<Fp>
  {
    set g | g in guards && UsableIn(g, guards, v, fast, stable, exit, time)
  }

  // A guard added was not on the list, and is live.
  lemma AddedIs(v: View, time: int, s: Search)
    requires v.opts.Valid()
    ensures var (added, t) := Adding(v, time, s);
            if added == None then t.guards == s.guards
            else added.value !in s.guards && t.guards.Keys == s.guards.Keys + {added.value} && OnlyMore(s.guards, t.guards) &&
                 LiveIn(t.guards, v, time) == LiveIn(s.guards, v, time) + {added.value}
  {
    hide FirstPass, Scaled, IsAddress;
    var (node, _) := FirstPass(v.guards, NoClash(s.guards, v.descs), s.tape);
    if node.Some? {
      NoClashIsNew(node.value, s.guards, v.descs);
    }
  }

  lemma NoClashIsNew(r: Fp, guards: Guards, descs: Descriptors)
    requires NoClash(guards, descs)(r)
    ensures r !in guards && r in descs
  {}

  // A list too short is filled up until as many guards are live as are asked for.
  lemma FilledUp(v: View, time: int, s: Search, t: Search)
    requires v.opts.Valid() && Filling(v, time, s, ToFill(v, s.guards, time)) == (true, t)
    ensures OnlyMore(s.guards, t.guards)
    ensures if |s.guards| >= v.opts.numGuards then t == s
            else |LiveIn(t.guards, v, time)| == Max(|LiveIn(s.guards, v, time)|, v.opts.numGuards)
  {
    hide Filling, OnlyMore;
    var live := LiveIn(s.guards, v, time);
    assert live == set g | g in s.guards && g in v.descs && Offered(s.guards[g], time);
    FillingAdds(v, time, s, ToFill(v, s.guards, time), t);
    NothingToFill(v, time, s);
  }

  lemma {:induction false} FillingAdds(v: View, time: int, s: Search, n: nat, t: Search)
    requires v.opts.Valid() && Filling(v, time, s, n) == (true, t)
    ensures OnlyMore(s.guards, t.guards) && |LiveIn(t.guards, v, time)| == |LiveIn(s.guards, v, time)| + n
    decreases n
  {
    hide Adding, LiveIn;
    if n > 0 {
      var (added, u) := Adding(v, time, s);
      AddedIs(v, time, s);
      FillingAdds(v, time, u, n - 1, t);
      AddedIsNew(v, time, s.guards, u.guards, added.value);
    }
  }

  lemma AddedIsNew(v: View, time: int, guards: Guards, guards': Guards, fp: Fp)
    requires fp !in guards && LiveIn(guards', v, time) == LiveIn(guards, v, time) + {fp}
    ensures |LiveIn(guards', v, time)| == |LiveIn(guards, v, time)| + 1
  {}

  // Guards are added exactly until enough are usable, and as many of all the usable ones are
  // offered as are asked for.
  lemma OfferedAre(v: View, time: int, fast: bool, stable: bool, exit: Fp, s: Search, offered: seq<Fp>, t: Search)
    returns (u: Search)
    requires v.opts.Valid() && Offers(v, time, fast, stable, exit, s, Some(offered), t)
    ensures Filling(v, time, s, ToFill(v, s.guards, time)) == (true, u)
    ensures OnlyMore(s.guards, t.guards) && OnlyMore(u.guards, t.guards)
    ensures var all := AllUsableIn(t.guards, v, fast, stable, exit, time);
            && |all| == Max(|AllUsableIn(u.guards, v, fast, stable, exit, time)|, v.opts.minNumGuards)
            && |offered| == Min(v.opts.numGuards, |all|) && (forall g :: g in offered ==> g in all)
            && forall i, j :: 0 <= i < j < |offered| ==> offered[i] != offered[j]
  {
    hide Filling, Enlarging, ListsUsable, OnlyMore, ToFill, LiveIn, AllUsableIn;
    u := Filling(v, time, s, ToFill(v, s.guards, time)).1;
    FilledUp(v, time, s, u);
    var usable :| ListsUsable(usable, u.guards, v, fast, stable, exit, time) &&
                  (Some(offered), t) == Enlarging(v, time, fast, stable, exit, u, usable);
    EnlargingAdds(v, time, fast, stable, exit, u, usable, offered, t);
    OnlyMoreTwice(s.guards, u.guards, t.guards);
  }

  lemma {:induction false} EnlargingAdds(v: View, time: int, fast: bool, stable: bool, exit: Fp, s: Search, usable: seq<Fp>,
                                         offered: seq<Fp>, t: Search)
    requires v.opts.Valid() && ListsUsable(usable, s.guards, v, fast, stable, exit, time)
    requires Enlarging(v, time, fast, stable, exit, s, usable) == (Some(offered), t)
    ensures OnlyMore(s.guards, t.guards)
    ensures var all := AllUsableIn(t.guards, v, fast, stable, exit, time);
            && |all| == Max(|AllUsableIn(s.guards, v, fast, stable, exit, time)|, v.opts.minNumGuards)
            && |offered| == Min(v.opts.numGuards, |all|) && (forall g :: g in offered ==> g in all)
            && forall i, j :: 0 <= i < j < |offered| ==> offered[i] != offered[j]
    decreases |s.tape|
  {
    hide Adding, OnlyMore, UsableIn, AllUsableIn, LiveIn, ListsUsable;
    UsableCount(usable, s.guards, v, fast, stable, exit, time);
    if |usable| >= v.opts.minNumGuards {
      NoMore(s.guards);
      PartOffered(usable, |offered|, s.guards, v, fast, stable, exit, time);
    } else {
      var (added, u) := Adding(v, time, s);
      AddedIs(v, time, s);
      var more := if UsableIn(added.value, u.guards, v, fast, stable, exit, time) then usable + [added.value] else usable;
      UsableMore(usable, s.guards, u.guards, added.value, v, fast, stable, exit, time);
      EnlargingAdds(v, time, fast, stable, exit, u, more, offered, t);
      UsableCount(more, u.guards, v, fast, stable, exit, time);
      OnlyMoreTwice(s.guards, u.guards, t.guards);
    }
  }

  lemma PartOffered(usable: seq<Fp>, n: nat, guards: Guards, v: View, fast: bool, stable: bool, exit: Fp, time: int)
    requires ListsUsable(usable, guards, v, fast, stable, exit, time) && n <= |usable|
    ensures forall g :: g in usable[..n] ==> g in AllUsableIn(guards, v, fast, stable, exit, time)
    ensures forall i, j :: 0 <= i < j < n ==> usable[i] != usable[j]
  {
    hide UsableIn;
    forall g | g in usable[..n] ensures g in AllUsableIn(guards, v, fast, stable, exit, time) {
      assert g in usable;
      UsableIsListed(g, guards, v, fast, stable, exit, time);
    }
  }

  lemma UsableIsListed(g: Fp, guards: Guards, v: View, fast: bool, stable: bool, exit: Fp, time: int)
    requires UsableIn(g, guards, v, fast, stable, exit, time)
    ensures g in AllUsableIn(guards, v, fast, stable, exit, time)
  {
    hide GuardUsable;
  }

  lemma UsableCount(usable: seq<Fp>, guards: Guards, v: View, fast: bool, stable: bool, exit: Fp, time: int)
    requires ListsUsable(usable, guards, v, fast, stable, exit, time)
    ensures |usable| == |AllUsableIn(guards, v, fast, stable, exit, time)|
  {
    hide GuardUsable;
    DistinctCount(usable, AllUsableIn(guards, v, fast, stable, exit, time));
  }

  lemma UsableMore(usable: seq<Fp>, guards: Guards, guards': Guards, fp: Fp, v: View, fast: bool, stable: bool, exit: Fp, time: int)
    requires ListsUsable(usable, guards, v, fast, stable, exit, time) && fp !in guards
    requires OnlyMore(guards, guards') && guards'.Keys == guards.Keys + {fp}
    ensures ListsUsable(if UsableIn(fp, guards', v, fast, stable, exit, time) then usable + [fp] else usable, guards', v, fast, stable, exit, time)
  {
    hide UsableIn, OnlyMore;
    var more := if UsableIn(fp, guards', v, fast, stable, exit, time) then usable + [fp] else usable;
    forall g ensures g in more <==> UsableIn(g, guards', v, fast, stable, exit, time) {
      if g in guards {
        SameUsable(g, guards, guards', v, fast, stable, exit, time);
      } else {
        UsableListed(g, guards, v, fast, stable, exit, time);
        UsableListed(g, guards', v, fast, stable, exit, time);
      }
    }
    UsableListed(fp, guards, v, fast, stable, exit, time);
    assert fp !in usable;
  }

  lemma UsableListed(g: Fp, guards: Guards, v: View, fast: bool, stable: bool, exit: Fp, time: int)
    ensures UsableIn(g, guards, v, fast, stable, exit, time) ==> g in guards
  {}

  lemma SameUsable(g: Fp, guards: Guards, guards': Guards, v: View, fast: bool, stable: bool, exit: Fp, time: int)
    requires g in guards && OnlyMore(guards, guards')
    ensures UsableIn(g, guards, v, fast, stable, exit, time) <==> UsableIn(g, guards', v, fast, stable, exit, time)
  {
    hide FarApart, Offered;
  }

  ghost function AfterTry(guards: Guards, g: Fp, time: int, hibernating: bool): Guards
    requires g in guards
  {
    match Tried(guards[g], time, hibernating)
    case None => guards - {g}
    case Some(state) => guards[g := state]
  }

  // One of the guards offered is drawn and tried, until one answers.
  ghost predicate Choosing(v: View, time: int, fast: bool, stable: bool, exit: Fp, s: Search, guard: Option<Fp>, t: Search)
    requires v.opts.Valid()
    decreases |s.tape|
  {
    exists offered, u ::
      Offers(v, time, fast, stable, exit, s, offered, u) && |u.tape| <= |s.tape| &&
      if offered == None || u.tape == [] then guard == None && t == Search(u.guards, [])
      else
        offered.value != [] &&
        var g := offered.value[Scaled(u.tape[0], |offered.value|)];
        g in u.guards && g in v.hib &&
        var next := Search(AfterTry(u.guards, g, time, v.hib[g]), u.tape[1..]);
        if !v.hib[g] then guard == Some(g) && t == next
        else Choosing(v, time, fast, stable, exit, next, guard, t)
  }

  ghost predicate TryingMiddle(q: Request, exit: Fp, guard: Option<Fp>, u: Search, path: Option<(Fp, Fp, Fp)>, t: Search)
  {
    if guard == None then path == None && t == u
    else
      var (middle, last) := FirstPass(q.v.middles, AwakeMiddle(q.v, q.fast, q.stable, exit, guard.value), u.tape);
      t == Search(u.guards, last) && path == if middle == None then None else Some((guard.value, middle.value, exit))
  }

  // One attempt at a path: an exit, a guard for it, and a middle for both.
  ghost predicate Trying(q: Request, s: Search, path: Option<(Fp, Fp, Fp)>, t: Search)
    requires q.v.opts.Valid()
  {
    var (exit, rest) := FirstPass(q.list, AwakeExit(q.v, q.fast, q.stable, q.target), s.tape);
    if exit == None then path == None && t == Search(s.guards, [])
    else exists guard, u :: Choosing(q.v, q.time, q.fast, q.stable, exit.value, Search(s.guards, rest), guard, u) &&
           TryingMiddle(q, exit.value, guard, u, path, t)
  }

  ghost predicate KeyOn(path: (Fp, Fp, Fp), descs: Descriptors)
  {
    path.0 in descs && path.1 in descs && path.2 in descs && HasKey(path.0, path.1, path.2, descs)
  }

  // At most n attempts, until one gives a path with an ntor key.
  ghost predicate Searching(q: Request, s: Search, n: nat, found: Found, t: Search)
    requires q.v.opts.Valid()
    decreases n
  {
    if n == 0 then found == NoKey && t == s
    else exists path, u ::
           Trying(q, s, path, u) &&
           (if path == None then found == TapeOut && t == u
            else if KeyOn(path.value, q.v.descs) then found == Path(path.value.0, path.value.1, path.value.2) && t == u
            else Searching(q, u, n - 1, found, t))
  }

  function FoundBy(res: Outcome<Circuit>): Found
  {
    match res
    case Done(c) => Path(c.guard, c.middle, c.exit)
    case TapeEnded => TapeOut
    case Raised(_) => NoKey
  }

  // What goes on from here is what went on from there.
  ghost predicate StillChoosing(v: View, time: int, fast: bool, stable: bool, exit: Fp, from: Search, s: Search)
    requires v.opts.Valid()
  {
    forall guard, t :: Choosing(v, time, fast, stable, exit, s, guard, t) ==> Choosing(v, time, fast, stable, exit, from, guard, t)
  }

  lemma ChoosingEnds(v: View, time: int, fast: bool, stable: bool, exit: Fp, s: Search, offered: Option<seq<Fp>>, u: Search)
    requires v.opts.Valid() && Offers(v, time, fast, stable, exit, s, offered, u) && |u.tape| <= |s.tape|
    requires offered == None || u.tape == []
    ensures Choosing(v, time, fast, stable, exit, s, None, Search(u.guards, []))
  {
    hide Offers;
  }

  lemma ChoosingGoesOn(v: View, time: int, fast: bool, stable: bool, exit: Fp, s: Search, offered: seq<Fp>, u: Search, guard: Option<Fp>, t: Search)
    requires v.opts.Valid() && Offers(v, time, fast, stable, exit, s, Some(offered), u) && |u.tape| <= |s.tape|
    requires offered != [] && u.tape != []
    requires var g := offered[Scaled(u.tape[0], |offered|)];
             g in u.guards && g in v.hib &&
             var next := Search(AfterTry(u.guards, g, time, v.hib[g]), u.tape[1..]);
             if !v.hib[g] then guard == Some(g) && t == next else Choosing(v, time, fast, stable, exit, next, guard, t)
    ensures Choosing(v, time, fast, stable, exit, s, guard, t)
  {
    hide Offers, AfterTry, Scaled;
    assert Offers(v, time, fast, stable, exit, s, Some(offered), u);
  }

  lemma StillChoosingNext(v: View, time: int, fast: bool, stable: bool, exit: Fp, from: Search, s: Search, offered: seq<Fp>, u: Search, next: Search)
    requires v.opts.Valid() && Offers(v, time, fast, stable, exit, s, Some(offered), u) && |u.tape| <= |s.tape|
    requires offered != [] && u.tape != [] && StillChoosing(v, time, fast, stable, exit, from, s)
    requires var g := offered[Scaled(u.tape[0], |offered|)];
             g in u.guards && g in v.hib && v.hib[g] && next == Search(AfterTry(u.guards, g, time, true), u.tape[1..])
    ensures StillChoosing(v, time, fast, stable, exit, from, next)
  {
    hide Offers, AfterTry, Scaled, Choosing;
    forall guard, t | Choosing(v, time, fast, stable, exit, next, guard, t) ensures Choosing(v, time, fast, stable, exit, from, guard, t) {
      ChoosingGoesOn(v, time, fast, stable, exit, s, offered, u, guard, t);
    }
  }

  ghost predicate StillSearching(q: Request, from: Search, n: nat, s: Search, k: nat)
    requires q.v.opts.Valid()
  {
    forall found, t :: Searching(q, s, k, found, t) ==> Searching(q, from, n, found, t)
  }

  lemma SearchingEnds(q: Request, s: Search, n: nat, path: Option<(Fp, Fp, Fp)>, u: Search)
    requires q.v.opts.Valid() && n > 0 && Trying(q, s, path, u)
    requires path.Some? ==> KeyOn(path.value, q.v.descs)
    ensures Searching(q, s, n, if path == None then TapeOut else Path(path.value.0, path.value.1, path.value.2), u)
  {
    hide Trying, KeyOn;
  }

  lemma StillSearchingNext(q: Request, from: Search, n: nat, s: Search, k: nat, path: (Fp, Fp, Fp), u: Search)
    requires q.v.opts.Valid() && k > 0 && Trying(q, s, Some(path), u) && StillSearching(q, from, n, s, k)
    requires !KeyOn(path, q.v.descs)
    ensures StillSearching(q, from, n, u, k - 1)
  {
    hide Trying, KeyOn;
    forall found, t | Searching(q, u, k - 1, found, t) ensures Searching(q, from, n, found, t) {
      assert Trying(q, s, Some(path), u);
      assert Searching(q, s, k, found, t);
    }
  }

  lemma ViewValid(v: View)
    requires ViewOk(v)
    ensures v.opts.Valid()
  {}

  lemma PingedPath(s: ClientState, k: nat, ping: real)
    requires k < |s.dirty|
    ensures |SetPing(s, k, ping).dirty| == |s.dirty|
    ensures FoundBy(Done(SetPing(s, k, ping).dirty[k])) == FoundBy(Done(s.dirty[k]))
  {}

  lemma BestIsSome(circs: seq<Circuit>, ok: Circuit -> bool, k: nat)
    requires IsBest(circs, ok, k)
    ensures !HasNone(circs, ok)
  {}

  lemma SearchedInVain(q: Request, s: Search)
    requires q.v.opts.Valid()
    ensures Searching(q, s, 0, NoKey, s)
  {}

  lemma AllListed(usable: seq<Fp>, guards: Guards, v: View, fast: bool, stable: bool, exit: Fp, time: int)
    requires WellFormed(v.stats, v.descs) && exit in v.descs
    requires forall g :: g in usable <==> g in guards && g in v.stats && GuardUsable(g, guards, v, fast, stable, exit, time)
    requires forall i, j :: 0 <= i < j < |usable| ==> usable[i] != usable[j]
    ensures ListsUsable(usable, guards, v, fast, stable, exit, time) && AllUsable(usable, guards, v, fast, stable, exit, time)
  {
    hide GuardUsable;
  }

  lemma UsablePrefix(usable: seq<Fp>, n: nat, guards: Guards, v: View, fast: bool, stable: bool, exit: Fp, time: int)
    requires WellFormed(v.stats, v.descs) && exit in v.descs && AllUsable(usable, guards, v, fast, stable, exit, time) && n <= |usable|
    ensures AllUsable(usable[..n], guards, v, fast, stable, exit, time)
  {
    hide GuardUsable;
  }

  lemma FillCount(v: View, guards: Guards, time: int, live: seq<Fp>)
    requires |guards| < v.opts.numGuards && forall g :: g in live <==> g in guards && g in v.descs && Offered(guards[g], time)
    requires forall i, j :: 0 <= i < j < |live| ==> live[i] != live[j]
    ensures ToFill(v, guards, time) == if |live| < v.opts.numGuards then v.opts.numGuards - |live| else 0
  {
    DistinctCount(live, set g | g in guards && g in v.descs && Offered(guards[g], time));
  }

  lemma EnoughGuards(v: View, guards: Guards, time: int)
    requires |guards| >= v.opts.numGuards
    ensures ToFill(v, guards, time) == 0
  {}

  lemma NothingToFill(v: View, time: int, s: Search)
    requires v.opts.Valid()
    ensures Filling(v, time, s, 0) == (true, s)
  {}

  lemma TriedNoExit(q: Request, s: Search)
    requires q.v.opts.Valid() && FirstPass(q.list, AwakeExit(q.v, q.fast, q.stable, q.target), s.tape) == (None, [])
    ensures Trying(q, s, None, Search(s.guards, []))
  {}

  lemma NoMiddleTried(q: Request, exit: Fp, u: Search)
    ensures TryingMiddle(q, exit, None, u, None, u)
  {}

  lemma MiddleTried(q: Request, exit: Fp, guard: Fp, u: Search, middle: Option<Fp>, last: seq<Draw>)
    requires FirstPass(q.v.middles, AwakeMiddle(q.v, q.fast, q.stable, exit, guard), u.tape) == (middle, last)
    ensures TryingMiddle(q, exit, Some(guard), u, if middle == None then None else Some((guard, middle.value, exit)), Search(u.guards, last))
  {}

  lemma TriedExit(q: Request, s: Search, exit: Fp, rest: seq<Draw>, guard: Option<Fp>, u: Search, path: Option<(Fp, Fp, Fp)>, t: Search)
    requires q.v.opts.Valid() && FirstPass(q.list, AwakeExit(q.v, q.fast, q.stable, q.target), s.tape) == (Some(exit), rest)
    requires Choosing(q.v, q.time, q.fast, q.stable, exit, Search(s.guards, rest), guard, u)
    requires TryingMiddle(q, exit, guard, u, path, t)
    ensures Trying(q, s, path, t)
  {
    hide Choosing, TryingMiddle;
  }

  // ---------- the client ----------

  class Client {
    var guards: Guards
    var covered: map<nat, int>
    var clean: seq<Circuit>
    var dirty: seq<Circuit>
    var nextId: nat

    // What the congestion model measures: on creating a circuit, and on using one for a stream.
    const creationPing: nat -> real
    const usePing: nat -> real

    ghost function State(): ClientState
      reads this
    {
      ClientState(guards, covered, clean, dirty, nextId)
    }

    constructor (creationPing: nat -> real, usePing: nat -> real)
      ensures State() == ClientState(map[], map[], [], [], 0)
    {
      this.creationPing, this.usePing := creationPing, usePing;
      guards, covered, clean, dirty, nextId := map[], map[], [], [], 0;
    }

    ghost function Progressed(rng: Random): Progress
      reads this, rng
    {
      Progress(State(), rng.tape)
    }

    ghost function Searched(rng: Random): Search
      reads this`guards, rng
    {
      Search(guards, rng.tape)
    }

    // A guard just drawn is put on the list for a random time.
    method AddGuard(v: View, time: int, rng: Random) returns (guard: Option<Fp>)
      requires ViewOk(v) && guards.Keys <= v.descs.Keys
      modifies this`guards, rng
      ensures guard.Some? ==>
                && guard.value in GuardKind(v) && guard.value !in old(guards) && |rng.tape| < |old(rng.tape)|
                && guard.value in guards && guards == old(guards)[guard.value := guards[guard.value]]
                && NewGuard(guards[guard.value], time, v.opts, true)
      ensures guard == None ==> guards == old(guards) && rng.tape == []
      ensures |rng.tape| <= |old(rng.tape)|
      ensures (guard, Searched(rng)) == Adding(v, time, old(Searched(rng)))
    {
      hide Rejecting, Drawable, Weighed, NoClash, IsAddress;
      ghost var tape := rng.tape;
      guard := GetNewGuard(guards, v, rng);
      RejectingIs(v.guards, NoClash(guards, v.descs), tape, rng.tape, guard);
      if guard == None {
        return;
      }
      var draw := rng.Next();
      if draw == None {
        return None;
      }
      var expiration := v.opts.guardExpirationMin +
        Scaled(draw.value, v.opts.guardExpirationMax - v.opts.guardExpirationMin + 1);
      guards := guards[guard.value := GuardState(expiration + time, None, None, 0, false)];
    }

    // Guards fit for a circuit, at least one; new ones are put on the list until there are enough.
    method GetGuardsForCirc(v: View, fast: bool, stable: bool, exit: Fp, time: int, ghost start: Guards, rng: Random)
      returns (res: Option<seq<Fp>>)
      requires ViewOk(v) && exit in v.descs && GuardsOk(guards, v.stats, v.descs, time)
      requires GuardsEvolve(start, guards, time, v.opts, v.hib)
      modifies this`guards, rng
      ensures GuardsOk(guards, v.stats, v.descs, time) && GuardsEvolve(start, guards, time, v.opts, v.hib)
      ensures res.Some? ==> 0 < |res.value| <= v.opts.numGuards
      ensures res.Some? ==> AllUsable(res.value, guards, v, fast, stable, exit, time)
      ensures OnlyMore(old(guards), guards)
      ensures Offers(v, time, fast, stable, exit, old(Searched(rng)), res, Searched(rng))
      ensures |rng.tape| <= |old(rng.tape)| && (res == None ==> rng.tape == [])
    {
      hide Drawable, Weighed, GuardsEvolve, GuardsOk, GuardUsable, OnlyMore, AllUsable, Adding, Filling, ToFill, Enlarging, ListsUsable;
      ghost var s, before := Searched(rng), guards;
      var filled := FillGuards(v, time, start, rng);
      ghost var u, more := Searched(rng), guards;
      if !filled {
        return None;
      }
      var usable := UsableGuards(guards, v, fast, stable, exit, time);
      AllListed(usable, guards, v, fast, stable, exit, time);
      res := EnlargeUsable(v, fast, stable, exit, time, usable, start, rng);
      OnlyMoreTwice(before, more, guards);
    }

    // New guards are put on the list until enough are usable.
    method EnlargeUsable(v: View, fast: bool, stable: bool, exit: Fp, time: int, listed: seq<Fp>, ghost start: Guards, rng: Random)
      returns (res: Option<seq<Fp>>)
      requires ViewOk(v) && exit in v.descs && GuardsOk(guards, v.stats, v.descs, time)
      requires GuardsEvolve(start, guards, time, v.opts, v.hib) && AllUsable(listed, guards, v, fast, stable, exit, time)
      modifies this`guards, rng
      ensures GuardsOk(guards, v.stats, v.descs, time) && GuardsEvolve(start, guards, time, v.opts, v.hib)
      ensures res.Some? ==> 0 < |res.value| <= v.opts.numGuards && AllUsable(res.value, guards, v, fast, stable, exit, time)
      ensures OnlyMore(old(guards), guards)
      ensures (res, Searched(rng)) == Enlarging(v, time, fast, stable, exit, old(Searched(rng)), listed)
      ensures |rng.tape| <= |old(rng.tape)| && (res == None ==> rng.tape == [])
    {
      hide Drawable, Weighed, GuardsEvolve, GuardsOk, GuardUsable, OnlyMore, AllUsable, Adding, NewGuard;
      NoMore(guards);
      var usable := listed;
      while |usable| < v.opts.minNumGuards
        invariant GuardsOk(guards, v.stats, v.descs, time) && GuardsEvolve(start, guards, time, v.opts, v.hib)
        invariant |rng.tape| <= |old(rng.tape)| && OnlyMore(old(guards), guards)
        invariant AllUsable(usable, guards, v, fast, stable, exit, time)
        invariant Enlarging(v, time, fast, stable, exit, old(Searched(rng)), listed) == Enlarging(v, time, fast, stable, exit, Searched(rng), usable)
        decreases |rng.tape|
      {
        ghost var before := guards;
        var added := AddGuardEvolving(v, time, start, rng);
        if added == None {
          return None;
        }
        OneMore(old(guards), before, added.value, guards[added.value]);
        var fits := GuardFilterForCirc(added.value, guards, v, fast, stable, exit, time);
        UsableKept(usable, before, added.value, guards[added.value], v, fast, stable, exit, time);
        if fits == Some(true) {
          usable := usable + [added.value];
        }
      }
      UsablePrefix(usable, if |usable| < v.opts.numGuards then |usable| else v.opts.numGuards, guards, v, fast, stable, exit, time);
      res := Some(usable[..if |usable| < v.opts.numGuards then |usable| else v.opts.numGuards]);
    }

    // With too few guards on the list, as many are added as it takes for enough live ones.
    method FillGuards(v: View, time: int, ghost start: Guards, rng: Random) returns (filled: bool)
      requires ViewOk(v) && GuardsOk(guards, v.stats, v.descs, time)
      requires GuardsEvolve(start, guards, time, v.opts, v.hib)
      modifies this`guards, rng
      ensures GuardsOk(guards, v.stats, v.descs, time) && GuardsEvolve(start, guards, time, v.opts, v.hib)
      ensures OnlyMore(old(guards), guards)
      ensures (filled, Searched(rng)) == Filling(v, time, old(Searched(rng)), ToFill(v, old(guards), time))
      ensures |rng.tape| <= |old(rng.tape)| && (!filled ==> rng.tape == [])
    {
      hide GuardsEvolve, GuardsOk, OnlyMore, Filling, Offered, ViewOk, ToFill;
      ViewValid(v);
      NoMore(guards);
      NothingToFill(v, time, Searched(rng));
      if |guards| < v.opts.numGuards {
        var live := LiveGuards(guards, v.descs, time);
        FillCount(v, guards, time, live);
        filled := FillUp(v, time, if |live| < v.opts.numGuards then v.opts.numGuards - |live| else 0, start, rng);
        return;
      }
      EnoughGuards(v, guards, time);
      return true;
    }

    method FillUp(v: View, time: int, n: nat, ghost start: Guards, rng: Random) returns (filled: bool)
      requires ViewOk(v) && GuardsOk(guards, v.stats, v.descs, time)
      requires GuardsEvolve(start, guards, time, v.opts, v.hib)
      modifies this`guards, rng
      ensures GuardsOk(guards, v.stats, v.descs, time) && GuardsEvolve(start, guards, time, v.opts, v.hib)
      ensures OnlyMore(old(guards), guards)
      ensures (filled, Searched(rng)) == Filling(v, time, old(Searched(rng)), n)
      ensures |rng.tape| <= |old(rng.tape)| && (!filled ==> rng.tape == [])
    {
      hide Drawable, Weighed, GuardsEvolve, GuardsOk, NewGuard, OnlyMore, Adding;
      NoMore(guards);
      for i := 0 to n
        invariant Filling(v, time, old(Searched(rng)), n) == Filling(v, time, Searched(rng), n - i)
        invariant GuardsOk(guards, v.stats, v.descs, time) && GuardsEvolve(start, guards, time, v.opts, v.hib)
        invariant |rng.tape| <= |old(rng.tape)| && OnlyMore(old(guards), guards)
      {
        ghost var before := guards;
        var added := AddGuardEvolving(v, time, start, rng);
        if added == None {
          return false;
        }
        OneMore(old(guards), before, added.value, guards[added.value]);
      }
      return true;
    }

    method AddGuardEvolving(v: View, time: int, ghost start: Guards, rng: Random) returns (guard: Option<Fp>)
      requires ViewOk(v) && GuardsOk(guards, v.stats, v.descs, time)
      requires GuardsEvolve(start, guards, time, v.opts, v.hib)
      modifies this`guards, rng
      ensures GuardsOk(guards, v.stats, v.descs, time) && GuardsEvolve(start, guards, time, v.opts, v.hib)
      ensures guard.Some? ==>
                && guard.value in GuardKind(v) && guard.value !in old(guards) && |rng.tape| < |old(rng.tape)|
                && guard.value in guards && guards == old(guards)[guard.value := guards[guard.value]]
      ensures guard == None ==> guards == old(guards) && rng.tape == []
      ensures |rng.tape| <= |old(rng.tape)|
      ensures (guard, Searched(rng)) == Adding(v, time, old(Searched(rng)))
    {
      hide Drawable, Weighed, GuardsEvolve, GuardsOk, Adding;
      GuardsInDescs(guards, v.stats, v.descs, time);
      guard := AddGuard(v, time, rng);
      if guard.Some? {
        GuardsOkAdd(old(guards), guard.value, guards[guard.value], v.stats, v.descs, time);
        EvolveAdd(start, old(guards), guard.value, guards[guard.value], time, v.opts, v.hib);
      }
    }

    // One attempt on an offered guard: true when it answers.
    method TryGuard(v: View, guard: Fp, time: int, ghost start: Guards) returns (reached: bool)
      requires ViewOk(v) && GuardsOk(guards, v.stats, v.descs, time)
      requires GuardsEvolve(start, guards, time, v.opts, v.hib)
      requires guard in guards && guard in v.stats && Offered(guards[guard], time)
      modifies this`guards
      ensures reached == !v.hib[guard]
      ensures guards == match Tried(old(guards)[guard], time, v.hib[guard])
                        case None => old(guards) - {guard} case Some(g) => old(guards)[guard := g]
      ensures GuardsOk(guards, v.stats, v.descs, time) && GuardsEvolve(start, guards, time, v.opts, v.hib)
    {
      hide Drawable, Weighed, GuardsEvolve, GuardsOk;
      var g := guards[guard];
      GuardsOkMember(guards, guard, v.stats, v.descs, time);
      var g' := g;
      if v.hib[guard] {
        if !g.madeContact {
          EvolveRemove(start, guards, guard, time, v.opts, v.hib);
          GuardsOkRemove(guards, guard, v.stats, v.descs, time);
          guards := guards - {guard};
          return false;
        } else if g.unreachableSince != None {
          g' := g.(lastAttempted := time);
        } else {
          g' := g.(unreachableSince := Some(time), lastAttempted := time);
        }
        FailedIsNotOffered(g, g', time);
        EvolveFail(start, guards, guard, g', time, v.opts, v.hib);
      } else {
        g' := g.(unreachableSince := None, madeContact := true);
        EvolveContact(start, guards, guard, time, v.opts, v.hib);
      }
      GuardsOkUpdate(guards, guard, g', v.stats, v.descs, time);
      guards := guards[guard := g'];
      return !v.hib[guard];
    }

    // Chooses among the guards fit for the circuit until one answers.
    method SelectGuard(v: View, fast: bool, stable: bool, exit: Fp, time: int, ghost start: Guards, rng: Random)
      returns (guard: Option<Fp>)
      requires ViewOk(v) && exit in v.descs && GuardsOk(guards, v.stats, v.descs, time)
      requires GuardsEvolve(start, guards, time, v.opts, v.hib)
      modifies this`guards, rng
      ensures GuardsOk(guards, v.stats, v.descs, time) && GuardsEvolve(start, guards, time, v.opts, v.hib)
      ensures guard.Some? ==>
                && guard.value in v.stats && RelayFits(guard.value, v, fast, stable) && Guard in v.stats[guard.value].flags
                && FarApart(exit, guard.value, v.descs) && |rng.tape| < |old(rng.tape)|
      ensures Choosing(v, time, fast, stable, exit, old(Searched(rng)), guard, Searched(rng))
      ensures |rng.tape| <= |old(rng.tape)| && (guard == None ==> rng.tape == [])
    {
      hide Drawable, Weighed, GuardsEvolve, FarApart, Offers, Choosing, Scaled, Tried;
      while true
        invariant GuardsOk(guards, v.stats, v.descs, time) && GuardsEvolve(start, guards, time, v.opts, v.hib)
        invariant |rng.tape| <= |old(rng.tape)| && StillChoosing(v, time, fast, stable, exit, old(Searched(rng)), Searched(rng))
        decreases |rng.tape|
      {
        ghost var s := Searched(rng);
        var offered := GetGuardsForCirc(v, fast, stable, exit, time, start, rng);
        ghost var u := Searched(rng);
        if offered == None {
          ChoosingEnds(v, time, fast, stable, exit, s, None, u);
          return None;
        }
        var draw := rng.Next();
        if draw == None {
          ChoosingEnds(v, time, fast, stable, exit, s, offered, u);
          return None;
        }
        var g := offered.value[Scaled(draw.value, |offered.value|)];
        assert g in offered.value;
        assert GuardUsable(g, guards, v, fast, stable, exit, time);
        var reached := TryGuard(v, g, time, start);
        if reached {
          ChoosingGoesOn(v, time, fast, stable, exit, s, offered.value, u, Some(g), Searched(rng));
          return Some(g);
        }
        StillChoosingNext(v, time, fast, stable, exit, old(Searched(rng)), s, offered.value, u, Searched(rng));
      }
    }

    // One attempt at a path: an exit, a guard for it, and a middle for both.
    method ChoosePath(v: View, time: int, fast: bool, stable: bool, target: Target, list: WeightedNodes, exact: bool,
                      ghost start: Guards, rng: Random)
      returns (path: Option<(Fp, Fp, Fp)>)
      requires ViewOk(v) && ExitListOk(v, list, exact, fast, stable, target)
      requires GuardsOk(guards, v.stats, v.descs, time) && GuardsEvolve(start, guards, time, v.opts, v.hib)
      modifies this`guards, rng
      ensures GuardsOk(guards, v.stats, v.descs, time) && GuardsEvolve(start, guards, time, v.opts, v.hib)
      ensures path.Some? ==> PathFits(path.value.0, path.value.1, path.value.2, v, fast, stable, target) && |rng.tape| < |old(rng.tape)|
      ensures path == None ==> rng.tape == []
      ensures Trying(Request(v, time, fast, stable, target, list), old(Searched(rng)), path, Searched(rng))
    {
      hide Drawable, Weighed, GuardsOk, GuardsEvolve, FarApart, ExitFilter, Rejecting, RelayFits, PathFits, MiddleFits, Choosing, Trying, TryingMiddle, AwakeExit, AwakeMiddle;
      ghost var q, s := Request(v, time, fast, stable, target, list), Searched(rng);
      var exit := SelectExit(v, list, exact, fast, stable, target, rng);
      ghost var rest := rng.tape;
      RejectingIs(list, AwakeExit(v, fast, stable, target), s.tape, rest, exit);
      if exit == None {
        TriedNoExit(q, s);
        return None;
      }
      var guard := SelectGuard(v, fast, stable, exit.value, time, start, rng);
      ghost var u := Searched(rng);
      if guard == None {
        NoMiddleTried(q, exit.value, u);
        TriedExit(q, s, exit.value, rest, None, u, None, u);
        return None;
      }
      var middle := SelectMiddle(v, fast, stable, exit.value, guard.value, rng);
      RejectingIs(v.middles, AwakeMiddle(v, fast, stable, exit.value, guard.value), u.tape, rng.tape, middle);
      path := if middle == None then None else Some((guard.value, middle.value, exit.value));
      MiddleTried(q, exit.value, guard.value, u, middle, rng.tape);
      TriedExit(q, s, exit.value, rest, guard, u, path, Searched(rng));
      if middle.Some? {
        PathChosen(guard.value, middle.value, exit.value, v, fast, stable, target);
      }
    }

    // The circuit gets the next identity; the caller puts it into a deque. The ping is only
    // measured by the congestion-aware variant. It raises for want of a key only after it has found
    // a path without any.
    method CreateCircuit(v: View, time: int, fast: bool, stable: bool, target: Target, list: WeightedNodes, exact: bool,
                         ghost start: Guards, rng: Random)
      returns (res: Outcome<Circuit>)
      requires ViewOk(v) && ExitListOk(v, list, exact, fast, stable, target)
      requires GuardsOk(guards, v.stats, v.descs, time) && GuardsEvolve(start, guards, time, v.opts, v.hib)
      modifies this`guards, rng
      ensures GuardsOk(guards, v.stats, v.descs, time) && GuardsEvolve(start, guards, time, v.opts, v.hib)
      ensures res.Done? ==> WellBuilt(res.value, v, time, fast, stable, target)
      ensures res.Done? ==> res.value.id == nextId && res.value.initialPing == creationPing(nextId) && |rng.tape| < |old(rng.tape)|
      ensures res == Raised(NotFresh) <==> time < v.validAfter || v.freshUntil <= time
      ensures res.Raised? ==> res.error in {NotFresh, NoNtorCircuit}
      ensures res == Raised(NoNtorCircuit) ==> Keyless(v, fast, stable, target)
      ensures res.TapeEnded? ==> rng.tape == []
      ensures res != Raised(NotFresh) ==>
                Searching(Request(v, time, fast, stable, target, list), old(Searched(rng)), MAX_POPULATE_ATTEMPTS, FoundBy(res), Searched(rng))
    {
      hide GuardsOk, GuardsEvolve, ViewOk, ExitListOk, PathFits, Keyless, WellBuilt, Trying, Searching;
      ViewValid(v);
      ghost var q, from := Request(v, time, fast, stable, target, list), Searched(rng);
      if time < v.validAfter || time >= v.freshUntil {
        return Raised(NotFresh);
      }
      var attempts := 0;
      while attempts < MAX_POPULATE_ATTEMPTS
        invariant 0 <= attempts <= MAX_POPULATE_ATTEMPTS
        invariant GuardsOk(guards, v.stats, v.descs, time) && GuardsEvolve(start, guards, time, v.opts, v.hib)
        invariant |rng.tape| <= |old(rng.tape)| && (attempts > 0 ==> Keyless(v, fast, stable, target))
        invariant StillSearching(q, from, MAX_POPULATE_ATTEMPTS, Searched(rng), MAX_POPULATE_ATTEMPTS - attempts)
      {
        ghost var s, left := Searched(rng), MAX_POPULATE_ATTEMPTS - attempts;
        var path := ChoosePath(v, time, fast, stable, target, list, exact, start, rng);
        if path == None {
          SearchingEnds(q, s, left, path, Searched(rng));
          return TapeEnded;
        }
        attempts := attempts + 1;
        var guard, middle, exit := path.value.0, path.value.1, path.value.2;
        PathKnown(guard, middle, exit, v, fast, stable, target);
        if HasKey(guard, middle, exit, v.descs) {
          var circ := Circuit(nextId, time, fast, stable, false, None, guard, middle, exit, {}, creationPing(nextId), None);
          BuiltWell(circ, v, time, fast, stable, target);
          SearchingEnds(q, s, left, path, Searched(rng));
          return Done(circ);
        }
        StillSearchingNext(q, from, MAX_POPULATE_ATTEMPTS, s, left, path.value, Searched(rng));
      }
      SearchedInVain(q, Searched(rng));
      return Raised(NoNtorCircuit);
    }

    // ---------- covering ----------

    // One cover less for every port the circuit covers; false is the raise for an unknown port.
    method UncoverCircuitPorts(circuit: Circuit) returns (ok: bool)
      modifies this`covered
      ensures ok <==> circuit.covering <= old(covered).Keys
      ensures ok ==> covered == Uncovered(old(covered), [circuit])
    {
      var todo := circuit.covering;
      while todo != {}
        invariant todo <= circuit.covering && covered.Keys == old(covered).Keys
        invariant circuit.covering - todo <= covered.Keys
        invariant forall p :: p in covered ==>
                    covered[p] == old(covered)[p] - (if p in circuit.covering && p !in todo then 1 else 0)
        decreases |todo|
      {
        var port :| port in todo;
        if port !in covered {
          return false;
        }
        covered := covered[port := covered[port] - 1];
        todo := todo - {port};
      }
      forall p | p in covered ensures CoverCount([circuit], p) == if p in circuit.covering then 1 else 0 {
        CoverCountOne(circuit, p);
      }
      return true;
    }

    // Drops every circuit with a relay that is down; clean ones no longer count as cover.
    method KillCircuitsByRelay(down: Fp --> bool)
      requires forall c :: c in clean + dirty ==> PathAsks(c, down)
      requires forall c :: c in clean ==> c.covering <= covered.Keys
      modifies this`clean, this`dirty, this`covered
      ensures State() == KeepClean(KeepDirty(old(State()), Up(down)), Up(down))
    {
      KillDirty(down);
      KillClean(down);
    }

    method KillDirty(down: Fp --> bool)
      requires forall c :: c in dirty ==> PathAsks(c, down)
      modifies this`dirty
      ensures dirty == Keep(old(dirty), Up(down))
    {
      ghost var was, i := dirty, 0;
      var kept: seq<Circuit> := [];
      while |dirty| > 0
        invariant 0 <= i <= |was| && dirty == was[i..] && kept == Keep(was[..i], Up(down))
        decreases |dirty|
      {
        var circuit := dirty[0];
        assert circuit == was[i] && circuit in was;
        KeepStep(was, Up(down), i);
        dirty := dirty[1..];
        if PathUp(circuit, down) {
          kept := kept + [circuit];
        }
        i := i + 1;
      }
      assert was[..i] == was;
      dirty := kept;
    }

    method KillClean(down: Fp --> bool)
      requires forall c :: c in clean ==> PathAsks(c, down) && c.covering <= covered.Keys
      modifies this`clean, this`covered
      ensures clean == Keep(old(clean), Up(down))
      ensures covered == Uncovered(old(covered), Drop(old(clean), Up(down)))
    {
      hide Keep, Drop;
      ghost var was, before, i := clean, covered, 0;
      var kept: seq<Circuit> := [];
      KeepNone(Up(down));
      UncoveredNone(covered);
      while |clean| > 0
        invariant 0 <= i <= |was| && clean == was[i..] && kept == Keep(was[..i], Up(down))
        invariant covered == Uncovered(before, Drop(was[..i], Up(down)))
        decreases |clean|
      {
        var circuit := clean[0];
        assert circuit == was[i] && circuit in was;
        KeepStep(was, Up(down), i);
        DropStep(was, Up(down), i);
        clean := clean[1..];
        if PathUp(circuit, down) {
          kept := kept + [circuit];
        } else {
          UncoveredMore(before, Drop(was[..i], Up(down)), circuit);
          var ok := UncoverCircuitPorts(circuit);
          assert ok;
        }
        i := i + 1;
      }
      assert was[..i] == was;
      clean := kept;
    }

    // ---------- a new consensus ----------

    // Guards are marked down or up again, and dropped when down for too long or expired; circuits
    // with relays no longer listed as running are killed.
    method PeriodClientUpdate(stats: RelStats, validAfter: int, freshUntil: int)
      requires forall c :: c in clean ==> c.covering <= covered.Keys
      modifies this`guards, this`clean, this`dirty, this`covered
      ensures var before := old(State()).(guards := PeriodGuards(old(guards), stats, validAfter, freshUntil));
              State() == KeepClean(KeepDirty(before, Up(RelayDown(stats))), Up(RelayDown(stats)))
    {
      PeriodGuardUpdate(stats, validAfter, freshUntil);
      KillCircuitsByRelay(RelayDown(stats));
    }

    method PeriodGuardUpdate(stats: RelStats, validAfter: int, freshUntil: int)
      modifies this`guards
      ensures guards == PeriodGuards(old(guards), stats, validAfter, freshUntil)
    {
      hide PeriodGuards, PartPeriodGuards;
      ghost var was := guards;
      var todo := guards.Keys;
      PartPeriodEnds(guards, stats, validAfter, freshUntil);
      while todo != {}
        invariant todo <= was.Keys
        invariant guards == PartPeriodGuards(was, was.Keys - todo, stats, validAfter, freshUntil)
        decreases |todo|
      {
        var g :| g in todo;
        PartPeriodStep(was, was.Keys - todo, g, stats, validAfter, freshUntil);
        assert was.Keys - (todo - {g}) == was.Keys - todo + {g};
        todo := todo - {g};
        var props := guards[g];
        if props.badSince == None {
          if !GuardUp(g, stats) {
            props := props.(badSince := Some(validAfter));
          }
        } else if GuardUp(g, stats) {
          props := props.(badSince := None);
        }
        if props.badSince != None && freshUntil - props.badSince.value >= GUARD_DOWN_TIME {
          guards := guards - {g};
        } else if props.expires <= validAfter {
          guards := guards - {g};
        } else {
          guards := guards[g := props];
        }
      }
      assert was.Keys - todo == was.Keys;
    }

    // ---------- sweeping out old circuits ----------

    // The sweep from the right end stops at the first circuit still young enough. Since the deque
    // is ordered, it drops exactly the circuits too old.
    method ExpireDirty(time: int)
      requires DirtyOk(dirty, time)
      modifies this`dirty
      ensures dirty == Keep(old(dirty), YoungDirty(time))
    {
      ghost var was := dirty;
      while |dirty| > 0 && dirty[|dirty| - 1].dirtyTime.value <= time - MAX_CIRCUIT_DIRTINESS
        invariant |dirty| <= |was| && dirty == was[..|dirty|]
        invariant forall i :: |dirty| <= i < |was| ==> was[i].dirtyTime.value <= time - MAX_CIRCUIT_DIRTINESS
        decreases |dirty|
      {
        dirty := dirty[..|dirty| - 1];
      }
      KeepPrefix(was, YoungDirty(time), |dirty|);
    }

    method ExpireClean(time: int)
      requires CleanOk(clean, time) && forall c :: c in clean ==> c.covering <= covered.Keys
      modifies this`clean, this`covered
      ensures clean == Keep(old(clean), YoungClean(time))
      ensures covered == Uncovered(old(covered), Drop(old(clean), YoungClean(time)))
    {
      ghost var was, before := clean, covered;
      ghost var young := YoungClean(time);
      hide Uncovered, Keep, Drop;
      UncoveredNone(covered);
      assert was[|was|..] == [];
      while |clean| > 0 && clean[|clean| - 1].time <= time - CIRCUIT_IDLE_TIMEOUT
        invariant |clean| <= |was| && clean == was[..|clean|]
        invariant forall i :: |clean| <= i < |was| ==> was[i].time <= time - CIRCUIT_IDLE_TIMEOUT
        invariant covered == Uncovered(before, was[|clean|..]) && covered.Keys == before.Keys
        decreases |clean|
      {
        assert clean[|clean| - 1] in was;
        PopClean(was, before);
      }
      KeepPrefix(was, young, |clean|);
      DropSuffix(was, young, |clean|);
    }

    // Drops the circuit at the right end.
    method PopClean(ghost was: seq<Circuit>, ghost before: map<nat, int>)
      requires 0 < |clean| <= |was| && clean == was[..|clean|] && clean[|clean| - 1].covering <= covered.Keys
      requires covered == Uncovered(before, was[|clean|..]) && covered.Keys == before.Keys
      modifies this`clean, this`covered
      ensures clean == was[..|old(clean)| - 1] && covered == Uncovered(before, was[|clean|..]) && covered.Keys == before.Keys
    {
      hide Uncovered;
      var last := clean[|clean| - 1];
      assert was[|clean| - 1..] == [last] + was[|clean|..];
      UncoveredOneFirst(before, last, was[|clean|..]);
      UncoveredKeys(covered, [last]);
      var ok := UncoverCircuitPorts(last);
      assert ok;
      clean := clean[..|clean| - 1];
    }

    // ---------- covering port needs ----------

    method PushCircuit(circ: Circuit, port: nat)
      requires port in covered
      modifies this`clean, this`covered, this`nextId
      ensures State() == AddClean(old(State()), circ.(covering := {port}))
    {
      hide AddClean;
      AddCleanStart(State(), circ, port);
      clean := [circ] + clean;
      nextId := nextId + 1;
      covered := covered[port := covered[port] + 1];
      clean := clean[0 := clean[0].(covering := {port})];
    }

    // The newest circuit covers one more port.
    method CoverAlso(port: nat, ghost was: ClientState, ghost circ: Circuit)
      requires State() == AddClean(was, circ) && port in was.covered && port !in circ.covering
      modifies this`clean, this`covered
      ensures State() == AddClean(was, circ.(covering := circ.covering + {port}))
    {
      hide AddClean;
      AddCleanPort(was, circ, port);
      covered := covered[port := covered[port] + 1];
      clean := clean[0 := clean[0].(covering := clean[0].covering + {port})];
    }

    // A new circuit goes to the left end of the clean deque and covers the need it was made for,
    // and every other need it suits.
    method AddCovering(circ: Circuit, port: nat, needs: Needs, descs: Descriptors)
      requires circ.exit in descs && port in needs && covered.Keys == needs.Keys
      requires CircuitCovers(circ, descs, port, needs[port])
      requires circ.covering == {} && circ.id == nextId
      modifies this`clean, this`covered, this`nextId
      ensures State() == AddClean(old(State()), circ.(covering := CoverSet(circ, needs, descs)))
    {
      hide CircuitCovers, AddClean;
      ghost var was, suits, covering := State(), CoverSet(circ, needs, descs), {port};
      PushCircuit(circ, port);
      var todo := needs.Keys;
      while todo != {}
        invariant todo <= needs.Keys && covering == {port} + (suits - todo)
        invariant State() == AddClean(was, circ.(covering := covering))
        decreases |todo|
      {
        var pt :| pt in todo;
        todo := todo - {pt};
        if pt != port && CircuitCovers(circ, descs, pt, needs[pt]) {
          CoverAlso(pt, was, circ.(covering := covering));
          covering := covering + {pt};
        }
      }
      assert covering == suits;
    }

    // One new circuit for a need.
    method CoverOnce(time: int, v: View, needs: Needs, port: nat, list: WeightedNodes, ghost start: Guards, rng: Random)
      returns (res: Outcome<()>)
      requires CoverReady(State(), time, v, needs, port, list, start) && |clean| < MAX_UNUSED_OPEN_CIRCUITS
      modifies this`guards, this`clean, this`covered, this`nextId, rng
      ensures CoverReady(State(), time, v, needs, port, list, start) && CoversMore(old(State()), State(), v, needs, time)
      ensures res.Raised? ==> res.error == NoNtorCircuit
      ensures res.Done? ==> port in covered && port in old(covered) && covered[port] == old(covered)[port] + 1
      ensures res.Done? ==>
                clean != [] && MadeForNeed(clean[0], v, needs, time) &&
                State() == AddClean(old(State()).(guards := guards), clean[0])
      ensures res.TapeEnded? || res.Raised? ==> State() == old(State()).(guards := guards)
      ensures res.Raised? ==> Keyless(v, needs[port].fast, needs[port].stable, PortOnly(port))
      ensures res.TapeEnded? ==> rng.tape == []
      ensures CoverStep(v, time, needs, port, list, old(Progressed(rng)), res, Progressed(rng))
      ensures |clean| <= MAX_UNUSED_OPEN_CIRCUITS
    {
      hide WellBuilt, Keyless, Searching, CoverStep, NeedRequest, CoveredBy, AddClean, MadeForNeed, CoversMore, GuardsOk, GuardsEvolve, ViewOk, ExitListOk, AllFit;
      ViewValid(v);
      var need := needs[port];
      ghost var was, from := State(), Progressed(rng);
      assert Request(v, time, need.fast, need.stable, PortOnly(port), list) == NeedRequest(v, time, port, need, list) by {
        RequestIs(v, time, port, need, list);
      }
      var made := CreateCircuit(v, time, need.fast, need.stable, PortOnly(port), list, true, start, rng);
      assert made != Raised(NotFresh);
      hide CoverReady;
      if !made.Done? {
        GuardsOnlyOk(was, guards, time, v, needs, port, list, start);
        res := if made.TapeEnded? then TapeEnded else Raised(made.error);
        SearchFailed(v, time, needs, State(), made, res);
        CoverStepIs(v, time, needs, port, list, from, FoundBy(made), Searched(rng), res, Progressed(rng));
        return;
      }
      var circ := made.value;
      NewCircuitOk(was, guards, circ, time, v, needs, port, list, start);
      AddCovering(circ, port, needs, v.descs);
      AddCleanFirst(was.(guards := guards), circ.(covering := CoverSet(circ, needs, v.descs)));
      res := Done(());
      SearchSucceeded(v, time, needs, was.(guards := guards), made, State());
      CoverStepIs(v, time, needs, port, list, from, FoundBy(made), Searched(rng), res, Progressed(rng));
    }

    // Makes circuits for one need until it is covered or there are as many clean ones as allowed.
    method CoverNeed(time: int, v: View, needs: Needs, port: nat, list: WeightedNodes, ghost start: Guards, rng: Random)
      returns (res: Outcome<()>)
      requires CoverReady(State(), time, v, needs, port, list, start)
      modifies this`guards, this`clean, this`covered, this`nextId, rng
      ensures CoverReady(State(), time, v, needs, port, list, start) && CoversMore(old(State()), State(), v, needs, time)
      ensures res.Raised? ==> res.error == NoNtorCircuit
      ensures res.Done? <==> NeedMet(State(), port, needs[port])
      ensures res.Raised? ==> Keyless(v, needs[port].fast, needs[port].stable, PortOnly(port))
      ensures res.TapeEnded? ==> rng.tape == []
      ensures CoveringNeed(v, time, needs, port, list, old(Progressed(rng)), res, Progressed(rng))
    {
      hide CoverReady, CoversMore, Keyless, NeedMet, CoverStep, CoveringNeed, StillCovering, Missing;
      ReadyMeans(State(), time, v, needs, port, list, start);
      ghost var from := Progressed(rng);
      CoveringStart(v, time, needs, port, list, from);
      CoversMoreStart(State(), v, needs, time);
      NeedMetIs(State(), port, needs[port]);
      while covered[port] < needs[port].coverNum && |clean| < MAX_UNUSED_OPEN_CIRCUITS
        invariant CoverReady(State(), time, v, needs, port, list, start) && CoversMore(old(State()), State(), v, needs, time)
        invariant port in covered && |clean| <= MAX_UNUSED_OPEN_CIRCUITS
        invariant StillCovering(v, time, needs, port, list, from, Progressed(rng))
        decreases needs[port].coverNum - covered[port]
      {
        ghost var s, before := State(), Progressed(rng);
        NeedMetIs(s, port, needs[port]);
        var made := CoverOnce(time, v, needs, port, list, start, rng);
        CoversMoreTwice(old(State()), s, State(), v, needs, time);
        if !made.Done? {
          assert covered == s.covered && clean == s.clean;
          NeedMetIs(State(), port, needs[port]);
          CoveringEnds(v, time, needs, port, list, from, before, made, Progressed(rng));
          return made;
        }
        MissingLess(s, State(), port, needs[port]);
        StillCoveringNext(v, time, needs, port, list, from, before, made, Progressed(rng));
      }
      NeedMetIs(State(), port, needs[port]);
      CoveringDone(v, time, needs, port, list, from, Progressed(rng));
      return Done(());
    }

    // The timed updates of one client: old circuits and circuits with hibernating relays go, then
    // uncovered port needs are covered.
    method TimedClientUpdates(time: int, v: View, needs: Needs, exits: map<nat, WeightedNodes>, rng: Random)
      returns (res: Outcome<()>)
      requires ViewOk(v) && v.validAfter <= time < v.freshUntil && ClientOk(State(), v, needs.Keys, time)
      requires ExitListsOk(v, needs, exits)
      modifies this, rng
      ensures ClientOk(State(), v, needs.Keys, time) && AllFit(State(), time, v.hib)
      ensures CoversMore(Swept(old(State()), time, v.hib), State(), v, needs, time)
      ensures res.Raised? ==> res.error == NoNtorCircuit && NoKeyFor(v, needs)
      ensures res.Done? <==> NeedsMet(State(), needs)
      ensures res.TapeEnded? ==> rng.tape == []
      ensures CoveringAll(v, time, needs, exits, needs.Keys, Progress(Swept(old(State()), time, v.hib), old(rng.tape)), res, Progressed(rng))
      ensures NeedsMet(Swept(old(State()), time, v.hib), needs) ==> res.Done? && State() == Swept(old(State()), time, v.hib) && rng.tape == old(rng.tape)
      ensures GuardsEvolve(old(guards), guards, time, v.opts, v.hib)
    {
      hide NeedsMet, Swept, NoKeyFor, CoveringAll;
      Sweep(time, v, needs.Keys);
      ghost var from := Progressed(rng);
      ViewValid(v);
      ListedExits(v, needs, exits);
      res := CoverNeeds(time, v, needs, exits, old(guards), rng);
      if NeedsMet(from.state, needs) {
        NothingToCover(v, time, needs, exits, needs.Keys, from, res, Progressed(rng));
      }
    }

    method Sweep(time: int, v: View, ghost needs: set<nat>)
      requires ClientOk(State(), v, needs, time)
      modifies this`clean, this`dirty, this`covered
      ensures State() == Swept(old(State()), time, v.hib)
      ensures ClientOk(State(), v, needs, time) && AllFit(State(), time, v.hib)
    {
      hide GuardsOk, CoversOk, IdsOk, PathsLive, AllFit, Keep, Uncovered;
      ghost var s := State();
      SweptOk(s, v, needs, time);
      ExpireDirty(time);
      assert State() == KeepDirty(s, YoungDirty(time));
      DequesBasics(s, needs, time);
      ExpireClean(time);
      ghost var t := State();
      assert t == KeepClean(KeepDirty(s, YoungDirty(time)), YoungClean(time));
      DequesBasics(t, needs, time);
      hide DequesOk;
      LivePathsAsk(t, v);
      KillCircuitsByRelay(Hibernating(v.hib));
    }

    method CoverNeeds(time: int, v: View, needs: Needs, exits: map<nat, WeightedNodes>, ghost start: Guards, rng: Random)
      returns (res: Outcome<()>)
      requires ViewOk(v) && v.validAfter <= time < v.freshUntil && ClientOk(State(), v, needs.Keys, time)
      requires AllFit(State(), time, v.hib) && ExitListsOk(v, needs, exits) && guards == start
      modifies this, rng
      ensures ClientOk(State(), v, needs.Keys, time) && AllFit(State(), time, v.hib)
      ensures CoversMore(old(State()), State(), v, needs, time) && GuardsEvolve(start, guards, time, v.opts, v.hib)
      ensures res.Raised? ==> res.error == NoNtorCircuit && NoKeyFor(v, needs)
      ensures res.Done? <==> NeedsMet(State(), needs)
      ensures res.TapeEnded? ==> rng.tape == []
      ensures CoveringAll(v, time, needs, exits, needs.Keys, old(Progressed(rng)), res, Progressed(rng))
    {
      hide ViewOk, DequesOk, GuardsOk, GuardsEvolve, PathsLive, AllFit, CoversMore, ExitListOk, NeedMet, Keyless;
      hide CoveringNeed, CoveringAll, StillCoveringAll;
      ViewValid(v);
      ListedExits(v, needs, exits);
      ghost var from := Progressed(rng);
      CoveringAllStart(v, time, needs, exits, from);
      EvolveStart(guards, time, v.opts, v.hib);
      CoversMoreStart(State(), v, needs, time);
      var todo := needs.Keys;
      while todo != {}
        invariant todo <= needs.Keys
        invariant ClientOk(State(), v, needs.Keys, time) && AllFit(State(), time, v.hib)
        invariant CoversMore(old(State()), State(), v, needs, time) && GuardsEvolve(start, guards, time, v.opts, v.hib)
        invariant forall p :: p in needs && p !in todo ==> NeedMet(State(), p, needs[p])
        invariant StillCoveringAll(v, time, needs, exits, from, todo, Progressed(rng))
        decreases |todo|
      {
        var port :| port in todo;
        ghost var s, before := State(), Progressed(rng);
        DequesBasics(s, needs.Keys, time);
        NeedMetIs(s, port, needs[port]);
        if covered[port] < needs[port].coverNum {
          res := CoverNeed(time, v, needs, port, exits[port], start, rng);
          CoversMoreTwice(old(State()), s, State(), v, needs, time);
          if !res.Done? {
            CoveringAllEnds(v, time, needs, exits, from, todo, before, port, res, Progressed(rng));
            return;
          }
        } else {
          CoversMoreStart(s, v, needs, time);
          CoveringMet(v, time, needs, port, exits[port], before);
          res := Done(());
        }
        StillCoveringAllNext(v, time, needs, exits, from, todo, before, port, res, Progressed(rng));
        todo := todo - {port};
        NeedsStayMet(s, State(), v, needs, todo + {port}, port, time);
      }
      res := Done(());
      CoveringAllDone(v, time, needs, exits, from, todo, Progressed(rng), res);
    }

    // ---------- streams ----------

    // A stream goes to a dirty circuit that is still fresh, else to a clean one, else to a new one;
    // in every case the circuit ends up dirty and supports the stream.
    method AssignStream(v: View, stream: Stream, needs: set<nat>, list: WeightedNodes, rng: Random)
      returns (res: Outcome<Circuit>)
      requires StreamReady(State(), v, stream, needs, list)
      modifies this, rng
      ensures ClientOk(State(), v, needs, stream.time)
      ensures res.Raised? ==> res.error == NoNtorCircuit
      ensures res.Done? ==> res.value in dirty && res.value.exit in v.descs && Supports(res.value, stream, v.descs)
      ensures res.Done? ==> Assigned(old(State()), State(), v, stream, res.value)
      ensures !HasNone(old(dirty), FreshAndSuits(stream, v.descs)) || !HasNone(old(clean), Suits(stream, v.descs)) ==>
                res.Done? && rng.tape == old(rng.tape)
      ensures res.Raised? ==> Keyless(v, true, StreamStable(stream), StreamTarget(stream))
      ensures res.TapeEnded? ==> rng.tape == []
      ensures HasNone(old(dirty), FreshAndSuits(stream, v.descs)) && HasNone(old(clean), Suits(stream, v.descs)) ==>
                Searching(StreamRequest(v, stream, list), old(Searched(rng)), MAX_POPULATE_ATTEMPTS, FoundBy(res), Searched(rng))
      ensures GuardsEvolve(old(guards), guards, stream.time, v.opts, v.hib)
    {
      hide ViewOk, DequesOk, GuardsOk, GuardsEvolve, ExitListOk, PathsLive, Keyless, Searching;
      EvolveStart(guards, stream.time, v.opts, v.hib);
      ghost var s := State();
      ExitsKnown(s, v);
      DequesBasics(s, needs, stream.time);
      var d := FindDirty(v, stream);
      if d < |dirty| {
        return Done(dirty[d]);
      }
      var found, k := TakeClean(Suits(stream, v.descs), stream.time, needs);
      if found {
        UseCleanClientOk(s, k, v, needs, stream.time);
        return Done(dirty[0]);
      }
      res := AssignNew(v, stream, needs, list, rng);
    }

    // The first dirty circuit fit for the stream.
    method FindDirty(v: View, stream: Stream) returns (k: nat)
      requires forall c :: c in dirty ==> c.exit in v.descs && c.dirtyTime.Some?
      ensures k < |dirty| ==> IsFirst(dirty, FreshAndSuits(stream, v.descs), k)
      ensures k >= |dirty| ==> HasNone(dirty, FreshAndSuits(stream, v.descs))
    {
      k := 0;
      while k < |dirty|
        invariant k <= |dirty|
        invariant forall i :: 0 <= i < k ==> !FreshAndSuits(stream, v.descs)(dirty[i])
      {
        if dirty[k].dirtyTime.value > stream.time - MAX_CIRCUIT_DIRTINESS && Supports(dirty[k], stream, v.descs) {
          return;
        }
        k := k + 1;
      }
    }

    // Walks the clean deque from the left and takes the first circuit that passes the test into
    // use; the circuits before it are moved to a new deque one by one, those after it at once.
    method TakeClean(ok: Circuit -> bool, time: int, ghost needs: set<nat>) returns (found: bool, ghost k: nat)
      requires DequesOk(State(), needs, time)
      modifies this`clean, this`dirty, this`covered
      ensures found ==> IsFirst(old(clean), ok, k) && State() == UseClean(old(State()), k, time)
      ensures !found ==> HasNone(old(clean), ok) && State() == old(State())
    {
      DequesBasics(State(), needs, time);
      hide DequesOk, Uncovered, UseClean, IsFirst, HasNone;
      ghost var s, was := State(), clean;
      var kept: seq<Circuit> := [];
      found, k := false, 0;
      NoneAtFirst(was, ok);
      while |clean| > 0
        invariant k <= |was| && !found && clean == was[k..] && kept == was[..k]
        invariant covered == old(covered) && dirty == old(dirty)
        invariant HasNone(was[..k], ok)
        decreases |clean|
      {
        var circuit := clean[0];
        assert circuit == was[k] && circuit in was;
        NoneYet(was, ok, k);
        clean := clean[1..];
        if ok(circuit) {
          PutInUse(kept, circuit, time, s);
          found := true;
          return;
        }
        kept := kept + [circuit];
        k := k + 1;
      }
      assert was[..k] == was;
      clean := kept;
    }

    // The clean circuit just taken goes to the front of the dirty deque, and those behind it stay.
    method PutInUse(kept: seq<Circuit>, circuit: Circuit, time: int, ghost s: ClientState)
      requires |kept| < |s.clean| && kept == s.clean[..|kept|] && circuit == s.clean[|kept|]
      requires clean == s.clean[|kept| + 1..] && State() == s.(clean := clean) && circuit.covering <= covered.Keys
      modifies this`clean, this`dirty, this`covered
      ensures State() == UseClean(s, |kept|, time)
    {
      hide Uncovered, UseClean;
      dirty := [circuit.(dirtyTime := Some(time))] + dirty;
      var all := kept + clean;
      clean := [];
      var known := UncoverCircuitPorts(circuit);
      assert known;
      clean := all;
      UseCleanParts(s, |kept|, time, State());
    }

    // A circuit made for the stream goes straight into use.
    method AssignNew(v: View, stream: Stream, needs: set<nat>, list: WeightedNodes, rng: Random)
      returns (res: Outcome<Circuit>)
      requires StreamReady(State(), v, stream, needs, list)
      modifies this, rng
      ensures ClientOk(State(), v, needs, stream.time)
      ensures res.Raised? ==> res.error == NoNtorCircuit
      ensures res.Done? ==> res.value.exit in v.descs && Supports(res.value, stream, v.descs)
      ensures res.Done? ==> State() == AddDirty(old(State()).(guards := guards), res.value)
      ensures res.Done? ==> MadeFor(res.value, v, stream) && res.value.initialPing == creationPing(old(nextId))
      ensures !res.Done? ==> State() == old(State()).(guards := guards)
      ensures res.Raised? ==> Keyless(v, true, StreamStable(stream), StreamTarget(stream))
      ensures res.TapeEnded? ==> rng.tape == []
      ensures Searching(StreamRequest(v, stream, list), old(Searched(rng)), MAX_POPULATE_ATTEMPTS, FoundBy(res), Searched(rng))
      ensures GuardsEvolve(old(guards), guards, stream.time, v.opts, v.hib)
    {
      hide DequesOk, GuardsOk, GuardsEvolve, ViewOk, ExitListOk, PathsLive, WellBuilt, Supports, Keyless, Searching;
      ghost var s := State();
      EvolveStart(guards, stream.time, v.opts, v.hib);
      var made := CreateCircuit(v, stream.time, true, StreamStable(stream), StreamTarget(stream), list, stream.Resolve?,
                                guards, rng);
      GuardsDoNotMatter(s, guards, needs, stream.time);
      if !made.Done? {
        OldPaths(s, guards, v);
        return if made.TapeEnded? then TapeEnded else Raised(made.error);
      }
      var circ := made.value.(dirtyTime := Some(stream.time));
      OldPaths(s, guards, v);
      NewDirtyOk(s.(guards := guards), made.value, v, stream, needs);
      dirty := [circ] + dirty;
      nextId := nextId + 1;
      assert State() == AddDirty(s.(guards := guards), circ);
      return Done(circ);
    }

    // ---------- the congestion-aware variant ----------

    // The eligible circuit with the smallest ping at creation, dirty ones first and ties to the left.
    method FindBest(v: View, stream: Stream) returns (best: Option<Circuit>, ghost k: nat)
      requires forall c :: c in dirty + clean ==> c.exit in v.descs
      ensures best == None ==> HasNone(dirty + clean, Eligible(stream, v.descs))
      ensures best.Some? ==> IsBest(dirty + clean, Eligible(stream, v.descs), k) && best.value == (dirty + clean)[k]
    {
      hide BestUpTo, IsBest, HasNone;
      ghost var circs, ok := dirty + clean, Eligible(stream, v.descs);
      assert circs[0..|dirty|] == dirty && circs[|dirty|..|dirty| + |clean|] == clean;
      BestNone(circs, ok);
      best, k := ScanForBest(dirty, circs, 0, None, 0, v, stream);
      best, k := ScanForBest(clean, circs, |dirty|, best, k, v, stream);
      BestAll(circs, ok, best, k);
    }

    // Every stream goes to the best eligible circuit there is, and a clean one is found again in
    // its deque by comparing dictionaries. The ping measured in use is stored with the circuit.
    method AssignStreamByPing(v: View, stream: Stream, needs: set<nat>, list: WeightedNodes, index: nat, rng: Random)
      returns (res: Outcome<Circuit>)
      requires StreamReady(State(), v, stream, needs, list)
      modifies this, rng
      ensures ClientOk(State(), v, needs, stream.time)
      ensures res.Raised? ==> res.error == NoNtorCircuit
      ensures res.Done? ==> res.value in dirty && Suits(stream, v.descs)(res.value)
      ensures res.Done? ==> AssignedByPing(old(State()), State(), v, stream, res.value, creationPing(old(nextId)), usePing(index))
      ensures !HasNone(old(dirty + clean), Eligible(stream, v.descs)) ==> res.Done? && rng.tape == old(rng.tape)
      ensures res.Raised? ==> Keyless(v, true, StreamStable(stream), StreamTarget(stream))
      ensures res.TapeEnded? ==> rng.tape == []
      ensures HasNone(old(dirty + clean), Eligible(stream, v.descs)) ==>
                Searching(StreamRequest(v, stream, list), old(Searched(rng)), MAX_POPULATE_ATTEMPTS, FoundBy(res), Searched(rng))
      ensures GuardsEvolve(old(guards), guards, stream.time, v.opts, v.hib)
    {
      hide ViewOk, DequesOk, GuardsOk, GuardsEvolve, ExitListOk, PathsLive, UseClean, SetPing, AddDirty, IsBest;
      hide MadeFor, HasNone, Keyless, Searching, FoundBy, StreamRequest, AssignedByPing;
      EvolveStart(guards, stream.time, v.opts, v.hib);
      ghost var s := State();
      ExitsKnown(s, v);
      var ping := usePing(index);
      var best, k := FindBest(v, stream);
      if best == None {
        res := AssignNew(v, stream, needs, list, rng);
        if res.Done? {
          ghost var t := State();
          AddDirtyHead(s.(guards := guards), res.value);
          PingedPath(t, 0, ping);
          res := SetAvgPing(res.value, ping, 0, v, stream, needs);
          NewByPing(s, t, State(), v, stream, res.value, creationPing(s.nextId), ping);
        }
        return;
      }
      BestIsSome(dirty + clean, Eligible(stream, v.descs), k);
      BestDirtyTime(s, needs, stream, v.descs, k);
      if best.value.dirtyTime == None {
        EqualIsChosen(s, stream, v.descs, k);
        var found, j := TakeClean(SameDictionary(best.value), stream.time, needs);
        assert found && j == k - |s.dirty|;
        UseCleanClientOk(s, j, v, needs, stream.time);
        UseCleanHead(s, j, stream.time);
        res := SetAvgPing(best.value.(dirtyTime := Some(stream.time)), ping, 0, v, stream, needs);
        MovedByPing(s, State(), v, stream, res.value, k, ping);
      } else {
        res := SetAvgPing(best.value, ping, k, v, stream, needs);
        DirtyByPing(s, State(), v, stream, res.value, k, ping);
      }
    }

    // Stores a ping with the object that has the identity of the given circuit, wherever it is.
    method SetAvgPing(circuit: Circuit, ping: real, ghost k: nat, ghost v: View, ghost stream: Stream, ghost needs: set<nat>)
      returns (res: Outcome<Circuit>)
      requires ClientOk(State(), v, needs, stream.time) && Suits(stream, v.descs)(circuit)
      requires k < |dirty| && dirty[k] == circuit
      modifies this`clean, this`dirty
      ensures ClientOk(State(), v, needs, stream.time) && State() == SetPing(old(State()), k, ping)
      ensures k < |dirty| && res == Done(dirty[k]) && dirty[k] in dirty && Suits(stream, v.descs)(dirty[k])
    {
      ghost var s := State();
      SetPingClientOk(s, k, ping, v, needs, stream);
      PingByIdOnly(s, k, ping);
      SetPingById(circuit.id, ping);
      assert State() == SetPing(s, k, ping);
      return Done(circuit.(avgPing := Some(ping)));
    }

    method SetPingById(id: nat, ping: real)
      modifies this`clean, this`dirty
      ensures clean == PingById(old(clean), id, ping) && dirty == PingById(old(dirty), id, ping)
    {
      clean := PingDeque(clean, id, ping);
      dirty := PingDeque(dirty, id, ping);
    }

    // ---------- port needs come and go ----------

    // The first need of all, before there are any circuits.
    method SeedPortNeed(port: nat)
      modifies this`covered
      ensures covered == old(covered)[port := 0]
    {
      covered := covered[port := 0];
    }

    // A new need counts the clean circuits that suit it already.
    method AddPortNeed(port: nat, need: Need, descs: Descriptors)
      requires forall c :: c in clean ==> c.exit in descs
      modifies this`clean, this`covered
      ensures State() == AddNeed(old(State()), port, SuitsNeed(port, need, descs))
    {
      hide CircuitCovers, Keep;
      ghost var s, ok := State(), SuitsNeed(port, need, descs);
      KeepNone(ok);
      covered := covered[port := 0];
      for i := 0 to |clean|
        invariant |clean| == |s.clean|
        invariant forall j :: 0 <= j < i ==> clean[j] == WithPort(s.clean, port, ok)[j]
        invariant forall j :: i <= j < |clean| ==> clean[j] == s.clean[j]
        invariant covered == s.covered[port := |Keep(s.clean[..i], ok)|]
      {
        KeepStep(s.clean, ok, i);
        assert s.clean[i] in s.clean && clean[i] == s.clean[i];
        if CircuitCovers(clean[i], descs, port, need) {
          covered := covered[port := covered[port] + 1];
          clean := clean[i := clean[i].(covering := clean[i].covering + {port})];
        }
      }
      assert s.clean[..|clean|] == s.clean;
    }

    // An expired need is forgotten, by the counters and by the circuits.
    method RemovePortNeed(port: nat)
      requires port in covered
      modifies this`clean, this`covered
      ensures State() == RemoveNeed(old(State()), port)
    {
      ghost var s := State();
      covered := covered - {port};
      for i := 0 to |clean|
        invariant |clean| == |s.clean|
        invariant forall j :: 0 <= j < i ==> clean[j] == WithoutPort(s.clean, port)[j]
        invariant forall j :: i <= j < |clean| ==> clean[j] == s.clean[j]
        invariant covered == s.covered - {port}
      {
        clean := clean[i := clean[i].(covering := clean[i].covering - {port})];
      }
    }
  }

  function SuitsNeed(port: nat, need: Need, descs: Descriptors): Circuit -> bool
  {
    (c: Circuit) => c.exit in descs && CircuitCovers(c, descs, port, need)
  }

  method PingDeque(circs: seq<Circuit>, id: nat, ping: real) returns (r: seq<Circuit>)
    ensures r == PingById(circs, id, ping)
  {
    r := [];
    for i := 0 to |circs|
      invariant |r| == i && forall j :: 0 <= j < i ==> r[j] == PingById(circs, id, ping)[j]
    {
      r := r + [if circs[i].id == id then circs[i].(avgPing := Some(ping)) else circs[i]];
    }
  }

  lemma PathKnown(guard: Fp, middle: Fp, exit: Fp, v: View, fast: bool, stable: bool, target: Target)
    requires ViewOk(v) && PathFits(guard, middle, exit, v, fast, stable, target)
    ensures guard in v.descs && middle in v.descs && exit in v.descs
    ensures !HasKey(guard, middle, exit, v.descs) ==> Keyless(v, fast, stable, target)
  {
    hide Drawable, Weighed, ExitFilter, FarApart;
  }

  lemma PathChosen(guard: Fp, middle: Fp, exit: Fp, v: View, fast: bool, stable: bool, target: Target)
    requires ViewOk(v) && exit in v.stats && !v.hib[exit] && ExitFilter(exit, v.stats, v.descs, fast, stable, target, false)
    requires guard in v.stats && RelayFits(guard, v, fast, stable) && Guard in v.stats[guard].flags && FarApart(exit, guard, v.descs)
    requires middle in v.stats && !v.hib[middle] && MiddleFits(middle, v.stats, v.descs, fast, stable, Some(exit), Some(guard))
    ensures PathFits(guard, middle, exit, v, fast, stable, target)
  {
    ExitFitsFlags(exit, v, fast, stable, target);
    hide Drawable, Weighed, FarApart, ExitFilter;
  }

  lemma BuiltWell(c: Circuit, v: View, time: int, fast: bool, stable: bool, target: Target)
    requires ViewOk(v) && PathFits(c.guard, c.middle, c.exit, v, fast, stable, target)
    requires c.guard in v.descs && c.middle in v.descs && c.exit in v.descs && HasKey(c.guard, c.middle, c.exit, v.descs)
    requires c.time == time && c.fast == fast && c.stable == stable && !c.internal && c.dirtyTime == None
    requires c.covering == {} && c.avgPing == None
    ensures WellBuilt(c, v, time, fast, stable, target)
  {}

  lemma ExitFitsFlags(r: Fp, v: View, fast: bool, stable: bool, target: Target)
    requires r in v.stats && r in v.descs && ExitFilter(r, v.stats, v.descs, fast, stable, target, false)
    ensures Running in v.stats[r].flags && (!fast || Fast in v.stats[r].flags) && (!stable || Stable in v.stats[r].flags)
  {}

  // ---------- relays that went down ----------

  // Whether a circuit has no relay that is down, and whether that can be asked of all its relays.
  ghost predicate PathAsks(c: Circuit, down: Fp --> bool)
  {
    down.requires(c.guard) && down.requires(c.middle) && down.requires(c.exit)
  }

  predicate PathUp(c: Circuit, down: Fp --> bool)
    requires PathAsks(c, down)
  {
    !down(c.guard) && !down(c.middle) && !down(c.exit)
  }

  ghost function Up(down: Fp --> bool): Circuit -> bool
  {
    (c: Circuit) => PathAsks(c, down) ==> PathUp(c, down)
  }

  predicate IsDown(r: Fp, stats: RelStats) { r !in stats || Running !in stats[r].flags }

  function RelayDown(stats: RelStats): Fp -> bool
  {
    (r: Fp) => IsDown(r, stats)
  }

  // ---------- the invariant of a client ----------

  ghost predicate ClientOk(s: ClientState, v: View, needs: set<nat>, now: int)
  {
    DequesOk(s, needs, now) && GuardsOk(s.guards, v.stats, v.descs, now) && PathsLive(s, v.stats, v.hib)
  }

  // No live circuit has a hibernating relay.
  ghost predicate AllAwake(s: ClientState, hib: map<Fp, bool>)
  {
    forall c :: c in s.clean + s.dirty ==> PathAwake(c, hib)
  }

  // Every live circuit is young enough at the given time.
  ghost predicate AllYoung(s: ClientState, time: int)
  {
    (forall c :: c in s.clean ==> YoungClean(time)(c)) && (forall c :: c in s.dirty ==> YoungDirty(time)(c))
  }

  ghost predicate AllFit(s: ClientState, time: int, hib: map<Fp, bool>)
  {
    AllAwake(s, hib) && AllYoung(s, time)
  }

  ghost predicate PathAwake(c: Circuit, hib: map<Fp, bool>)
  {
    c.guard in hib && c.middle in hib && c.exit in hib && !hib[c.guard] && !hib[c.middle] && !hib[c.exit]
  }

  lemma DequesBasics(s: ClientState, needs: set<nat>, now: int)
    requires DequesOk(s, needs, now)
    ensures s.covered.Keys == needs && |s.clean| <= MAX_UNUSED_OPEN_CIRCUITS
    ensures forall c :: c in s.clean ==> c.covering <= s.covered.Keys
    ensures forall c :: c in s.dirty ==> c.dirtyTime.Some?
  {}

  // The needs a circuit suits.
  ghost function CoverSet(c: Circuit, needs: Needs, descs: Descriptors): set<nat>
    requires c.exit in descs
  {
    set p | p in needs && CircuitCovers(c, descs, p, needs[p])
  }

  // Nothing but new clean circuits, each made for one of the needs and covering all it suits, and
  // no port is covered less than before.
  ghost predicate CoversMore(s: ClientState, s': ClientState, v: View, needs: Needs, time: int)
  {
    && s'.dirty == s.dirty && |s.clean| <= |s'.clean| && s'.clean[|s'.clean| - |s.clean|..] == s.clean
    && s'.covered.Keys == s.covered.Keys && (forall p :: p in s.covered ==> s'.covered[p] >= s.covered[p])
    && forall i :: 0 <= i < |s'.clean| - |s.clean| ==> MadeForNeed(s'.clean[i], v, needs, time)
  }

  ghost predicate MadeForNeed(c: Circuit, v: View, needs: Needs, time: int)
  {
    && ViewOk(v) && c.exit in v.descs && c.covering == CoverSet(c, needs, v.descs)
    && exists port :: port in needs && WellBuilt(c.(covering := {}), v, time, needs[port].fast, needs[port].stable, PortOnly(port))
  }

  // Ready to make circuits for a need.
  ghost predicate CoverReady(s: ClientState, time: int, v: View, needs: Needs, port: nat, list: WeightedNodes, start: Guards)
  {
    && ViewOk(v) && v.validAfter <= time < v.freshUntil
    && ClientOk(s, v, needs.Keys, time) && AllFit(s, time, v.hib) && GuardsEvolve(start, s.guards, time, v.opts, v.hib)
    && port in needs && ExitListOk(v, list, true, needs[port].fast, needs[port].stable, PortOnly(port))
  }

  lemma ReadyMeans(s: ClientState, time: int, v: View, needs: Needs, port: nat, list: WeightedNodes, start: Guards)
    requires CoverReady(s, time, v, needs, port, list, start)
    ensures v.opts.Valid() && port in needs && port in s.covered && |s.clean| <= MAX_UNUSED_OPEN_CIRCUITS
  {
    hide ExitListOk, GuardsEvolve, AllFit, GuardsOk, PathsLive;
  }

  lemma CoversMoreStart(s: ClientState, v: View, needs: Needs, time: int)
    ensures CoversMore(s, s, v, needs, time)
  {}

  lemma CoversMoreTwice(s: ClientState, s': ClientState, s'': ClientState, v: View, needs: Needs, time: int)
    requires CoversMore(s, s', v, needs, time) && CoversMore(s', s'', v, needs, time)
    ensures CoversMore(s, s'', v, needs, time)
  {
    hide MadeForNeed;
    var m, n := |s''.clean| - |s'.clean|, |s''.clean| - |s.clean|;
    assert s''.clean[m..] == s'.clean;
    forall i | 0 <= i < n ensures MadeForNeed(s''.clean[i], v, needs, time) {
      if i >= m {
        assert s''.clean[i] == s''.clean[m..][i - m];
      }
    }
    assert s''.clean[n..] == s''.clean[m..][|s'.clean| - |s.clean|..];
  }

  // A failed attempt has only touched the guards.
  lemma GuardsOnlyOk(s: ClientState, guards: Guards, time: int, v: View, needs: Needs, port: nat, list: WeightedNodes,
                     start: Guards)
    requires CoverReady(s, time, v, needs, port, list, start)
    requires GuardsOk(guards, v.stats, v.descs, time) && GuardsEvolve(start, guards, time, v.opts, v.hib)
    ensures CoverReady(s.(guards := guards), time, v, needs, port, list, start) && CoversMore(s, s.(guards := guards), v, needs, time)
    ensures |s.clean| <= MAX_UNUSED_OPEN_CIRCUITS
  {
    hide ViewOk, ExitListOk, GuardsOk, GuardsEvolve;
  }

  lemma NewCircuitOk(s: ClientState, guards: Guards, circ: Circuit, time: int, v: View, needs: Needs, port: nat,
                     list: WeightedNodes, start: Guards)
    requires CoverReady(s, time, v, needs, port, list, start) && |s.clean| < MAX_UNUSED_OPEN_CIRCUITS
    requires GuardsOk(guards, v.stats, v.descs, time) && GuardsEvolve(start, guards, time, v.opts, v.hib)
    requires circ.id == s.nextId && WellBuilt(circ, v, time, needs[port].fast, needs[port].stable, PortOnly(port))
    ensures circ.exit in v.descs && CircuitCovers(circ, v.descs, port, needs[port]) && circ.covering == {}
    ensures port in s.covered && s.covered.Keys == needs.Keys
    ensures var s' := AddClean(s.(guards := guards), circ.(covering := CoverSet(circ, needs, v.descs)));
            && CoverReady(s', time, v, needs, port, list, start) && CoversMore(s, s', v, needs, time)
            && port in s'.covered && s'.covered[port] == s.covered[port] + 1 && |s'.clean| == |s.clean| + 1
            && MadeForNeed(circ.(covering := CoverSet(circ, needs, v.descs)), v, needs, time)
  {
    hide ViewOk, ExitListOk, GuardsOk, GuardsEvolve, PathLive, PathAwake, WellBuilt, MadeForNeed, CircuitCovers, AddClean;
    hide CoversMore, DequesOk;
    NewCircuitMade(circ, time, v, needs, port);
    var c := circ.(covering := CoverSet(circ, needs, v.descs));
    hide CoverSet;
    var t := s.(guards := guards);
    GuardsDoNotMatter(s, guards, needs.Keys, time);
    AddCleanOk(t, c, needs.Keys, time);
    AddCleanMore(s, guards, c, v, needs, time);
    assert PathsLive(t, v.stats, v.hib) && AllFit(t, time, v.hib);
    hide PathsLive, AllFit;
    AddCleanPaths(t, c, v);
  }

  // A well-built circuit as a cover for everything it suits.
  lemma NewCircuitMade(circ: Circuit, time: int, v: View, needs: Needs, port: nat)
    requires ViewOk(v) && port in needs
    requires WellBuilt(circ, v, time, needs[port].fast, needs[port].stable, PortOnly(port))
    ensures circ.exit in v.descs && CircuitCovers(circ, v.descs, port, needs[port]) && circ.covering == {}
    ensures var c := circ.(covering := CoverSet(circ, needs, v.descs));
            && MadeForNeed(c, v, needs, time) && PathLive(c, v.stats, v.hib) && PathAwake(c, v.hib)
            && port in c.covering && c.covering <= needs.Keys && c.time == time && c.dirtyTime == None && c.id == circ.id
  {
    WellBuiltBasics(circ, v, time, needs[port].fast, needs[port].stable, port);
    var c := circ.(covering := CoverSet(circ, needs, v.descs));
    hide ViewOk;
    CoverSetSame(circ, c.covering, needs, v.descs);
    assert c.(covering := {}) == circ;
    hide WellBuilt, PathLive, PathAwake;
    SamePathWith(circ, c.covering, v);
    CoverSetBasics(circ, needs, v.descs, port);
  }

  lemma SamePathWith(circ: Circuit, covering: set<nat>, v: View)
    requires PathLive(circ, v.stats, v.hib) && PathAwake(circ, v.hib)
    ensures PathLive(circ.(covering := covering), v.stats, v.hib) && PathAwake(circ.(covering := covering), v.hib)
  {}

  lemma GuardsDoNotMatter(s: ClientState, guards: Guards, needs: set<nat>, now: int)
    requires DequesOk(s, needs, now)
    ensures DequesOk(s.(guards := guards), needs, now)
  {}

  lemma CoverSetBasics(c: Circuit, needs: Needs, descs: Descriptors, port: nat)
    requires c.exit in descs && port in needs && c.fast == needs[port].fast && c.stable == needs[port].stable
    requires CanExitToPort(descs[c.exit].exitPolicy, port)
    ensures CircuitCovers(c, descs, port, needs[port]) && port in CoverSet(c, needs, descs)
    ensures CoverSet(c, needs, descs) <= needs.Keys
  {}

  lemma AddCleanFirst(s: ClientState, c: Circuit)
    ensures AddClean(s, c).clean != [] && AddClean(s, c).clean[0] == c
  {}

  lemma CoverSetSame(c: Circuit, covering: set<nat>, needs: Needs, descs: Descriptors)
    requires c.exit in descs
    ensures CoverSet(c.(covering := covering), needs, descs) == CoverSet(c, needs, descs)
  {}

  lemma AddCleanMore(s: ClientState, guards: Guards, c: Circuit, v: View, needs: Needs, time: int)
    requires DequesOk(s, needs.Keys, time) && MadeForNeed(c, v, needs, time)
    ensures var s' := AddClean(s.(guards := guards), c);
            && CoversMore(s, s', v, needs, time) && |s'.clean| == |s.clean| + 1 && s'.covered.Keys == s.covered.Keys == needs.Keys
            && s'.guards == guards
            && forall p :: p in c.covering && p in s.covered ==> s'.covered[p] == s.covered[p] + 1
  {
    hide MadeForNeed;
  }

  lemma WellBuiltBasics(circ: Circuit, v: View, time: int, fast: bool, stable: bool, port: nat)
    requires ViewOk(v) && WellBuilt(circ, v, time, fast, stable, PortOnly(port))
    ensures PathLive(circ, v.stats, v.hib) && PathAwake(circ, v.hib)
    ensures circ.exit in v.descs && CanExitToPort(v.descs[circ.exit].exitPolicy, port)
    ensures circ.time == time && circ.fast == fast && circ.stable == stable && circ.dirtyTime == None && circ.covering == {}
  {
    hide Drawable, Weighed, FarApart;
  }

  lemma AddCleanPaths(s: ClientState, c: Circuit, v: View)
    requires PathsLive(s, v.stats, v.hib) && AllFit(s, c.time, v.hib) && PathLive(c, v.stats, v.hib) && PathAwake(c, v.hib)
    ensures PathsLive(AddClean(s, c), v.stats, v.hib) && AllFit(AddClean(s, c), c.time, v.hib)
  {
    hide PathLive, PathAwake;
    var s' := AddClean(s, c);
    forall d | d in s'.clean + s'.dirty ensures PathLive(d, v.stats, v.hib) && PathAwake(d, v.hib) {
      if d != c {
        assert d in s.clean + s.dirty;
      }
    }
  }

  // ---------- one minute of a client ----------

  function YoungDirty(time: int): Circuit -> bool
  {
    (c: Circuit) => c.dirtyTime.Some? && c.dirtyTime.value > time - MAX_CIRCUIT_DIRTINESS
  }

  function YoungClean(time: int): Circuit -> bool
  {
    (c: Circuit) => c.time > time - CIRCUIT_IDLE_TIMEOUT
  }

  function Hibernating(hib: map<Fp, bool>): Fp --> bool
  {
    (r: Fp) requires r in hib => hib[r]
  }

  // Without the circuits that are too old or have a hibernating relay.
  ghost function Swept(s: ClientState, time: int, hib: map<Fp, bool>): ClientState
  {
    var young := KeepClean(KeepDirty(s, YoungDirty(time)), YoungClean(time));
    KeepClean(KeepDirty(young, Up(Hibernating(hib))), Up(Hibernating(hib)))
  }

  lemma SweptOk(s: ClientState, v: View, needs: set<nat>, time: int)
    requires ClientOk(s, v, needs, time)
    ensures var t := KeepClean(KeepDirty(s, YoungDirty(time)), YoungClean(time));
            DequesOk(t, needs, time) && PathsLive(t, v.stats, v.hib)
    ensures ClientOk(Swept(s, time, v.hib), v, needs, time) && AllFit(Swept(s, time, v.hib), time, v.hib)
  {
    hide DequesOk, GuardsOk, PathLive;
    var up := Up(Hibernating(v.hib));
    var s1 := KeepDirty(s, YoungDirty(time));
    var s2 := KeepClean(s1, YoungClean(time));
    var s3 := KeepDirty(s2, up);
    var s4 := KeepClean(s3, up);
    KeepDirtyOk(s, YoungDirty(time), needs, time);
    KeepCleanOk(s1, YoungClean(time), needs, time);
    KeepDirtyOk(s2, up, needs, time);
    KeepCleanOk(s3, up, needs, time);
    KeepPaths(s, YoungDirty(time), YoungClean(time), v);
    KeepPaths(s2, up, up, v);
    SweptAwake(s2, v);
    SweptYoung(s, up, time);
  }

  lemma SweptYoung(s: ClientState, up: Circuit -> bool, time: int)
    ensures AllYoung(KeepClean(KeepDirty(KeepClean(KeepDirty(s, YoungDirty(time)), YoungClean(time)), up), up), time)
  {
    var clean, dirty := Keep(s.clean, YoungClean(time)), Keep(s.dirty, YoungDirty(time));
    forall c ensures (c in Keep(clean, up) ==> YoungClean(time)(c)) && (c in Keep(dirty, up) ==> YoungDirty(time)(c)) {
      KeepMembers(s.clean, YoungClean(time), c);
      KeepMembers(clean, up, c);
      KeepMembers(s.dirty, YoungDirty(time), c);
      KeepMembers(dirty, up, c);
    }
  }

  lemma KeepPaths(s: ClientState, ok: Circuit -> bool, ok': Circuit -> bool, v: View)
    requires PathsLive(s, v.stats, v.hib)
    ensures PathsLive(KeepClean(KeepDirty(s, ok), ok'), v.stats, v.hib)
  {
    hide PathLive;
    forall c | c in Keep(s.clean, ok') + Keep(s.dirty, ok) ensures PathLive(c, v.stats, v.hib) {
      KeepMembers(s.clean, ok', c);
      KeepMembers(s.dirty, ok, c);
      assert c in s.clean + s.dirty;
    }
  }

  lemma SweptAwake(s: ClientState, v: View)
    requires PathsLive(s, v.stats, v.hib)
    ensures AllAwake(KeepClean(KeepDirty(s, Up(Hibernating(v.hib))), Up(Hibernating(v.hib))), v.hib)
  {
    var up := Up(Hibernating(v.hib));
    forall c | c in Keep(s.clean, up) + Keep(s.dirty, up) ensures PathAwake(c, v.hib) {
      KeepMembers(s.clean, up, c);
      KeepMembers(s.dirty, up, c);
      assert c in s.clean + s.dirty;
      assert PathLive(c, v.stats, v.hib);
      assert PathAsks(c, Hibernating(v.hib)) && up(c);
    }
  }

  lemma LivePathsAsk(s: ClientState, v: View)
    requires PathsLive(s, v.stats, v.hib)
    ensures forall c :: c in s.clean + s.dirty ==> PathAsks(c, Hibernating(v.hib))
  {
    forall c | c in s.clean + s.dirty ensures PathAsks(c, Hibernating(v.hib)) {
      assert PathLive(c, v.stats, v.hib);
    }
  }

  // Every port need has its exact exit list.
  ghost predicate ExitListsOk(v: View, needs: Needs, exits: map<nat, WeightedNodes>)
  {
    forall p :: p in needs ==>
      p in exits && ExitListOk(v, exits[p], true, needs[p].fast, needs[p].stable, PortOnly(p))
  }

  ghost predicate NeedMet(s: ClientState, port: nat, need: Need)
  {
    port in s.covered && (s.covered[port] >= need.coverNum || |s.clean| == MAX_UNUSED_OPEN_CIRCUITS)
  }

  // ---------- how the needs are covered ----------

  // What covering changes: the client and the tape.
  datatype Progress = Progress(state: ClientState, tape: seq<Draw>)

  // One search, whose circuit becomes the newest clean one.
  ghost predicate CoverStep(v: View, time: int, needs: Needs, port: nat, list: WeightedNodes, s: Progress, res: Outcome<()>, t: Progress)
    requires v.opts.Valid() && port in needs
  {
    exists found, u ::
      Searching(NeedRequest(v, time, port, needs[port], list), Search(s.state.guards, s.tape), MAX_POPULATE_ATTEMPTS, found, u) &&
      t.tape == u.tape && CoveredBy(v, time, needs, s.state.(guards := u.guards), found, res, t.state)
  }

  function NeedRequest(v: View, time: int, port: nat, need: Need, list: WeightedNodes): Request
  {
    Request(v, time, need.fast, need.stable, PortOnly(port), list)
  }

  ghost predicate CoveredBy(v: View, time: int, needs: Needs, s: ClientState, found: Found, res: Outcome<()>, s': ClientState)
  {
    match found
    case TapeOut => res == TapeEnded && s' == s
    case NoKey => res == Raised(NoNtorCircuit) && s' == s
    case Path(_, _, _) =>
      res == Done(()) && s'.clean != [] && FoundBy(Done(s'.clean[0])) == found &&
      s' == AddClean(s, s'.clean[0]) && MadeForNeed(s'.clean[0], v, needs, time)
  }

  // How often the need is still to be covered.
  ghost function Missing(s: ClientState, port: nat, need: Need): nat
  {
    if port in s.covered && s.covered[port] < need.coverNum then need.coverNum - s.covered[port] else 0
  }

  // Searches for one need until it is met or one of them fails.
  ghost predicate CoveringNeed(v: View, time: int, needs: Needs, port: nat, list: WeightedNodes, s: Progress, res: Outcome<()>, t: Progress)
    requires v.opts.Valid() && port in needs
    decreases Missing(s.state, port, needs[port])
  {
    if NeedMet(s.state, port, needs[port]) then res == Done(()) && t == s
    else exists r, u ::
           CoverStep(v, time, needs, port, list, s, r, u) &&
           (if !r.Done? then res == r && t == u
            else Missing(u.state, port, needs[port]) < Missing(s.state, port, needs[port]) &&
                 CoveringNeed(v, time, needs, port, list, u, res, t))
  }

  ghost predicate StillCovering(v: View, time: int, needs: Needs, port: nat, list: WeightedNodes, from: Progress, s: Progress)
    requires v.opts.Valid() && port in needs
  {
    forall res, t :: CoveringNeed(v, time, needs, port, list, s, res, t) ==> CoveringNeed(v, time, needs, port, list, from, res, t)
  }

  lemma RequestIs(v: View, time: int, port: nat, need: Need, list: WeightedNodes)
    ensures Request(v, time, need.fast, need.stable, PortOnly(port), list) == NeedRequest(v, time, port, need, list)
  {}

  lemma SearchFailed(v: View, time: int, needs: Needs, s: ClientState, made: Outcome<Circuit>, res: Outcome<()>)
    requires made.TapeEnded? || made == Raised(NoNtorCircuit)
    requires res == if made.TapeEnded? then TapeEnded else Raised(made.error)
    ensures CoveredBy(v, time, needs, s, FoundBy(made), res, s)
  {}

  lemma SearchSucceeded(v: View, time: int, needs: Needs, s: ClientState, made: Outcome<Circuit>, s': ClientState)
    requires made.Done? && s'.clean != [] && s' == AddClean(s, s'.clean[0]) && MadeForNeed(s'.clean[0], v, needs, time)
    requires s'.clean[0] == made.value.(covering := s'.clean[0].covering)
    ensures CoveredBy(v, time, needs, s, FoundBy(made), Done(()), s')
  {
    hide MadeForNeed, AddClean;
  }

  lemma CoverStepIs(v: View, time: int, needs: Needs, port: nat, list: WeightedNodes, s: Progress, found: Found, u: Search,
                    res: Outcome<()>, t: Progress)
    requires v.opts.Valid() && port in needs && t.tape == u.tape
    requires Searching(NeedRequest(v, time, port, needs[port], list), Search(s.state.guards, s.tape), MAX_POPULATE_ATTEMPTS, found, u)
    requires CoveredBy(v, time, needs, s.state.(guards := u.guards), found, res, t.state)
    ensures CoverStep(v, time, needs, port, list, s, res, t)
  {
    hide Searching, CoveredBy;
  }

  lemma CoveringStart(v: View, time: int, needs: Needs, port: nat, list: WeightedNodes, s: Progress)
    requires v.opts.Valid() && port in needs
    ensures StillCovering(v, time, needs, port, list, s, s)
  {}

  lemma CoveringEnds(v: View, time: int, needs: Needs, port: nat, list: WeightedNodes, from: Progress, s: Progress, r: Outcome<()>, u: Progress)
    requires v.opts.Valid() && port in needs && !NeedMet(s.state, port, needs[port]) && StillCovering(v, time, needs, port, list, from, s)
    requires CoverStep(v, time, needs, port, list, s, r, u) && !r.Done?
    ensures CoveringNeed(v, time, needs, port, list, from, r, u)
  {
    hide CoverStep, NeedMet;
    assert CoveringNeed(v, time, needs, port, list, s, r, u);
  }

  lemma CoveringDone(v: View, time: int, needs: Needs, port: nat, list: WeightedNodes, from: Progress, s: Progress)
    requires v.opts.Valid() && port in needs && NeedMet(s.state, port, needs[port]) && StillCovering(v, time, needs, port, list, from, s)
    ensures CoveringNeed(v, time, needs, port, list, from, Done(()), s)
  {
    CoveringMet(v, time, needs, port, list, s);
  }

  lemma MissingLess(s: ClientState, s': ClientState, port: nat, need: Need)
    requires port in s.covered && port in s'.covered && s'.covered[port] == s.covered[port] + 1 && s.covered[port] < need.coverNum
    ensures Missing(s', port, need) < Missing(s, port, need)
  {}

  lemma ListedExits(v: View, needs: Needs, exits: map<nat, WeightedNodes>)
    requires ExitListsOk(v, needs, exits)
    ensures needs.Keys <= exits.Keys
  {}

  lemma CoveringMet(v: View, time: int, needs: Needs, port: nat, list: WeightedNodes, s: Progress)
    requires v.opts.Valid() && port in needs && NeedMet(s.state, port, needs[port])
    ensures CoveringNeed(v, time, needs, port, list, s, Done(()), s)
  {
    hide NeedMet;
  }

  lemma StillCoveringNext(v: View, time: int, needs: Needs, port: nat, list: WeightedNodes, from: Progress, s: Progress,
                          r: Outcome<()>, u: Progress)
    requires v.opts.Valid() && port in needs && !NeedMet(s.state, port, needs[port])
    requires r.Done? && CoverStep(v, time, needs, port, list, s, r, u) && Missing(u.state, port, needs[port]) < Missing(s.state, port, needs[port])
    requires StillCovering(v, time, needs, port, list, from, s)
    ensures StillCovering(v, time, needs, port, list, from, u)
  {
    hide CoverStep, NeedMet, Missing;
    forall res, t | CoveringNeed(v, time, needs, port, list, u, res, t) ensures CoveringNeed(v, time, needs, port, list, from, res, t) {
      assert CoverStep(v, time, needs, port, list, s, r, u);
      assert CoveringNeed(v, time, needs, port, list, s, res, t);
    }
  }

  // All needs in some order of the dictionary.
  ghost predicate CoveringAll(v: View, time: int, needs: Needs, exits: map<nat, WeightedNodes>, todo: set<nat>,
                              s: Progress, res: Outcome<()>, t: Progress)
    requires v.opts.Valid() && todo <= needs.Keys && needs.Keys <= exits.Keys
    decreases |todo|
  {
    if todo == {} then res == Done(()) && t == s
    else exists port, r, u ::
           port in todo && CoveringNeed(v, time, needs, port, exits[port], s, r, u) &&
           (if !r.Done? then res == r && t == u else CoveringAll(v, time, needs, exits, todo - {port}, u, res, t))
  }

  ghost predicate StillCoveringAll(v: View, time: int, needs: Needs, exits: map<nat, WeightedNodes>, from: Progress, todo: set<nat>, s: Progress)
    requires v.opts.Valid() && todo <= needs.Keys && needs.Keys <= exits.Keys
  {
    forall res, t :: CoveringAll(v, time, needs, exits, todo, s, res, t) ==> CoveringAll(v, time, needs, exits, needs.Keys, from, res, t)
  }

  lemma CoveringAllStart(v: View, time: int, needs: Needs, exits: map<nat, WeightedNodes>, s: Progress)
    requires v.opts.Valid() && needs.Keys <= exits.Keys
    ensures StillCoveringAll(v, time, needs, exits, s, needs.Keys, s)
  {}

  lemma CoveringAllEnds(v: View, time: int, needs: Needs, exits: map<nat, WeightedNodes>, from: Progress, todo: set<nat>, s: Progress,
                        port: nat, r: Outcome<()>, u: Progress)
    requires v.opts.Valid() && todo <= needs.Keys && needs.Keys <= exits.Keys && StillCoveringAll(v, time, needs, exits, from, todo, s)
    requires port in todo && CoveringNeed(v, time, needs, port, exits[port], s, r, u) && !r.Done?
    ensures CoveringAll(v, time, needs, exits, needs.Keys, from, r, u)
  {
    hide CoveringNeed;
    assert CoveringAll(v, time, needs, exits, todo, s, r, u);
  }

  // With all needs met nothing is changed and no draw is used.
  lemma {:induction false} NothingToCover(v: View, time: int, needs: Needs, exits: map<nat, WeightedNodes>, todo: set<nat>,
                                          s: Progress, res: Outcome<()>, t: Progress)
    requires v.opts.Valid() && todo <= needs.Keys && needs.Keys <= exits.Keys && NeedsMet(s.state, needs)
    requires CoveringAll(v, time, needs, exits, todo, s, res, t)
    ensures res.Done? && t == s
    decreases |todo|
  {
    hide NeedMet, CoverStep;
    if todo != {} {
      var port, r, u :|
        port in todo && CoveringNeed(v, time, needs, port, exits[port], s, r, u) &&
        (if !r.Done? then res == r && t == u else CoveringAll(v, time, needs, exits, todo - {port}, u, res, t));
      assert NeedMet(s.state, port, needs[port]);
      NothingToCover(v, time, needs, exits, todo - {port}, u, res, t);
    }
  }

  lemma CoveringAllDone(v: View, time: int, needs: Needs, exits: map<nat, WeightedNodes>, from: Progress, todo: set<nat>, s: Progress,
                        res: Outcome<()>)
    requires v.opts.Valid() && todo == {} && needs.Keys <= exits.Keys && StillCoveringAll(v, time, needs, exits, from, todo, s)
    requires res == Done(())
    ensures CoveringAll(v, time, needs, exits, needs.Keys, from, res, s)
  {
    assert CoveringAll(v, time, needs, exits, todo, s, res, s);
  }

  lemma StillCoveringAllNext(v: View, time: int, needs: Needs, exits: map<nat, WeightedNodes>, from: Progress, todo: set<nat>, s: Progress,
                             port: nat, r: Outcome<()>, u: Progress)
    requires v.opts.Valid() && todo <= needs.Keys && needs.Keys <= exits.Keys && StillCoveringAll(v, time, needs, exits, from, todo, s)
    requires port in todo && CoveringNeed(v, time, needs, port, exits[port], s, r, u) && r.Done?
    ensures StillCoveringAll(v, time, needs, exits, from, todo - {port}, u)
  {
    hide CoveringNeed;
    forall res, t | CoveringAll(v, time, needs, exits, todo - {port}, u, res, t) ensures CoveringAll(v, time, needs, exits, needs.Keys, from, res, t) {
      assert CoveringNeed(v, time, needs, port, exits[port], s, r, u);
      assert CoveringAll(v, time, needs, exits, todo, s, res, t);
    }
  }

  lemma NeedMetIs(s: ClientState, port: nat, need: Need)
    ensures NeedMet(s, port, need) <==> port in s.covered && (s.covered[port] >= need.coverNum || |s.clean| == MAX_UNUSED_OPEN_CIRCUITS)
  {}

  // Some need could get a circuit without any ntor key.
  ghost predicate NoKeyFor(v: View, needs: Needs)
  {
    exists p :: p in needs && Keyless(v, needs[p].fast, needs[p].stable, PortOnly(p))
  }

  // Every need is covered as often as it asks, unless there is no room for more clean circuits.
  ghost predicate NeedsMet(s: ClientState, needs: Needs)
  {
    forall p :: p in needs ==> NeedMet(s, p, needs[p])
  }

  lemma NeedsStayMet(s: ClientState, s': ClientState, v: View, needs: Needs, todo: set<nat>, port: nat, now: int)
    requires CoversMore(s, s', v, needs, now) && DequesOk(s', needs.Keys, now) && port in needs
    requires forall p :: p in needs && p !in todo ==> NeedMet(s, p, needs[p])
    requires NeedMet(s', port, needs[port])
    ensures forall p :: p in needs && p !in todo - {port} ==> NeedMet(s', p, needs[p])
  {}

  // ---------- one stream of a client ----------

  function StreamTarget(stream: Stream): Target
  {
    match stream
    case Connect(_, ip, port) => AddressPort(ip, port)
    case Resolve(_) => AnyTarget
  }

  function StreamRequest(v: View, stream: Stream, list: WeightedNodes): Request
  {
    Request(v, stream.time, true, StreamStable(stream), StreamTarget(stream), list)
  }

  predicate StreamStable(stream: Stream) { stream.Connect? && stream.port in LONG_LIVED_PORTS }

  // The exits are listed exactly for a resolve stream, and by the port only for a connect stream.
  ghost predicate StreamReady(s: ClientState, v: View, stream: Stream, needs: set<nat>, list: WeightedNodes)
  {
    && ViewOk(v) && v.validAfter <= stream.time < v.freshUntil && ClientOk(s, v, needs, stream.time)
    && ExitListOk(v, list, stream.Resolve?, true, StreamStable(stream), StreamTarget(stream))
  }

  function Suits(stream: Stream, descs: Descriptors): Circuit -> bool
  {
    (c: Circuit) => c.exit in descs && Supports(c, stream, descs)
  }

  function FreshAndSuits(stream: Stream, descs: Descriptors): Circuit -> bool
  {
    (c: Circuit) => c.dirtyTime.Some? && c.dirtyTime.value > stream.time - MAX_CIRCUIT_DIRTINESS &&
                    c.exit in descs && Supports(c, stream, descs)
  }

  ghost predicate MadeFor(c: Circuit, v: View, stream: Stream)
  {
    c.dirtyTime == Some(stream.time) && ViewOk(v) &&
    WellBuilt(c.(dirtyTime := None), v, stream.time, true, StreamStable(stream), StreamTarget(stream))
  }

  ghost predicate IsFirst(circs: seq<Circuit>, ok: Circuit -> bool, k: int)
  {
    0 <= k < |circs| && ok(circs[k]) && forall i :: 0 <= i < k ==> !ok(circs[i])
  }

  lemma NoneAtFirst(circs: seq<Circuit>, ok: Circuit -> bool)
    ensures HasNone(circs[..0], ok)
  {}

  lemma NoneYet(circs: seq<Circuit>, ok: Circuit -> bool, k: nat)
    requires k < |circs| && HasNone(circs[..k], ok)
    ensures if ok(circs[k]) then IsFirst(circs, ok, k) else HasNone(circs[..k + 1], ok)
  {
    assert forall i :: 0 <= i < k ==> circs[..k][i] == circs[i];
  }

  ghost predicate HasNone(circs: seq<Circuit>, ok: Circuit -> bool)
  {
    forall i :: 0 <= i < |circs| ==> !ok(circs[i])
  }

  // Which circuit a stream is given, and what else changes: the first fresh dirty one that
  // supports it, and nothing; else the first clean one, which moves; else a new one.
  ghost predicate Assigned(s: ClientState, s': ClientState, v: View, stream: Stream, c: Circuit)
  {
    || (s' == s && exists k :: IsFirst(s.dirty, FreshAndSuits(stream, v.descs), k) && c == s.dirty[k])
    || (HasNone(s.dirty, FreshAndSuits(stream, v.descs)) &&
        exists k :: IsFirst(s.clean, Suits(stream, v.descs), k) && s' == UseClean(s, k, stream.time) && c == s'.dirty[0])
    || (HasNone(s.dirty, FreshAndSuits(stream, v.descs)) && HasNone(s.clean, Suits(stream, v.descs)) &&
        s' == AddDirty(s.(guards := s'.guards), c) && MadeFor(c, v, stream))
  }

  lemma ExitsKnown(s: ClientState, v: View)
    requires ViewOk(v) && PathsLive(s, v.stats, v.hib)
    ensures forall c :: c in s.clean + s.dirty ==> c.exit in v.descs
  {
    hide Drawable, Weighed;
    forall c | c in s.clean + s.dirty ensures c.exit in v.descs {
      assert PathLive(c, v.stats, v.hib);
    }
  }

  lemma UseCleanClientOk(s: ClientState, k: nat, v: View, needs: set<nat>, now: int)
    requires ClientOk(s, v, needs, now) && k < |s.clean|
    ensures ClientOk(UseClean(s, k, now), v, needs, now)
  {
    UseCleanOk(s, k, needs, now);
    hide DequesOk, GuardsOk, PathLive;
    var s' := UseClean(s, k, now);
    forall c | c in s'.clean + s'.dirty ensures PathLive(c, v.stats, v.hib) {
      if c == s'.dirty[0] {
        assert s.clean[k] in s.clean + s.dirty;
        SamePath(s.clean[k], c, v);
      } else {
        assert c in s.clean + s.dirty;
      }
    }
  }

  lemma SamePath(c: Circuit, d: Circuit, v: View)
    requires c.guard == d.guard && c.middle == d.middle && c.exit == d.exit
    ensures PathLive(c, v.stats, v.hib) <==> PathLive(d, v.stats, v.hib)
  {}

  lemma OldPaths(s: ClientState, guards: Guards, v: View)
    requires PathsLive(s, v.stats, v.hib)
    ensures PathsLive(s.(guards := guards), v.stats, v.hib)
  {}

  lemma NewDirtyOk(s: ClientState, made: Circuit, v: View, stream: Stream, needs: set<nat>)
    requires ViewOk(v) && DequesOk(s, needs, stream.time) && GuardsOk(s.guards, v.stats, v.descs, stream.time)
    requires PathsLive(s, v.stats, v.hib)
    requires made.id == s.nextId
    requires WellBuilt(made, v, stream.time, true, StreamStable(stream), StreamTarget(stream))
    ensures var c := made.(dirtyTime := Some(stream.time));
            && ClientOk(AddDirty(s, c), v, needs, stream.time) && MadeFor(c, v, stream)
            && c.exit in v.descs && Supports(c, stream, v.descs) && c.initialPing == made.initialPing
  {
    hide Drawable, Weighed, FarApart, GuardsOk, DequesOk;
    var c := made.(dirtyTime := Some(stream.time));
    assert c.(dirtyTime := None) == made;
    BuiltIsLive(made, v, stream);
    hide WellBuilt, ExitFilter, ViewOk, Supports;
    AddDirtyOk(s, c, needs, stream.time);
    MoreLive(s, c, v);
  }

  lemma BuiltIsLive(made: Circuit, v: View, stream: Stream)
    requires ViewOk(v) && WellBuilt(made, v, stream.time, true, StreamStable(stream), StreamTarget(stream))
    ensures var c := made.(dirtyTime := Some(stream.time));
            PathLive(c, v.stats, v.hib) && c.exit in v.descs && Supports(c, stream, v.descs)
  {
    hide Drawable, Weighed, FarApart;
  }

  lemma MoreLive(s: ClientState, c: Circuit, v: View)
    requires PathsLive(s, v.stats, v.hib) && PathLive(c, v.stats, v.hib)
    ensures PathsLive(AddDirty(s, c), v.stats, v.hib)
  {
    hide PathLive;
    var s' := AddDirty(s, c);
    forall d | d in s'.clean + s'.dirty ensures PathLive(d, v.stats, v.hib) {
      if d != c {
        assert d in s.clean + s.dirty;
      }
    }
  }

  // ---------- the congestion-aware variant ----------

  const MIN_PING := 500.0

  function Eligible(stream: Stream, descs: Descriptors): Circuit -> bool
  {
    (c: Circuit) => (c.avgPing == None || c.avgPing.value <= MIN_PING) && c.exit in descs && Supports(c, stream, descs)
  }

  ghost predicate IsBest(circs: seq<Circuit>, ok: Circuit -> bool, k: nat)
  {
    && k < |circs| && ok(circs[k])
    && forall i :: 0 <= i < |circs| && ok(circs[i]) ==>
         circs[k].initialPing <= circs[i].initialPing && (i < k ==> circs[k].initialPing < circs[i].initialPing)
  }

  // The choice among the first n circuits.
  ghost predicate BestUpTo(circs: seq<Circuit>, ok: Circuit -> bool, n: nat, best: Option<Circuit>, k: nat)
  {
    n <= |circs| &&
    if best == None then HasNone(circs[..n], ok)
    else IsBest(circs[..n], ok, k) && best.value == circs[k]
  }

  lemma BestNone(circs: seq<Circuit>, ok: Circuit -> bool)
    ensures BestUpTo(circs, ok, 0, None, 0)
  {}

  lemma BestAll(circs: seq<Circuit>, ok: Circuit -> bool, best: Option<Circuit>, k: nat)
    requires BestUpTo(circs, ok, |circs|, best, k)
    ensures best == None ==> HasNone(circs, ok)
    ensures best.Some? ==> IsBest(circs, ok, k) && best.value == circs[k]
  {
    assert circs[..|circs|] == circs;
  }

  lemma BetterOk(circs: seq<Circuit>, ok: Circuit -> bool, n: nat, best: Option<Circuit>, k: nat)
    requires BestUpTo(circs, ok, n, best, k) && n < |circs|
    ensures if ok(circs[n]) && (best == None || best.value.initialPing > circs[n].initialPing)
            then BestUpTo(circs, ok, n + 1, Some(circs[n]), n) else BestUpTo(circs, ok, n + 1, best, k)
  {
    var xs, ys := circs[..n], circs[..n + 1];
    assert forall i :: 0 <= i < n ==> ys[i] == xs[i];
    assert ys[n] == circs[n];
    if best.Some? {
      assert circs[k] == xs[k];
    }
  }

  // Goes through one deque, which begins at the given offset of all circuits.
  method ScanForBest(circs: seq<Circuit>, ghost all: seq<Circuit>, ghost offset: nat, start: Option<Circuit>, ghost j: nat,
                     v: View, stream: Stream)
    returns (best: Option<Circuit>, ghost k: nat)
    requires offset + |circs| <= |all| && circs == all[offset..offset + |circs|]
    requires forall c :: c in circs ==> c.exit in v.descs
    requires BestUpTo(all, Eligible(stream, v.descs), offset, start, j)
    ensures BestUpTo(all, Eligible(stream, v.descs), offset + |circs|, best, k)
  {
    hide BestUpTo, Supports;
    best, k := start, j;
    for i := 0 to |circs|
      invariant BestUpTo(all, Eligible(stream, v.descs), offset + i, best, k)
    {
      var circuit := circs[i];
      assert all[offset + i] == circuit && circuit in circs;
      BetterOk(all, Eligible(stream, v.descs), offset + i, best, k);
      if (circuit.avgPing == None || circuit.avgPing.value <= MIN_PING) && Supports(circuit, stream, v.descs) &&
         (best == None || best.value.initialPing > circuit.initialPing) {
        best, k := Some(circuit), offset + i;
      }
    }
  }

  // Equality of dictionaries: all entries, whatever the identity.
  predicate EqualDictionaries(c: Circuit, d: Circuit) { c.(id := d.id) == d }

  function SameDictionary(d: Circuit): Circuit -> bool
  {
    (c: Circuit) => EqualDictionaries(c, d)
  }

  // The chosen circuit, found again by comparing dictionaries, is the very object that was chosen:
  // an equal one further left would have been chosen instead.
  lemma EqualIsChosen(s: ClientState, stream: Stream, descs: Descriptors, k: nat)
    requires IsBest(s.dirty + s.clean, Eligible(stream, descs), k) && |s.dirty| <= k
    ensures forall j :: IsFirst(s.clean, SameDictionary((s.dirty + s.clean)[k]), j) <==> j == k - |s.dirty|
    ensures !HasNone(s.clean, SameDictionary((s.dirty + s.clean)[k]))
  {
    var circs, m := s.dirty + s.clean, k - |s.dirty|;
    assert circs[k] == s.clean[m];
    forall j | 0 <= j < m ensures !EqualDictionaries(s.clean[j], circs[k]) {
      assert circs[|s.dirty| + j] == s.clean[j];
    }
    assert SameDictionary(circs[k])(s.clean[m]);
  }

  lemma BestDirtyTime(s: ClientState, needs: set<nat>, stream: Stream, descs: Descriptors, k: nat)
    requires DequesOk(s, needs, stream.time) && IsBest(s.dirty + s.clean, Eligible(stream, descs), k)
    ensures (s.dirty + s.clean)[k].dirtyTime == None <==> k >= |s.dirty|
    ensures Suits(stream, descs)((s.dirty + s.clean)[k])
  {
    if k < |s.dirty| {
      assert (s.dirty + s.clean)[k] in s.dirty;
    } else {
      assert (s.dirty + s.clean)[k] in s.clean;
    }
  }

  lemma AddDirtyHead(s: ClientState, c: Circuit)
    ensures |AddDirty(s, c).dirty| > 0 && AddDirty(s, c).dirty[0] == c
  {}

  lemma UseCleanHead(s: ClientState, k: nat, t: int)
    requires k < |s.clean|
    ensures |UseClean(s, k, t).dirty| > 0 && UseClean(s, k, t).dirty[0] == s.clean[k].(dirtyTime := Some(t))
  {}

  lemma SetPingClientOk(s: ClientState, k: nat, ping: real, v: View, needs: set<nat>, stream: Stream)
    requires ClientOk(s, v, needs, stream.time) && k < |s.dirty| && Suits(stream, v.descs)(s.dirty[k])
    ensures ClientOk(SetPing(s, k, ping), v, needs, stream.time)
    ensures Suits(stream, v.descs)(SetPing(s, k, ping).dirty[k])
  {
    SetPingOk(s, k, ping, needs, stream.time);
    hide DequesOk, GuardsOk, PathLive;
    var s' := SetPing(s, k, ping);
    forall c | c in s'.clean + s'.dirty ensures PathLive(c, v.stats, v.hib) {
      if c in s'.dirty && c !in s.dirty {
        assert s.dirty[k] in s.clean + s.dirty;
        SamePath(s.dirty[k], c, v);
      } else {
        assert c in s.clean + s.dirty;
      }
    }
  }

  ghost function PingById(circs: seq<Circuit>, id: nat, ping: real): (r: seq<Circuit>)
    ensures |r| == |circs|
  {
    seq(|circs|, i requires 0 <= i < |circs| =>
      if circs[i].id == id then circs[i].(avgPing := Some(ping)) else circs[i])
  }

  // No other object shares the identity of dirty circuit k.
  lemma PingByIdOnly(s: ClientState, k: nat, ping: real)
    requires IdsOk(s) && k < |s.dirty|
    ensures PingById(s.clean, s.dirty[k].id, ping) == s.clean
    ensures PingById(s.dirty, s.dirty[k].id, ping) == SetPing(s, k, ping).dirty
  {
    var zs, n := s.clean + s.dirty, |s.clean|;
    forall i | 0 <= i < n ensures s.clean[i].id != s.dirty[k].id {
      assert zs[i].id != zs[n + k].id;
    }
    forall i | 0 <= i < |s.dirty| && i != k ensures s.dirty[i].id != s.dirty[k].id {
      assert zs[n + i].id != zs[n + k].id;
    }
  }

  // Which circuit a stream is given: the best eligible one, dirty or clean, or a new one; and the
  // ping in use is stored with exactly that object.
  ghost predicate AssignedByPing(s: ClientState, s': ClientState, v: View, stream: Stream, c: Circuit,
                                 initialPing: real, usePing: real)
  {
    if HasNone(s.dirty + s.clean, Eligible(stream, v.descs)) then
      exists made :: MadeFor(made, v, stream) && made.initialPing == initialPing && c == made.(avgPing := Some(usePing)) &&
        s' == SetPing(AddDirty(s.(guards := s'.guards), made), 0, usePing)
    else
      exists k :: IsBest(s.dirty + s.clean, Eligible(stream, v.descs), k) && GivenBest(s, s', stream, c, k, usePing)
  }

  ghost predicate GivenBest(s: ClientState, s': ClientState, stream: Stream, c: Circuit, k: nat, usePing: real)
    requires k < |s.dirty + s.clean|
  {
    c.id == (s.dirty + s.clean)[k].id &&
    if k < |s.dirty| then s' == SetPing(s, k, usePing) && c == s'.dirty[k]
    else
      var t := UseClean(s, k - |s.dirty|, stream.time);
      s' == SetPing(t, 0, usePing) && c == s'.dirty[0]
  }

  lemma NewByPing(s: ClientState, t: ClientState, s': ClientState, v: View, stream: Stream, c: Circuit,
                  initialPing: real, usePing: real)
    requires HasNone(s.dirty + s.clean, Eligible(stream, v.descs))
    requires |t.dirty| > 0 && t == AddDirty(s.(guards := t.guards), t.dirty[0]) && MadeFor(t.dirty[0], v, stream)
    requires t.dirty[0].initialPing == initialPing && s' == SetPing(t, 0, usePing) && c == s'.dirty[0]
    ensures AssignedByPing(s, s', v, stream, c, initialPing, usePing)
  {}

  lemma MovedByPing(s: ClientState, s': ClientState, v: View, stream: Stream, c: Circuit, k: nat, usePing: real)
    requires IsBest(s.dirty + s.clean, Eligible(stream, v.descs), k) && |s.dirty| <= k
    requires s' == SetPing(UseClean(s, k - |s.dirty|, stream.time), 0, usePing) && c == s'.dirty[0]
    ensures forall initialPing :: AssignedByPing(s, s', v, stream, c, initialPing, usePing)
  {
    assert GivenBest(s, s', stream, c, k, usePing);
  }

  lemma DirtyByPing(s: ClientState, s': ClientState, v: View, stream: Stream, c: Circuit, k: nat, usePing: real)
    requires IsBest(s.dirty + s.clean, Eligible(stream, v.descs), k) && k < |s.dirty|
    requires s' == SetPing(s, k, usePing) && c == s'.dirty[k]
    ensures forall initialPing :: AssignedByPing(s, s', v, stream, c, initialPing, usePing)
  {
    assert GivenBest(s, s', stream, c, k, usePing);
  }
}
