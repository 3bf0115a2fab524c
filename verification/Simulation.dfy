/**
  The main loop of pathsim.py: consensus periods, minutes and streams over a number of clients that
  share one network and one set of port needs.
*/
module Simulation {
  import opened Basics
  import opened Network
  import opened Selection
  import opened ClientSpec
  import opened Clients
  import opened Hibernation
  import opened Trace

  // ---------- filling gaps between hourly files ----------

  datatype Padded = PaddedTimes(times: seq<Option<int>>) | NotHourly

  // Every file stands at the hour of its time, counted from the first.
  ghost predicate OnTheHour(padded: seq<Option<int>>, begin: int)
  {
    forall k :: 0 <= k < |padded| && padded[k].Some? ==> padded[k].value == begin + HOUR * k
  }

  // Among the first n times each is a number of hours after the one before.
  ghost predicate EvenGaps(times: seq<int>, n: nat)
  {
    n <= |times| && forall i :: 0 < i < n ==> (times[i] - times[i - 1]) % HOUR == 0
  }

  lemma EvenStart(times: seq<int>)
    requires times != []
    ensures EvenGaps(times, 1)
  {}

  lemma EvenStep(times: seq<int>, n: nat)
    requires EvenGaps(times, n) && 0 < n < |times|
    ensures if (times[n] - times[n - 1]) % HOUR == 0 then EvenGaps(times, n + 1) else !EvenGaps(times, |times|)
  {}

  // One None for each hour without a file.
  method PadFiles(times: seq<int>) returns (res: Padded)
    requires forall i :: 0 < i < |times| ==> times[i - 1] < times[i]
    ensures res == NotHourly <==> !EvenGaps(times, |times|)
    ensures res.PaddedTimes? ==> Files(res.times) == times
    ensures res.PaddedTimes? && times != [] ==>
              |res.times| > 0 && res.times[0] == Some(times[0]) && OnTheHour(res.times, times[0])
  {
    if times == [] {
      return PaddedTimes([]);
    }
    hide OnTheHour, Files, EvenGaps;
    var padded := [Some(times[0])];
    OneFile(times[0]);
    EvenStart(times);
    for i := 1 to |times|
      invariant EvenGaps(times, i) && Files(padded) == times[..i] && OnTheHour(padded, times[0])
      invariant |padded| > 0 && padded[0] == Some(times[0]) && times[i - 1] == HourOf(padded, times[0])
    {
      EvenStep(times, i);
      var longer := PadNext(padded, times[i - 1], times[i], times[0]);
      if longer == None {
        return NotHourly;
      }
      padded := longer.value;
      assert times[..i + 1] == times[..i] + [times[i]];
    }
    assert times[..|times|] == times;
    return PaddedTimes(padded);
  }

  // The hour at which the last entry stands.
  ghost function HourOf(padded: seq<Option<int>>, begin: int): int { begin + HOUR * (|padded| - 1) }

  method PadNext(padded: seq<Option<int>>, previous: int, next: int, begin: int) returns (r: Option<seq<Option<int>>>)
    requires |padded| > 0 && OnTheHour(padded, begin) && previous == HourOf(padded, begin) && previous < next
    ensures r == None <==> (next - previous) % HOUR != 0
    ensures r.Some? ==> |r.value| > 0 && r.value[0] == padded[0] && next == HourOf(r.value, begin)
    ensures r.Some? ==> OnTheHour(r.value, begin) && Files(r.value) == Files(padded) + [next]
  {
    hide OnTheHour, Files;
    var longer := padded;
    if next - previous != HOUR {
      var gap := next - previous;
      if gap % HOUR != 0 {
        return None;
      }
      longer := PadGap(padded, gap / HOUR - 1, begin);
    }
    FilesMore(longer, Some(next), begin);
    return Some(longer + [Some(next)]);
  }

  method PadGap(padded: seq<Option<int>>, n: nat, begin: int) returns (r: seq<Option<int>>)
    requires |padded| > 0 && OnTheHour(padded, begin)
    ensures |r| == |padded| + n && r[0] == padded[0] && OnTheHour(r, begin) && Files(r) == Files(padded)
  {
    hide OnTheHour, Files;
    r := padded;
    for m := 0 to n
      invariant |r| == |padded| + m && r[0] == padded[0] && OnTheHour(r, begin) && Files(r) == Files(padded)
    {
      FilesMore(r, None, begin);
      r := r + [None];
    }
  }

  lemma OneFile(t: int)
    ensures Files([Some(t)]) == [t] && OnTheHour([Some(t)], t)
  {
    FilesMore([], Some(t), t);
    assert [] + [Some(t)] == [Some(t)];
  }

  lemma FilesMore(padded: seq<Option<int>>, next: Option<int>, begin: int)
    requires OnTheHour(padded, begin) && (next.Some? ==> next.value == begin + HOUR * |padded|)
    ensures OnTheHour(padded + [next], begin)
    ensures Files(padded + [next]) == Files(padded) + (if next.Some? then [next.value] else [])
  {
    var more := padded + [next];
    assert more[..|padded|] == padded && more[|padded|] == next;
    forall k | 0 <= k < |more| && more[k].Some? ensures more[k].value == begin + HOUR * k {
      assert k < |padded| ==> more[k] == padded[k];
    }
  }

  // The files among the hours, in order.
  ghost function Files(padded: seq<Option<int>>): seq<int>
  {
    if padded == [] then []
    else Files(padded[..|padded| - 1]) + (if padded[|padded| - 1].Some? then [padded[|padded| - 1].value] else [])
  }

  // What the simulation is given: a state for every hour from the first on, or None for a gap.
  ghost predicate Hourly(states: seq<Option<NetworkState>>)
  {
    && |states| > 0 && states[0].Some?
    && forall k :: 0 <= k < |states| && states[k].Some? ==>
         StateOk(states[k].value) && states[k].value.validAfter == states[0].value.validAfter + HOUR * k
  }

  // The states read back from the padded files: one for each file, of its time and as the writer
  // left it.
  ghost predicate ReadFrom(states: seq<Option<NetworkState>>, padded: seq<Option<int>>)
  {
    |states| == |padded| &&
    forall k :: 0 <= k < |states| ==>
      match states[k]
      case None => padded[k] == None
      case Some(ns) => padded[k] == Some(ns.validAfter) && FromWriter(ns)
  }

  ghost predicate FromWriter(ns: NetworkState)
  {
    && ns.scale > 0 && ns.freshUntil == ns.validAfter + HOUR && WellFormed(ns.stats, ns.descs)
    && exists relays :: Written(ns, relays)
  }

  // Padding and the writer's guarantees make the states what the simulation asks for.
  lemma PaddedIsHourly(states: seq<Option<NetworkState>>, padded: seq<Option<int>>)
    requires ReadFrom(states, padded) && padded != [] && padded[0].Some? && OnTheHour(padded, padded[0].value)
    ensures Hourly(states)
  {
    hide WellFormed, Written, Descending;
    forall k | 0 <= k < |states| && states[k].Some?
      ensures StateOk(states[k].value) && states[k].value.validAfter == states[0].value.validAfter + HOUR * k
    {
      var ns := states[k].value;
      var relays :| Written(ns, relays);
      WrittenIsOk(ns, relays);
      assert states[0].Some?;
    }
  }

  // What is known after some of the hours: the consensus given last, and all descriptors.
  ghost function KnownAfter(states: seq<Option<NetworkState>>, k: nat): Consensus
    requires Hourly(states) && 0 < k <= |states|
  {
    if k > 1 then Learned(KnownAfter(states, k - 1), states[k - 1])
    else
      var ns := states[0].value;
      Consensus(ns.stats, ns.weights, ns.scale, ns.descs)
  }

  ghost predicate KnownBefore(states: seq<Option<NetworkState>>, k: nat, cons: Consensus)
    requires Hourly(states) && k <= |states|
  {
    if k == 0 then cons.descs == map[] else cons == KnownAfter(states, k)
  }

  lemma KnownNext(states: seq<Option<NetworkState>>, k: nat, cons: Consensus)
    requires Hourly(states) && k < |states| && KnownBefore(states, k, cons)
    ensures Learned(cons, states[k]) == KnownAfter(states, k + 1)
  {
    assert map[] + states[0].value.descs == states[0].value.descs;
  }

  lemma HourlyAt(states: seq<Option<NetworkState>>, k: nat)
    requires Hourly(states) && k < |states|
    ensures states[k].Some? ==>
              StateOk(states[k].value) && states[k].value.validAfter == states[0].value.validAfter + HOUR * k
    ensures k == 0 ==> states[k].Some?
  {}

  // ---------- streams in the order of time ----------

  ghost predicate Ordered(streams: seq<Stream>)
  {
    forall i, j :: 0 <= i < j < |streams| ==> streams[i].time <= streams[j].time
  }

  // The number of streams before a time, that is, the index of the first one at or after it.
  ghost function Before(streams: seq<Stream>, t: int): (n: nat)
    ensures n <= |streams|
    ensures forall i :: 0 <= i < n ==> streams[i].time < t
    ensures n < |streams| ==> streams[n].time >= t
  {
    BeforeFrom(streams, t, 0)
  }

  ghost function BeforeFrom(streams: seq<Stream>, t: int, k: nat): (n: nat)
    requires k <= |streams| && forall i :: 0 <= i < k ==> streams[i].time < t
    ensures k <= n <= |streams|
    ensures forall i :: 0 <= i < n ==> streams[i].time < t
    ensures n < |streams| ==> streams[n].time >= t
    decreases |streams| - k
  {
    if k < |streams| && streams[k].time < t then BeforeFrom(streams, t, k + 1) else k
  }

  lemma BeforeIs(streams: seq<Stream>, t: int, n: nat)
    requires Ordered(streams) && n <= |streams|
    requires n > 0 ==> streams[n - 1].time < t
    requires n < |streams| ==> streams[n].time >= t
    ensures n == Before(streams, t)
  {}

  // The streams of a minute fall into it, in the order of time.
  lemma InMinute(streams: seq<Stream>, i: nat, time: int)
    requires Ordered(streams) && Before(streams, time) <= i < Before(streams, time + TIME_STEP)
    ensures i < |streams| && time <= streams[i].time < time + TIME_STEP
    ensures i > 0 ==> streams[i - 1].time <= streams[i].time
  {}

  lemma BeforeGrows(streams: seq<Stream>, t: int, t': int)
    requires Ordered(streams) && t <= t'
    ensures Before(streams, t) <= Before(streams, t')
  {}

  // ---------- what holds for all clients ----------

  type StreamExits = map<Option<nat>, WeightedNodes>

  ghost predicate AllDequesOk(states: seq<ClientState>, needs: set<nat>, now: int)
  {
    forall i :: 0 <= i < |states| ==> DequesOk(states[i], needs, now)
  }

  ghost predicate AllRecordsOk(states: seq<ClientState>, descs: Descriptors, now: int)
  {
    forall i :: 0 <= i < |states| ==> RecordsOk(states[i].guards, descs, now)
  }

  ghost predicate AllClientsOk(states: seq<ClientState>, v: View, needs: set<nat>, now: int)
  {
    forall i :: 0 <= i < |states| ==> ClientOk(states[i], v, needs, now)
  }

  // The exit lists computed for streams so far: exact for resolve, loose and by port for connect.
  ghost predicate StreamExitsOk(v: View, lists: StreamExits)
  {
    forall key :: key in lists ==> StreamListOk(v, lists[key], key)
  }

  ghost predicate StreamListOk(v: View, list: WeightedNodes, key: Option<nat>)
  {
    match key
    case None => ExitListOk(v, list, true, true, false, AnyTarget)
    case Some(port) => ExitListOk(v, list, false, true, port in LONG_LIVED_PORTS, PortOnly(port))
  }

  ghost predicate NetworkOk(v: View, needs: Needs, exits: map<nat, WeightedNodes>, lists: StreamExits)
  {
    ViewOk(v) && ExitListsOk(v, needs, exits) && StreamExitsOk(v, lists)
  }

  // A stream's list serves its purpose.
  lemma StreamListServes(v: View, list: WeightedNodes, stream: Stream)
    requires StreamListOk(v, list, if stream.Resolve? then None else Some(stream.port))
    ensures ExitListOk(v, list, stream.Resolve?, true, StreamStable(stream), StreamTarget(stream))
  {}

  // Hibernation statuses may change, as long as none is forgotten.
  lemma NetworkOkHib(v: View, hib: map<Fp, bool>, needs: Needs, exits: map<nat, WeightedNodes>, lists: StreamExits)
    requires NetworkOk(v, needs, exits, lists) && v.hib.Keys <= hib.Keys
    ensures NetworkOk(v.(hib := hib), needs, exits, lists)
  {
    hide Drawable, Weighed, ExitFilter;
    var v' := v.(hib := hib);
    assert forall exact, fast, stable, target :: ExitKind(v', exact, fast, stable, target) == ExitKind(v, exact, fast, stable, target);
    assert GuardKind(v') == GuardKind(v) && MiddleKind(v') == MiddleKind(v);
    forall key | key in lists ensures StreamListOk(v', lists[key], key) {
      assert StreamListOk(v, lists[key], key);
    }
    forall p | p in needs
      ensures p in exits && ExitListOk(v', exits[p], true, needs[p].fast, needs[p].stable, PortOnly(p)) {
      assert ExitListOk(v, exits[p], true, needs[p].fast, needs[p].stable, PortOnly(p));
    }
  }

  lemma ClientOkHib(s: ClientState, v: View, hib: map<Fp, bool>, needs: set<nat>, now: int)
    requires ClientOk(s, v, needs, now) && v.hib.Keys <= hib.Keys
    ensures ClientOk(s, v.(hib := hib), needs, now)
  {
    hide DequesOk, GuardsOk;
    forall c | c in s.clean + s.dirty ensures PathLive(c, v.stats, hib) {
      assert PathLive(c, v.stats, v.hib);
    }
  }

  lemma ClientOkLater(s: ClientState, v: View, needs: set<nat>, now: int, later: int)
    requires ClientOk(s, v, needs, now) && now <= later
    ensures ClientOk(s, v, needs, later)
  {
    DequesLater(s, needs, now, later);
    hide DequesOk;
  }

  // Expiring a port need touches neither guards nor paths.
  lemma RemoveNeedClientOk(s: ClientState, port: nat, v: View, needs: set<nat>, now: int)
    requires ClientOk(s, v, needs, now)
    ensures ClientOk(RemoveNeed(s, port), v, needs - {port}, now)
  {
    RemoveNeedOk(s, port, needs, now);
    hide DequesOk, GuardsOk, PathLive;
    SamePaths(s, RemoveNeed(s, port), v);
  }

  lemma AddNeedClientOk(s: ClientState, port: nat, covers: Circuit -> bool, v: View, needs: set<nat>, now: int)
    requires ClientOk(s, v, needs, now) && port !in needs
    ensures ClientOk(AddNeed(s, port, covers), v, needs + {port}, now)
  {
    AddNeedOk(s, port, covers, needs, now);
    hide DequesOk, GuardsOk, PathLive;
    SamePaths(s, AddNeed(s, port, covers), v);
  }

  lemma SamePaths(s: ClientState, s': ClientState, v: View)
    requires PathsLive(s, v.stats, v.hib) && s'.dirty == s.dirty && |s'.clean| == |s.clean|
    requires forall i :: 0 <= i < |s.clean| ==> s'.clean[i] == s.clean[i].(covering := s'.clean[i].covering)
    ensures PathsLive(s', v.stats, v.hib)
  {
    hide PathLive;
    forall c | c in s'.clean + s'.dirty ensures PathLive(c, v.stats, v.hib) {
      if c in s'.dirty {
        assert c in s.clean + s.dirty;
      } else {
        var i :| 0 <= i < |s'.clean| && s'.clean[i] == c;
        assert s.clean[i] in s.clean + s.dirty;
        SamePath(s.clean[i], c, v);
      }
    }
  }

  // A new consensus, however different, leaves every client in order once it has been updated.
  lemma PeriodClientOk(s: ClientState, v: View, needs: set<nat>, now: int)
    requires DequesOk(s, needs, now) && RecordsOk(s.guards, v.descs, now) && v.stats.Keys <= v.hib.Keys
    ensures var t := s.(guards := PeriodGuards(s.guards, v.stats, v.validAfter, v.freshUntil));
            ClientOk(KeepClean(KeepDirty(t, Up(RelayDown(v.stats))), Up(RelayDown(v.stats))), v, needs, now)
  {
    var up := Up(RelayDown(v.stats));
    var t := s.(guards := PeriodGuards(s.guards, v.stats, v.validAfter, v.freshUntil));
    GuardsDoNotMatter(s, t.guards, needs, now);
    KeepDirtyOk(t, up, needs, now);
    KeepCleanOk(KeepDirty(t, up), up, needs, now);
    PeriodGuardsOk(s.guards, v.stats, v.descs, now, v.validAfter, v.freshUntil);
    hide DequesOk, GuardsOk, PeriodGuards;
    forall c | c in Keep(t.clean, up) + Keep(t.dirty, up) ensures PathLive(c, v.stats, v.hib) {
      KeepMembers(t.clean, up, c);
      KeepMembers(t.dirty, up, c);
      assert PathAsks(c, RelayDown(v.stats)) && up(c);
    }
  }

  // What is known of a client between periods follows from the invariant.
  lemma ClientOkBetween(s: ClientState, v: View, needs: set<nat>, now: int)
    requires ClientOk(s, v, needs, now)
    ensures DequesOk(s, needs, now) && RecordsOk(s.guards, v.descs, now)
  {
    hide DequesOk;
  }

  // ---------- why a run may stop ----------

  // The relays a list is to be made of weigh nothing for their position.
  ghost predicate ExitsWeightless(stats: RelStats, descs: Descriptors, w: BwWeights, scale: nat,
                                  fast: bool, stable: bool, target: Target, loose: bool)
  {
    && WellFormed(stats, descs) && scale > 0
    && forall r :: r in stats && ExitFilter(r, stats, descs, fast, stable, target, loose) ==>
         PositionWeight(stats[r], ExitPosition, w, scale) == 0.0
  }

  ghost predicate MiddlesWeightless(stats: RelStats, w: BwWeights, scale: nat)
  {
    scale > 0 && forall r :: r in stats && Running in stats[r].flags ==> PositionWeight(stats[r], MiddlePosition, w, scale) == 0.0
  }

  ghost predicate GuardsWeightless(stats: RelStats, w: BwWeights, scale: nat)
  {
    scale > 0 && forall r :: r in stats && GuardFlags(stats[r].flags) ==> PositionWeight(stats[r], GuardPosition, w, scale) == 0.0
  }

  // One of the exit lists for port needs would have no weight.
  ghost predicate NeedWeightless(stats: RelStats, descs: Descriptors, w: BwWeights, scale: nat, needs: Needs)
  {
    exists p :: p in needs && ExitsWeightless(stats, descs, w, scale, needs[p].fast, needs[p].stable, PortOnly(p), false)
  }

  // One of the lists that a period starts with would.
  ghost predicate StartWeightless(stats: RelStats, descs: Descriptors, w: BwWeights, scale: nat, needs: Needs)
  {
    GuardsWeightless(stats, w, scale) || MiddlesWeightless(stats, w, scale) || NeedWeightless(stats, descs, w, scale, needs)
  }

  // The ports that the run has asked for so far or may ask for.
  predicate PortAsked(streams: seq<Stream>, port: nat)
  {
    port == 80 || exists i :: 0 <= i < |streams| && port == StreamPort(streams[i])
  }

  // All needs are for such ports, and alike.
  ghost predicate NeedsOf(needs: Needs, streams: seq<Stream>)
  {
    forall p :: p in needs ==> needs[p].fast && (needs[p].stable <==> p in LONG_LIVED_PORTS) && PortAsked(streams, p)
  }

  lemma SeedsOf(validAfter: int, streams: seq<Stream>)
    ensures NeedsOf(Seeds(validAfter), streams) && NeedsOf(map[], streams)
  {}

  lemma RenewedOf(needs: Needs, streams: seq<Stream>, i: nat)
    requires NeedsOf(needs, streams) && i < |streams|
    ensures NeedsOf(Renewed(needs, streams[i]), streams)
  {}

  lemma UnexpiredOf(needs: Needs, streams: seq<Stream>, time: int)
    requires NeedsOf(needs, streams)
    ensures NeedsOf(Unexpired(needs, time), streams)
  {}

  // ---------- the simulation ----------

  class Simulator {
    const clients: seq<Client>
    const rng: Random
    const opts: Options
    const congestionAware: bool

    // the network of the current period
    var stats: RelStats
    var descs: Descriptors
    var weights: BwWeights
    var scale: nat
    var validAfter: int
    var freshUntil: int
    var periodEnd: Option<int>
    var hib: map<Fp, bool>
    var history: seq<Entry>
    var guards: WeightedNodes
    var middles: WeightedNodes

    // shared by all clients
    var needs: Needs
    var exits: map<nat, WeightedNodes>
    var streamExits: StreamExits
    var streamStart: nat

    // the run so far, and which streams were handed out and which minutes simulated in it
    ghost var origin: World
    ghost var trace: seq<Step>
    ghost var log: seq<Handing>
    ghost var minutes: seq<Minute>

    ghost function View(): View
      reads this`stats, this`descs, this`hib, this`validAfter, this`freshUntil, this`guards, this`middles
      reads this`weights, this`scale
    {
      Clients.View(stats, descs, hib, validAfter, freshUntil, guards, middles, opts, weights, scale)
    }

    ghost function States(): (r: seq<ClientState>)
      reads clients
      ensures |r| == |clients|
    {
      seq(|clients|, i requires 0 <= i < |clients| reads clients => clients[i].State())
    }

    ghost predicate Distinct()
    {
      forall i, j :: 0 <= i < j < |clients| ==> clients[i] != clients[j]
    }

    // The consensus in force, and all descriptors known.
    ghost function Loaded(): Consensus
      reads this`stats, this`weights, this`scale, this`descs
    {
      Consensus(stats, weights, scale, descs)
    }

    ghost function Now(): World
      reads this`needs, this`stats, this`descs, this`hib, this`history, this`validAfter, this`freshUntil, this`weights, this`scale, clients
    {
      World(States(), needs, Net(stats, descs, hib, history, validAfter, freshUntil, weights, scale))
    }

    // A lawful run leads from the origin to the given state.
    ghost predicate RecordedAt(world: World)
      reads this`origin, this`trace, this`log, this`minutes
    {
      Lawful(clients, congestionAware, origin, trace, world) && log == Handings(trace) && minutes == MinutesOf(trace)
    }

    ghost predicate Recorded()
      reads this`origin, this`trace, this`log, this`minutes
      reads this`needs, this`stats, this`descs, this`hib, this`history, this`validAfter, this`freshUntil, this`weights, this`scale, clients
    {
      RecordedAt(Now())
    }

    // The step from the state before to the present one joins the run.
    ghost method Note(before: World, event: Event)
      requires RecordedAt(before) && StepOk(clients, congestionAware, Step(before, event, Now()))
      modifies this`trace, this`log, this`minutes
      ensures Recorded()
      ensures log == old(log) + HandingOf(Step(before, event, Now()))
      ensures minutes == old(minutes) + MinuteOf(Step(before, event, Now()))
    {
      hide Lawful, StepOk;
      var step := Step(before, event, Now());
      LawfulMore(clients, congestionAware, origin, trace, step);
      trace, log, minutes := trace + [step], log + HandingOf(step), minutes + MinuteOf(step);
    }

    // The timed updates stop early only when the tape has ended, or for a need that there is a path
    // for without any ntor key.
    ghost predicate TickStopOk(res: Outcome<()>)
      reads this`stats, this`descs, this`hib, this`validAfter, this`freshUntil, this`guards, this`middles, this`needs, rng
      reads this`weights, this`scale
    {
      match res
      case Done(_) => true
      case TapeEnded => rng.tape == []
      case Raised(e) => e == NoNtorCircuit && NoKeyFor(View(), needs)
    }

    // The minutes of a period stop early only when the tape has ended, or for the sake of a port or
    // a stream that the run asks for: there is a path for it without any ntor key, or its exits have
    // no weight.
    ghost predicate StopOk<T>(res: Outcome<T>, streams: seq<Stream>)
      reads this`stats, this`descs, this`hib, this`validAfter, this`freshUntil, this`guards, this`middles
      reads this`weights, this`scale, rng
    {
      match res
      case Done(_) => true
      case TapeEnded => rng.tape == []
      case Raised(NoNtorCircuit) => KeylessPort(streams) || KeylessStream(streams)
      case Raised(ZeroTotalWeight) => exists i :: 0 <= i < |streams| && (PortWeightless(StreamPort(streams[i])) || StreamWeightless(streams[i]))
      case Raised(_) => false
    }

    ghost predicate KeylessPort(streams: seq<Stream>)
      reads this`stats, this`descs, this`hib, this`validAfter, this`freshUntil, this`guards, this`middles
      reads this`weights, this`scale
    {
      exists p :: PortAsked(streams, p) && Keyless(View(), true, p in LONG_LIVED_PORTS, PortOnly(p))
    }

    ghost predicate KeylessStream(streams: seq<Stream>)
      reads this`stats, this`descs, this`hib, this`validAfter, this`freshUntil, this`guards, this`middles
      reads this`weights, this`scale
    {
      exists i :: 0 <= i < |streams| && Keyless(View(), true, StreamStable(streams[i]), StreamTarget(streams[i]))
    }

    // A period may also find at its start that the guards, the middles or the exits for port 80
    // have no weight.
    ghost predicate PeriodStopOk(res: Outcome<()>, streams: seq<Stream>)
      reads this`stats, this`descs, this`hib, this`validAfter, this`freshUntil, this`guards, this`middles
      reads this`weights, this`scale, rng
    {
      StopOk(res, streams) ||
      (res == Raised(ZeroTotalWeight) &&
       (GuardsWeightless(stats, weights, scale) || MiddlesWeightless(stats, weights, scale) || PortWeightless(80)))
    }

    lemma StopsAlike<T, U>(res: Outcome<T>, res': Outcome<U>, streams: seq<Stream>)
      requires StopOk(res, streams) && !res.Done?
      requires res' == if res.TapeEnded? then TapeEnded else Raised(res.error)
      ensures StopOk(res', streams)
    {
      hide Keyless, PortWeightless, StreamWeightless;
    }

    // What explains a stop for one stream explains it for all of them.
    lemma StopsForOne<T>(res: Outcome<T>, streams: seq<Stream>, i: nat)
      requires i < |streams| && StopOk(res, [streams[i]])
      ensures StopOk(res, streams)
    {
      hide Keyless, PortWeightless, StreamWeightless;
      assert forall p :: PortAsked([streams[i]], p) ==> PortAsked(streams, p);
      if KeylessStream([streams[i]]) {
        assert Keyless(View(), true, StreamStable([streams[i]][0]), StreamTarget([streams[i]][0]));
      }
    }

    lemma TickStops(res: Outcome<()>, streams: seq<Stream>)
      requires TickStopOk(res) && NeedsOf(needs, streams)
      ensures StopOk(res, streams)
    {
      hide Keyless;
      if res.Raised? {
        var p :| p in needs && Keyless(View(), needs[p].fast, needs[p].stable, PortOnly(p));
        assert PortAsked(streams, p) && Keyless(View(), true, p in LONG_LIVED_PORTS, PortOnly(p));
      }
    }

    lemma KeylessStops(res: Outcome<Circuit>, stream: Stream)
      requires res == Raised(NoNtorCircuit) && Keyless(View(), true, StreamStable(stream), StreamTarget(stream))
      ensures StopOk(res, [stream])
    {
      hide Keyless, StreamStable, StreamTarget;
      assert stream == [stream][0];
    }

    // Everything that holds between any two steps of a period.
    ghost predicate Ok(now: int)
      reads this`stats, this`descs, this`hib, this`validAfter, this`freshUntil, this`guards, this`middles
      reads this`weights, this`scale, this`history, this`needs, this`exits, this`streamExits, clients
    {
      Distinct() && scale > 0 && Descending(history) &&
      NetworkOk(View(), needs, exits, streamExits) && AllClientsOk(States(), View(), needs.Keys, now)
    }

    constructor (clients: seq<Client>, rng: Random, opts: Options, congestionAware: bool)
      requires forall i, j :: 0 <= i < j < |clients| ==> clients[i] != clients[j]
      requires opts.Valid()
      ensures this.clients == clients && this.rng == rng && this.opts == opts && this.congestionAware == congestionAware
      ensures Distinct() && needs == map[] && streamStart == 0 && descs == map[] && periodEnd == None
    {
      this.clients, this.rng, this.opts, this.congestionAware := clients, rng, opts, congestionAware;
      stats, descs, hib, history, guards, middles := map[], map[], map[], [], [], [];
      weights, scale, validAfter, freshUntil := BwWeights(0, 0, 0, 0, 0, 0, 0, 0, 0, 0, 0), 0, 0, 0;
      periodEnd := None;
      needs, exits, streamExits, streamStart := map[], map[], map[], 0;
      origin, trace, log, minutes := World([], map[], Net(map[], map[], map[], [], 0, 0, BwWeights(0, 0, 0, 0, 0, 0, 0, 0, 0, 0, 0), 0)), [], [], [];
    }

    lemma OkParts(now: int)
      requires Ok(now)
      ensures Distinct() && scale > 0 && Descending(history)
      ensures NetworkOk(View(), needs, exits, streamExits) && AllClientsOk(States(), View(), needs.Keys, now)
    {}

    lemma OkView(now: int)
      requires Ok(now)
      ensures ViewOk(View())
    {}

    lemma OkAgain(now: int)
      requires Distinct() && scale > 0 && Descending(history)
      requires NetworkOk(View(), needs, exits, streamExits) && AllClientsOk(States(), View(), needs.Keys, now)
      ensures Ok(now)
    {}

    // ---------- port needs ----------

    // Port needs that have run out are forgotten by everyone.
    method ExpireNeeds(time: int, ghost now: int)
      requires Ok(now) && Recorded()
      modifies this`needs, clients, this`trace, this`log, this`minutes
      ensures Ok(now) && Recorded() && log == old(log) && minutes == old(minutes)
      ensures needs == Unexpired(old(needs), time)
    {
      hide Ok, RecordedAt, States, Now;
      ghost var before := needs;
      var todo := needs.Keys;
      while todo != {}
        invariant Ok(now) && todo <= needs.Keys <= before.Keys
        invariant Recorded() && log == old(log) && minutes == old(minutes)
        invariant forall p :: p in needs ==> needs[p] == before[p] && (p !in todo ==> !Expired(before[p], time))
        invariant forall p :: p in before && p !in needs ==> Expired(before[p], time)
        decreases |todo|
      {
        var port :| port in todo;
        todo := todo - {port};
        if needs[port].expires != None && needs[port].expires.value <= time {
          ExpireNeed(port, time, now);
        }
      }
    }

    method ExpireNeed(port: nat, time: int, ghost now: int)
      requires Ok(now) && Recorded() && port in needs && Expired(needs[port], time)
      modifies this`needs, clients, this`trace, this`log, this`minutes
      ensures Ok(now) && Recorded() && log == old(log) && minutes == old(minutes)
      ensures needs == old(needs) - {port}
    {
      hide NetworkOk, ClientOk, RecordedAt, StepOk, RemoveNeed;
      ghost var was := Now();
      FewerNeeds(View(), needs, port, exits, streamExits);
      RemoveNeedAll(port, now);
      needs := needs - {port};
      ExpiringOk(clients, congestionAware, was, port, time, Now());
      Note(was, Expiring(port, time));
    }

    method RemoveNeedAll(port: nat, ghost now: int)
      requires Distinct() && AllClientsOk(States(), View(), needs.Keys, now) && port in needs
      modifies clients
      ensures AllClientsOk(States(), View(), needs.Keys - {port}, now)
      ensures forall j :: 0 <= j < |clients| ==> States()[j] == RemoveNeed(old(States())[j], port)
    {
      hide ClientOk;
      ghost var before := States();
      for i := 0 to |clients|
        invariant forall j :: i <= j < |clients| ==> clients[j].State() == before[j]
        invariant forall j :: 0 <= j < i ==> clients[j].State() == RemoveNeed(before[j], port)
      {
        KnownPort(before[i], View(), needs.Keys, now, port);
        clients[i].RemovePortNeed(port);
      }
      forall j | 0 <= j < |clients| ensures ClientOk(States()[j], View(), needs.Keys - {port}, now) {
        RemoveNeedClientOk(before[j], port, View(), needs.Keys, now);
      }
    }

    // ---------- one minute ----------

    // Hibernation changes due by now are replayed.
    method UpdateHibernation(time: int, ghost now: int)
      requires Ok(now) && Recorded()
      modifies this`hib, this`history, this`trace, this`log, this`minutes
      ensures Ok(now) && Recorded() && log == old(log) && minutes == old(minutes)
      ensures (history, hib) == ReplayTo(old(history), old(hib), time)
    {
      hide NetworkOk, ClientOk, ReplayTo, RecordedAt, StepOk;
      ghost var v, was := View(), Now();
      ReplayKeeps(history, hib, time);
      history, hib := PopUpTo(history, hib, time);
      NetworkOkHib(v, hib, needs, exits, streamExits);
      forall i | 0 <= i < |clients| ensures ClientOk(States()[i], View(), needs.Keys, now) {
        ClientOkHib(States()[i], v, hib, needs.Keys, now);
      }
      ReplayingOk(clients, congestionAware, was, time, Now());
      Note(was, Replaying(time));
    }

    // After the timed updates every client has covered every need, as far as there is room, with
    // circuits that are young enough and whose relays are awake.
    method Tick(time: int, ghost now: int) returns (res: Outcome<()>)
      requires Ok(now) && now <= time && validAfter <= time < freshUntil && Recorded()
      modifies this`needs, this`hib, this`history, clients, rng, this`trace, this`log, this`minutes
      ensures Ok(time)
      ensures !res.Done? ==> TickStopOk(res)
      ensures res.Raised? ==> res.error == NoNtorCircuit
      ensures needs == Unexpired(old(needs), time)
      ensures (history, hib) == ReplayTo(old(history), old(hib), time)
      ensures res.Done? ==> AllServed(States(), View(), needs, time)
      ensures res.Done? ==> Recorded() && log == old(log) && minutes == old(minutes) + [(time, hib, Loaded())]
    {
      hide TickStopOk, NetworkOk, ClientOk, NeedsMet, AllFit, Unexpired, ReplayTo, RecordedAt;
      ExpireNeeds(time, now);
      NoneExpired(old(needs), time);
      UpdateHibernation(time, now);
      res := TimedUpdates(time, now);
    }

    method TimedUpdates(time: int, ghost now: int) returns (res: Outcome<()>)
      requires Ok(now) && now <= time && validAfter <= time < freshUntil && Recorded()
      requires forall p :: p in needs ==> !Expired(needs[p], time)
      modifies clients, rng, this`trace, this`log, this`minutes
      ensures Ok(time)
      ensures !res.Done? ==> TickStopOk(res)
      ensures res.Raised? ==> res.error == NoNtorCircuit
      ensures res.Done? ==> AllServed(States(), View(), needs, time)
      ensures res.Done? ==> Recorded() && log == old(log) && minutes == old(minutes) + [(time, hib, Loaded())]
    {
      hide TickStopOk, AllServed, AllTicked, RecordedAt, StepOk, Ok, States;
      ghost var was := Now();
      res := TickAll(time, now);
      if res.Done? {
        OkView(time);
        AllTickedServed(was.clients, States(), View(), needs, time);
        TickingOk(clients, congestionAware, was, time, View(), Now());
        Note(was, Ticking(time, View()));
      }
    }

    method TickAll(time: int, ghost now: int) returns (res: Outcome<()>)
      requires Ok(now) && now <= time && validAfter <= time < freshUntil
      modifies clients, rng
      ensures Ok(time)
      ensures !res.Done? ==> TickStopOk(res)
      ensures res.Raised? ==> res.error == NoNtorCircuit
      ensures res.Done? ==> AllTicked(old(States()), States(), View(), needs, time)
    {
      hide TickStopOk, NetworkOk, AllClientsOk, Descending, AllTicked, Ok, States, Distinct;
      var v := Clients.View(stats, descs, hib, validAfter, freshUntil, guards, middles, opts, weights, scale);
      OkParts(now);
      NetworkParts(v, needs, exits, streamExits);
      res := UpdateAll(v, time, now);
      OkAgain(time);
    }

    method UpdateAll(v: View, time: int, ghost now: int) returns (res: Outcome<()>)
      requires Distinct() && ViewOk(v) && ExitListsOk(v, needs, exits) && v == View() && v.validAfter <= time < v.freshUntil
      requires AllClientsOk(States(), v, needs.Keys, now) && now <= time
      modifies clients, rng
      ensures AllClientsOk(States(), v, needs.Keys, time)
      ensures !res.Done? ==> TickStopOk(res)
      ensures res.Raised? ==> res.error == NoNtorCircuit
      ensures res.Done? ==> AllTicked(old(States()), States(), v, needs, time)
    {
      hide TickStopOk, ViewOk, ExitListsOk, AllClientsOk, TickedUpTo, AllTicked, States;
      ghost var before := States();
      TickedNone(before, v, needs, now, time);
      for i := 0 to |clients|
        invariant TickedUpTo(before, States(), i, v, needs, now, time)
      {
        res := UpdateNext(before, i, v, time, now);
        if !res.Done? {
          return;
        }
      }
      TickedToTheEnd(before, States(), v, needs, now, time);
      return Done(());
    }

    method UpdateNext(ghost before: seq<ClientState>, i: nat, v: View, time: int, ghost now: int) returns (res: Outcome<()>)
      requires Distinct() && ViewOk(v) && ExitListsOk(v, needs, exits) && v == View() && v.validAfter <= time < v.freshUntil
      requires i < |clients| && TickedUpTo(before, States(), i, v, needs, now, time) && now <= time
      modifies clients, rng
      ensures !res.Done? ==> TickStopOk(res)
      ensures res.Raised? ==> res.error == NoNtorCircuit
      ensures if res.Done? then TickedUpTo(before, States(), i + 1, v, needs, now, time) else AllClientsOk(States(), v, needs.Keys, time)
    {
      hide TickStopOk, ViewOk, ExitListsOk, TickedUpTo, AllClientsOk, Ticked, ClientOk;
      ghost var states := States();
      TickedNext(before, states, i, v, needs, now, time);
      res := UpdateClient(i, v, time, now);
      if res.Done? {
        TickedMore(before, states, i, States()[i], v, needs, now, time);
      } else {
        TickedEarly(before, states, i, States()[i], v, needs, now, time);
      }
    }

    method UpdateClient(i: nat, v: View, time: int, ghost now: int) returns (res: Outcome<()>)
      requires Distinct() && ViewOk(v) && ExitListsOk(v, needs, exits) && v == View() && v.validAfter <= time < v.freshUntil
      requires i < |clients| && ClientOk(States()[i], v, needs.Keys, now) && now <= time
      modifies clients, rng
      ensures States() == old(States())[i := States()[i]]
      ensures ClientOk(States()[i], v, needs.Keys, time)
      ensures !res.Done? ==> TickStopOk(res)
      ensures res.Raised? ==> res.error == NoNtorCircuit
      ensures res.Done? ==> Ticked(old(States())[i], States()[i], v, needs, time)
    {
      hide ViewOk, ExitListsOk, ClientOk, NeedsMet, AllFit, CoversMore, GuardsEvolve, Ticked, Swept, NoKeyFor, CoveringAll;
      ghost var states := States();
      ClientOkLater(states[i], v, needs.Keys, now, time);
      res := clients[i].TimedClientUpdates(time, v, needs, exits, rng);
      if res.Done? {
        TickedIs(states[i], clients[i].State(), v, needs, time);
      }
    }

    // ---------- exit lists ----------

    // None is the raise for a list without any weight.
    method WeighExits(fast: bool, stable: bool, target: Target, loose: bool) returns (list: Option<WeightedNodes>)
      requires WellFormed(stats, descs) && scale > 0
      requires loose ==> target.PortOnly?
      ensures list.Some? ==> ExitListOk(View(), list.value, !loose, fast, stable, target)
      ensures list == None <==> ExitsWeightless(stats, descs, weights, scale, fast, stable, target, loose)
    {
      hide Weighed, PositionWeight, ExitFilter;
      var nodes := FilterExits(stats, descs, fast, stable, target, loose);
      list := WeighNodes(nodes, ExitKind(View(), !loose, fast, stable, target), stats, ExitPosition, weights, scale);
    }

    // ---------- streams ----------

    // A stream renews the need for its port, or creates it: the clients' circuits that suit it
    // already count, and its exit list is computed.
    method UpdatePortNeed(stream: Stream, ghost now: int) returns (res: Outcome<()>)
      requires Ok(now) && Recorded()
      modifies this`needs, this`exits, clients, this`trace, this`log, this`minutes
      ensures res == Done(()) || res == Raised(ZeroTotalWeight)
      ensures res == Raised(ZeroTotalWeight) <==> StreamPort(stream) !in old(needs) && PortWeightless(StreamPort(stream))
      ensures res.Done? ==> Ok(now) && needs == Renewed(old(needs), stream) && IsRenewed(needs, stream)
      ensures res.Done? ==> Recorded() && log == old(log) && minutes == old(minutes)
    {
      hide NetworkOk, AllClientsOk, Descending, RecordedAt, StepOk, Ok, States, Distinct;
      RenewedOnce(needs, stream);
      hide IsRenewed, PortWeightless;
      ghost var before := Now();
      OkParts(now);
      var port := StreamPort(stream);
      if port !in needs {
        res := CreateNeed(port, stream, now);
        return;
      }
      ghost var was := needs;
      if needs[port].expires != None && needs[port].expires.value < stream.time + PORT_NEED_LIFETIME {
        needs := needs[port := needs[port].(expires := Some(stream.time + PORT_NEED_LIFETIME))];
      }
      RenewedNetwork(View(), was, needs, exits, streamExits);
      assert needs.Keys == was.Keys;
      OkAgain(now);
      RenewingOk(clients, congestionAware, before, stream, Now());
      Note(before, Renewing(stream));
      return Done(());
    }

    method CreateNeed(port: nat, stream: Stream, ghost now: int) returns (res: Outcome<()>)
      requires Ok(now) && port !in needs && port == StreamPort(stream) && Recorded()
      modifies this`needs, this`exits, clients, this`trace, this`log, this`minutes
      ensures res == if PortWeightless(port) then Raised(ZeroTotalWeight) else Done(())
      ensures res.Done? ==> Ok(now) && needs == Renewed(old(needs), stream)
      ensures res.Done? ==> Recorded() && log == old(log) && minutes == old(minutes)
    {
      hide Ok, AddNeed, SuitsNeed, RecordedAt, StepOk, PortWeightless;
      ghost var before := Now();
      res := MakeNeed(port, stream, now);
      if res.Done? {
        NewNeedOk(clients, congestionAware, before, stream, Now());
        Note(before, Renewing(stream));
      }
    }

    method MakeNeed(port: nat, stream: Stream, ghost now: int) returns (res: Outcome<()>)
      requires Ok(now) && port !in needs && port == StreamPort(stream)
      modifies this`needs, this`exits, clients
      ensures res == if PortWeightless(port) then Raised(ZeroTotalWeight) else Done(())
      ensures res.Done? ==> Ok(now) && needs == Renewed(old(needs), stream) && port in needs
      ensures forall j :: 0 <= j < |clients| ==> port in needs && States()[j] == AddNeed(old(States())[j], port, SuitsNeed(port, needs[port], descs))
    {
      hide NetworkOk, AllClientsOk, Descending, ExitListOk, Ok, Distinct, AddNeed, SuitsNeed, ExitsWeightless;
      OkParts(now);
      var need := Need(Some(stream.time + PORT_NEED_LIFETIME), true, port in LONG_LIVED_PORTS, PORT_NEED_COVER_NUM);
      ghost var v, was := View(), needs;
      NetworkBasics(v, needs, exits, streamExits);
      needs := needs[port := need];
      assert needs.Keys == was.Keys + {port};
      AddNeedAll(port, need, was.Keys, now);
      hide WellFormed;
      var list := WeighExits(true, port in LONG_LIVED_PORTS, PortOnly(port), false);
      if list == None {
        return Raised(ZeroTotalWeight);
      }
      NewNeedNetwork(v, was, port, need, exits, list.value, streamExits);
      exits := exits[port := list.value];
      OkAgain(now);
      return Done(());
    }

    method AddNeedAll(port: nat, need: Need, ghost known: set<nat>, ghost now: int)
      requires Distinct() && WellFormed(stats, descs) && AllClientsOk(States(), View(), known, now) && port !in known
      requires needs.Keys == known + {port}
      modifies clients
      ensures AllClientsOk(States(), View(), needs.Keys, now)
      ensures forall j :: 0 <= j < |clients| ==> States()[j] == AddNeed(old(States())[j], port, SuitsNeed(port, need, descs))
    {
      hide ClientOk, AddNeed;
      ghost var before := States();
      for i := 0 to |clients|
        invariant forall j :: i <= j < |clients| ==> clients[j].State() == before[j]
        invariant forall j :: 0 <= j < i ==> clients[j].State() == AddNeed(before[j], port, SuitsNeed(port, need, descs))
      {
        ExitsInDescs(before[i], View(), known, now);
        clients[i].AddPortNeed(port, need, descs);
      }
      forall j | 0 <= j < |clients| ensures ClientOk(States()[j], View(), needs.Keys, now) {
        AddNeedClientOk(before[j], port, SuitsNeed(port, need, descs), View(), known, now);
      }
    }

    // The list for a port's need would have no weight.
    ghost predicate PortWeightless(port: nat)
      reads this`stats, this`descs, this`weights, this`scale
    {
      ExitsWeightless(stats, descs, weights, scale, true, port in LONG_LIVED_PORTS, PortOnly(port), false)
    }

    // The list for a stream would have no weight.
    ghost predicate StreamWeightless(stream: Stream)
      reads this`stats, this`descs, this`weights, this`scale
    {
      match stream
      case Connect(_, _, port) =>
        ExitsWeightless(stats, descs, weights, scale, true, port in LONG_LIVED_PORTS, PortOnly(port), true)
      case Resolve(_) => ExitsWeightless(stats, descs, weights, scale, true, false, AnyTarget, false)
    }

    // The exit list for a stream is computed once a period for each port.
    method ListForStream(stream: Stream, ghost now: int) returns (res: Outcome<WeightedNodes>)
      requires Ok(now)
      modifies this`streamExits
      ensures res.Done? || res == Raised(ZeroTotalWeight)
      ensures res == Raised(ZeroTotalWeight) <==> StreamKey(stream) !in old(streamExits) && StreamWeightless(stream)
      ensures res.Done? ==> Ok(now) && StreamListOk(View(), res.value, StreamKey(stream))
    {
      hide ExitListOk, ViewOk, ExitListsOk, AllClientsOk, ExitsWeightless;
      var key := StreamKey(stream);
      if key !in streamExits {
        ViewWellFormed(View());
        var list: Option<WeightedNodes>;
        if stream.Connect? {
          list := WeighExits(true, stream.port in LONG_LIVED_PORTS, PortOnly(stream.port), true);
        } else {
          list := WeighExits(true, false, AnyTarget, false);
        }
        if list == None {
          return Raised(ZeroTotalWeight);
        }
        streamExits := streamExits[key := list.value];
      }
      return Done(streamExits[key]);
    }

    // Stream i is handed to every client in turn.
    method HandStream(i: nat, stream: Stream, list: WeightedNodes, ghost now: int) returns (res: Outcome<()>)
      requires Ok(now) && now <= stream.time && validAfter <= stream.time < freshUntil && Recorded()
      requires StreamListOk(View(), list, StreamKey(stream)) && IsRenewed(needs, stream)
      modifies clients, rng, this`trace, this`log, this`minutes
      ensures Ok(stream.time)
      ensures !res.Done? ==> StopOk(res, [stream])
      ensures res.Raised? ==> res.error == NoNtorCircuit
      ensures res.Done? ==> Recorded() && log == old(log) + Row(i, stream, |clients|) && minutes == old(minutes)
    {
      hide StopOk, NetworkOk, AllClientsOk, StreamListOk, Descending, RecordedAt, Ok, States, Distinct, IsRenewed, Renewed, ViewOk, Row, StreamKey;
      var v := Clients.View(stats, descs, hib, validAfter, freshUntil, guards, middles, opts, weights, scale);
      OkParts(now);
      NetworkParts(v, needs, exits, streamExits);
      res := HandToAll(i, stream, v, list, now);
      OkAgain(stream.time);
    }

    method HandToAll(i: nat, stream: Stream, v: View, list: WeightedNodes, ghost now: int) returns (res: Outcome<()>)
      requires Distinct() && ViewOk(v) && v.validAfter <= stream.time < v.freshUntil && Fits(v, Now().net) && v == View() && Recorded()
      requires StreamListOk(v, list, StreamKey(stream)) && now <= stream.time && IsRenewed(needs, stream)
      requires AllClientsOk(States(), v, needs.Keys, now)
      modifies clients, rng, this`trace, this`log, this`minutes
      ensures AllClientsOk(States(), v, needs.Keys, stream.time)
      ensures !res.Done? ==> StopOk(res, [stream])
      ensures res.Raised? ==> res.error == NoNtorCircuit
      ensures res.Done? ==> Recorded() && log == old(log) + Row(i, stream, |clients|) && minutes == old(minutes)
    {
      hide StopOk, ViewOk, AllClientsOk, MixedOk, StreamListOk, ClientOk, RecordedAt, States;
      MixedNone(States(), v, needs.Keys, now, stream.time);
      for c := 0 to |clients|
        invariant MixedOk(States(), c, v, needs.Keys, now, stream.time)
        invariant Recorded() && log == old(log) + Row(i, stream, c) && minutes == old(minutes)
      {
        res := HandTo(c, i, stream, v, list, now);
        if !res.Done? {
          MixedAll(States(), c + 1, v, needs.Keys, now, stream.time);
          return;
        }
        RowStep(i, stream, c);
      }
      MixedAll(States(), |clients|, v, needs.Keys, now, stream.time);
      return Done(());
    }

    // The circuit given to the client is recorded with the states before and after.
    method HandTo(c: nat, i: nat, stream: Stream, v: View, list: WeightedNodes, ghost now: int) returns (res: Outcome<()>)
      requires Distinct() && ViewOk(v) && v.validAfter <= stream.time < v.freshUntil && Fits(v, Now().net) && v == View() && Recorded()
      requires StreamListOk(v, list, StreamKey(stream)) && now <= stream.time && IsRenewed(needs, stream)
      requires c < |clients| && MixedOk(States(), c, v, needs.Keys, now, stream.time)
      modifies clients, rng, this`trace, this`log, this`minutes
      ensures MixedOk(States(), c + 1, v, needs.Keys, now, stream.time)
      ensures !res.Done? ==> StopOk(res, [stream])
      ensures res.Raised? ==> res.error == NoNtorCircuit
      ensures res.Done? ==> Recorded() && log == old(log) + [(i, c, stream)] && minutes == old(minutes)
    {
      hide StopOk, ViewOk, ClientOk, ExitListOk, RecordedAt, StepOk, Given, StreamListOk, MixedOk;
      ghost var was := Now();
      MixedNext(was.clients, c, v, needs.Keys, now, stream.time);
      var given := GiveTo(c, i, stream, v, list, now);
      MixedMore(was.clients, c, States()[c], v, needs.Keys, now, stream.time);
      if given.Done? {
        GivingOk(clients, congestionAware, was, i, c, stream, given.value, v, Now());
        Note(was, Giving(i, c, stream, given.value, v));
      }
      res := if given.Done? then Done(()) else if given.TapeEnded? then TapeEnded else Raised(given.error);
      if !given.Done? {
        StopsAlike(given, res, [stream]);
      }
    }

    method GiveTo(c: nat, i: nat, stream: Stream, v: View, list: WeightedNodes, ghost now: int) returns (given: Outcome<Circuit>)
      requires Distinct() && ViewOk(v) && v.validAfter <= stream.time < v.freshUntil
      requires StreamListOk(v, list, StreamKey(stream)) && now <= stream.time
      requires v == View()
      requires c < |clients| && ClientOk(States()[c], v, needs.Keys, now)
      modifies clients, rng
      ensures States() == old(States())[c := States()[c]]
      ensures ClientOk(States()[c], v, needs.Keys, stream.time)
      ensures !given.Done? ==> StopOk(given, [stream])
      ensures given.Raised? ==> given.error == NoNtorCircuit
      ensures given.Done? ==>
                Given(clients[c], congestionAware, old(States())[c], States()[c], needs.Keys, i, stream, given.value, v)
    {
      hide ViewOk, ClientOk, GuardsEvolve, Assigned, AssignedByPing, ExitListOk, Given, Keyless, HasNone, Searching, FoundBy, StreamRequest;
      ghost var states := States();
      StreamListServes(v, list, stream);
      ClientOkLater(states[c], v, needs.Keys, now, stream.time);
      hide StreamListOk;
      if congestionAware {
        given := clients[c].AssignStreamByPing(v, stream, needs.Keys, list, i, rng);
      } else {
        given := clients[c].AssignStream(v, stream, needs.Keys, list, rng);
      }
      if given.Raised? {
        KeylessStops(given, stream);
      }
      if given.Done? {
        GivenIs(clients[c], congestionAware, states[c], clients[c].State(), needs.Keys, i, stream, given.value, v);
      }
    }

    // The streams of one minute, each of which first renews or creates its port need.
    method HandStreams(streams: seq<Stream>, begin: nat, end: nat, ghost a: nat, time: int) returns (res: Outcome<()>)
      requires Ok(time) && validAfter <= time && time + TIME_STEP <= freshUntil && Recorded()
      requires Ordered(streams) && begin <= end <= |streams|
      requires NeedsOf(needs, streams)
      requires begin == Before(streams, time) && end == Before(streams, time + TIME_STEP)
      requires a <= begin && log == Handed(streams, a, begin, |clients|)
      modifies this`needs, this`exits, this`streamExits, clients, rng, this`trace, this`log, this`minutes
      ensures !res.Done? ==> StopOk(res, streams)
      ensures res.Raised? ==> res.error in {NoNtorCircuit, ZeroTotalWeight}
      ensures res.Done? ==> Ok(time + TIME_STEP) && log == Handed(streams, a, end, |clients|)
      ensures res.Done? ==> Recorded() && minutes == old(minutes) && NeedsOf(needs, streams)
    {
      hide StopOk, NeedsOf, Renewed, Ok, Before, Ordered, Handed, States, RecordedAt;
      ghost var now := time;
      for i := begin to end
        invariant Ok(now) && time <= now < time + TIME_STEP && now == if i == begin then time else streams[i - 1].time
        invariant NeedsOf(needs, streams)
        invariant Recorded() && log == Handed(streams, a, i, |clients|) && minutes == old(minutes)
      {
        InMinute(streams, i, time);
        HandedMore(streams, a, i, |clients|);
        RenewedOf(needs, streams, i);
        res := HandNext(i, streams[i], now);
        if !res.Done? {
          StopsForOne(res, streams, i);
          return;
        }
        now := streams[i].time;
      }
      OkLater(now, time + TIME_STEP);
      return Done(());
    }

    method HandNext(i: nat, stream: Stream, ghost now: int) returns (res: Outcome<()>)
      requires Ok(now) && now <= stream.time && validAfter <= stream.time < freshUntil && Recorded()
      modifies this`needs, this`exits, this`streamExits, clients, rng, this`trace, this`log, this`minutes
      ensures !res.Done? ==> StopOk(res, [stream])
      ensures res.Raised? ==> res.error in {NoNtorCircuit, ZeroTotalWeight}
      ensures res.Done? ==> Ok(stream.time) && needs == Renewed(old(needs), stream)
      ensures res.Done? ==> Recorded() && log == old(log) + Row(i, stream, |clients|) && minutes == old(minutes)
    {
      hide PortWeightless, StreamWeightless, StopOk, Ok, StreamListOk, RecordedAt, States, IsRenewed;
      res := UpdatePortNeed(stream, now);
      if !res.Done? {
        PortExplains(stream, res);
        return;
      }
      var list := ListForStream(stream, now);
      if !list.Done? {
        StreamExplains(stream, Raised(ZeroTotalWeight));
        return Raised(ZeroTotalWeight);
      }
      res := HandStream(i, stream, list.value, now);
    }

    lemma PortExplains(stream: Stream, res: Outcome<()>)
      requires res == Raised(ZeroTotalWeight) && PortWeightless(StreamPort(stream))
      ensures StopOk(res, [stream])
    {
      assert stream == [stream][0];
    }

    lemma StreamExplains(stream: Stream, res: Outcome<()>)
      requires res == Raised(ZeroTotalWeight) && StreamWeightless(stream)
      ensures StopOk(res, [stream])
    {
      assert stream == [stream][0];
    }

    lemma OkLater(now: int, later: int)
      requires Ok(now) && now <= later
      ensures Ok(later)
    {
      hide NetworkOk, ClientOk;
      forall i | 0 <= i < |clients| ensures ClientOk(States()[i], View(), needs.Keys, later) {
        ClientOkLater(States()[i], View(), needs.Keys, now, later);
      }
    }

    // One minute: the timed updates, then the streams that fall into it.
    method Minute(streams: seq<Stream>, time: int, ghost a: nat, ghost now: int) returns (res: Outcome<()>)
      requires Ok(now) && now <= time && validAfter <= time && time + TIME_STEP <= freshUntil
      requires Ordered(streams) && Passed(streams, time)
      requires NeedsOf(needs, streams)
      requires HandedTo(streams, a, time) && Recorded()
      modifies this`needs, this`exits, this`streamExits, this`hib, this`history, this`streamStart, clients, rng
      modifies this`trace, this`log, this`minutes
      ensures !res.Done? ==> StopOk(res, streams)
      ensures res.Raised? ==> res.error in {NoNtorCircuit, ZeroTotalWeight}
      ensures (history, hib) == ReplayTo(old(history), old(hib), time)
      ensures res.Done? ==> Ok(time + TIME_STEP) && HandedTo(streams, a, time + TIME_STEP)
      ensures res.Done? ==> NeedsOf(needs, streams)
      ensures res.Done? ==> Recorded() && minutes == old(minutes) + [(time, hib, Loaded())]
      ensures Passed(streams, time)
    {
      hide StopOk, TickStopOk, NeedsOf, Ok, Ordered, Before, AllServed, Handed, ReplayTo, Unexpired, Recorded, Loaded;
      UnexpiredOf(needs, streams, time);
      res := Tick(time, now);
      if !res.Done? {
        TickStops(res, streams);
        return;
      }
      SkipStreams(streams, time);
      BeforeGrows(streams, time, time + TIME_STEP);
      var streamEnd := EndOfMinute(streams, streamStart, time + TIME_STEP);
      res := HandStreams(streams, streamStart, streamEnd, a, time);
    }

    // The streams from a on that came before a time have been handed out.
    ghost predicate HandedTo(streams: seq<Stream>, a: nat, time: int)
      reads this`log
    {
      a <= Before(streams, time) && log == Handed(streams, a, Before(streams, time), |clients|)
    }

    // The streams passed so far came before a time.
    ghost predicate Passed(streams: seq<Stream>, time: int)
      reads this`streamStart
    {
      streamStart <= |streams| && (streamStart > 0 ==> streams[streamStart - 1].time < time)
    }

    method SkipStreams(streams: seq<Stream>, time: int)
      requires Ordered(streams) && streamStart <= |streams| && (streamStart > 0 ==> streams[streamStart - 1].time < time)
      modifies this`streamStart
      ensures streamStart == Before(streams, time)
    {
      while streamStart < |streams| && streams[streamStart].time < time
        invariant streamStart <= |streams| && (streamStart > 0 ==> streams[streamStart - 1].time < time)
      {
        streamStart := streamStart + 1;
      }
      BeforeIs(streams, time, streamStart);
    }

    // ---------- one consensus period ----------

    // What holds between two periods. Nothing is assumed of the consensus to come.
    ghost predicate Between(now: int)
      reads this`needs, this`descs, this`stats, this`hib, this`scale, this`validAfter, this`freshUntil, this`periodEnd, clients
    {
      && Distinct() && AllDequesOk(States(), needs.Keys, now) && AllRecordsOk(States(), descs, now)
      && (forall r :: r in descs ==> IsAddress(descs[r].address))
      && (periodEnd.Some? ==> scale > 0 && WellFormed(stats, descs) && stats.Keys <= hib.Keys &&
                              periodEnd.value == freshUntil == validAfter + HOUR)
      && (periodEnd == None ==> needs == map[] && forall i :: 0 <= i < |clients| ==> States()[i].clean == [])
    }

    // Takes over a consensus, or prolongs the last one by an hour. False is the raise for times
    // that do not continue the period before.
    method SetNetwork(state: Option<NetworkState>, ghost now: int) returns (ok: bool)
      requires Between(now) && (if state.Some? then StateOk(state.value) else periodEnd.Some?) && Recorded()
      modifies this`stats, this`descs, this`weights, this`scale, this`validAfter, this`freshUntil, this`periodEnd,
               this`hib, this`history, this`trace, this`log, this`minutes
      ensures validAfter == if state.Some? then state.value.validAfter else old(validAfter) + HOUR
      ensures ok ==> Recorded() && log == old(log) && minutes == old(minutes)
      ensures ok <==> old(periodEnd) == None || old(periodEnd).value == validAfter
      ensures ok ==> NetworkSet(now) && periodEnd == Some(freshUntil)
      ensures ok ==> Now().net == NextNet(old(Now().net), state)
      ensures Loaded() == Learned(old(Loaded()), state)
    {
      hide NetworkSet, Between, ReplayTo, StateOk, RecordedAt, StepOk, NextNet;
      ghost var was := Now();
      ok := EnterHour(state, now);
      if ok {
        NextNetIs(was.net, state, Now().net);
        LoadingOk(clients, congestionAware, was, state, Now());
        Note(was, Loading(state));
      }
    }

    method EnterHour(state: Option<NetworkState>, ghost now: int) returns (ok: bool)
      requires Between(now) && (if state.Some? then StateOk(state.value) else periodEnd.Some?)
      modifies this`stats, this`descs, this`weights, this`scale, this`validAfter, this`freshUntil, this`periodEnd,
               this`hib, this`history
      ensures validAfter == if state.Some? then state.value.validAfter else old(validAfter) + HOUR
      ensures freshUntil == if state.Some? then state.value.freshUntil else old(freshUntil) + HOUR
      ensures ok <==> old(periodEnd) == None || old(periodEnd).value == validAfter
      ensures ok ==> NetworkSet(now) && periodEnd == Some(freshUntil)
      ensures Loaded() == Learned(old(Loaded()), state)
      ensures ok ==> (history, hib) == if state.Some? then ReplayTo(state.value.history, map[], validAfter) else ([], old(hib))
    {
      hide AllDequesOk, AllRecordsOk, ReplayTo, WellFormed, Descending, StateOk, States;
      LoadNetwork(state, now);
      if periodEnd != None && periodEnd.value != validAfter {
        return false;
      }
      periodEnd := Some(freshUntil);
      ReplayKeeps(history, hib, validAfter);
      if state.Some? {
        InitialStatuses(state.value);
      } else {
        ReplayNothing(hib, validAfter);
      }
      history, hib := PopUpTo(history, hib, validAfter);
      return true;
    }

    method LoadNetwork(state: Option<NetworkState>, ghost now: int)
      requires Between(now) && (if state.Some? then StateOk(state.value) else periodEnd.Some?)
      modifies this`stats, this`descs, this`weights, this`scale, this`validAfter, this`freshUntil, this`hib, this`history
      ensures validAfter == if state.Some? then state.value.validAfter else old(validAfter) + HOUR
      ensures Distinct() && AllDequesOk(States(), needs.Keys, now) && AllRecordsOk(States(), descs, now)
      ensures scale > 0 && freshUntil == validAfter + HOUR && WellFormed(stats, descs) && Descending(history)
      ensures state.Some? ==> stats == state.value.stats && history == state.value.history && hib == map[]
      ensures state.Some? ==> freshUntil == state.value.freshUntil
      ensures state == None ==> history == [] && hib == old(hib) && stats.Keys <= hib.Keys && stats == old(stats)
      ensures state == None ==> freshUntil == old(freshUntil) + HOUR
      ensures Loaded() == Learned(old(Loaded()), state)
    {
      hide AllDequesOk, AllRecordsOk, WellFormed, Descending, States;
      if state.Some? {
        TakeConsensus(state.value, States(), now);
      } else {
        validAfter, freshUntil := validAfter + HOUR, freshUntil + HOUR;
        history := [];
        NothingDescends();
      }
    }

    method TakeConsensus(ns: NetworkState, ghost states: seq<ClientState>, ghost now: int)
      requires AllRecordsOk(states, descs, now) && (forall r :: r in descs ==> IsAddress(descs[r].address)) && StateOk(ns)
      modifies this`stats, this`descs, this`weights, this`scale, this`validAfter, this`freshUntil, this`hib, this`history
      ensures AllRecordsOk(states, descs, now) && WellFormed(stats, descs) && Descending(history)
      ensures scale > 0 && validAfter == ns.validAfter && freshUntil == validAfter + HOUR
      ensures Loaded() == Learned(old(Loaded()), Some(ns)) && history == ns.history && hib == map[] && freshUntil == ns.freshUntil
    {
      MergeWellFormed(ns, descs);
      RecordsKept(states, descs, ns.descs, now);
      hide AllRecordsOk, WellFormed, Descending;
      validAfter, freshUntil, weights, scale := ns.validAfter, ns.freshUntil, ns.weights, ns.scale;
      stats, history, hib := ns.stats, ns.history, map[];
      descs := descs + ns.descs;
    }

    ghost predicate NetworkSet(now: int)
      reads this`needs, this`descs, this`stats, this`hib, this`scale, this`validAfter, this`freshUntil, this`history, clients
    {
      && Distinct() && AllDequesOk(States(), needs.Keys, now) && AllRecordsOk(States(), descs, now)
      && scale > 0 && freshUntil == validAfter + HOUR && Descending(history)
      && WellFormed(stats, descs) && stats.Keys <= hib.Keys
    }

    // The simulation starts with a need for port 80.
    method SeedNeeds(ghost now: int)
      requires NetworkSet(now) && needs == map[] && Recorded()
      requires forall i :: 0 <= i < |clients| ==> States()[i].clean == []
      modifies this`needs, clients, this`trace, this`log, this`minutes
      ensures NetworkSet(now) && Recorded() && log == old(log) && minutes == old(minutes)
      ensures needs == Seeds(validAfter)
      ensures forall i :: 0 <= i < |clients| ==> States()[i] == old(States())[i].(covered := old(States())[i].covered[80 := 0])
    {
      hide NetworkSet, RecordedAt, StepOk;
      ghost var was := Now();
      SeedClients(now);
      SeedingOk(clients, congestionAware, was, Now());
      Note(was, Seeding);
    }

    method SeedClients(ghost now: int)
      requires NetworkSet(now) && needs == map[]
      requires forall i :: 0 <= i < |clients| ==> States()[i].clean == []
      modifies this`needs, clients
      ensures NetworkSet(now) && needs == Seeds(validAfter)
      ensures forall i :: 0 <= i < |clients| ==> States()[i] == old(States())[i].(covered := old(States())[i].covered[80 := 0])
    {
      hide AllDequesOk, WellFormed, Descending, AllRecordsOk;
      ghost var before := States();
      assert needs.Keys == {};
      for i := 0 to |clients|
        invariant forall j :: i <= j < |clients| ==> clients[j].State() == before[j]
        invariant forall j :: 0 <= j < i ==> clients[j].State() == before[j].(covered := before[j].covered[80 := 0])
      {
        clients[i].SeedPortNeed(80);
      }
      needs := map[80 := Need(Some(validAfter + PORT_NEED_LIFETIME), true, false, PORT_NEED_COVER_NUM)];
      assert needs.Keys == {80};
      SeedAllOk(before, States(), descs, now);
    }

    // Every client takes note of the new consensus.
    method UpdateClients(ghost now: int)
      requires NetworkSet(now) && Recorded()
      modifies clients, this`trace, this`log, this`minutes
      ensures NetworkSet(now) && AllClientsOk(States(), View(), needs.Keys, now)
      ensures Recorded() && log == old(log) && minutes == old(minutes)
    {
      hide NetworkSet, AllClientsOk, Begun, RecordedAt, StepOk;
      ghost var was := Now();
      BeginClients(now);
      BeginningOk(clients, congestionAware, was, Now());
      Note(was, Beginning);
    }

    method BeginClients(ghost now: int)
      requires NetworkSet(now)
      modifies clients
      ensures NetworkSet(now) && AllClientsOk(States(), View(), needs.Keys, now)
      ensures forall i :: 0 <= i < |clients| ==> States()[i] == Begun(old(States())[i], Now().net)
    {
      hide DequesOk, WellFormed, Descending, RecordsOk, ClientOk, Begun;
      ghost var before := States();
      for i := 0 to |clients|
        invariant forall j :: i <= j < |clients| ==> clients[j].State() == before[j]
        invariant forall j :: 0 <= j < i ==>
                    ClientOk(clients[j].State(), View(), needs.Keys, now) && clients[j].State() == Begun(before[j], Now().net)
      {
        BeginClient(i, before[i], now);
      }
      forall j | 0 <= j < |clients| ensures DequesOk(States()[j], needs.Keys, now) && RecordsOk(States()[j].guards, descs, now) {
        ClientOkBetween(States()[j], View(), needs.Keys, now);
      }
    }

    method BeginClient(i: nat, ghost before: ClientState, ghost now: int)
      requires i < |clients| && clients[i].State() == before
      requires DequesOk(before, needs.Keys, now) && RecordsOk(before.guards, descs, now) && stats.Keys <= hib.Keys
      modifies clients[i]
      ensures ClientOk(clients[i].State(), View(), needs.Keys, now)
      ensures clients[i].State() == Begun(before, Now().net)
    {
      DequesBasics(before, needs.Keys, now);
      hide DequesOk, RecordsOk, ClientOk, PeriodGuards;
      PeriodClientOk(before, View(), needs.Keys, now);
      clients[i].PeriodClientUpdate(stats, validAfter, freshUntil);
    }

    // The lists of relays to draw from during the period.
    method WeighRelays(ghost now: int) returns (ok: bool)
      requires NetworkSet(now) && AllClientsOk(States(), View(), needs.Keys, now) && opts.Valid()
      modifies this`guards, this`middles, this`exits, this`streamExits
      ensures ok ==> Ok(now)
      ensures ok <==> !StartWeightless(stats, descs, weights, scale, needs)
    {
      hide NetworkSet, AllClientsOk, WellFormed, Drawable, Weighed, ExitListsOk, NetworkOk, Ok, States, GuardKind, MiddleKind;
      SetIsWellFormed(now);
      hide GuardsWeightless, MiddlesWeightless, NeedWeightless;
      var lists := WeighNeeds();
      if lists == None {
        return false;
      }
      var middleList := WeighMiddles();
      if middleList == None {
        return false;
      }
      var guardList := WeighGuards();
      if guardList == None {
        return false;
      }
      SetLists(guardList.value, middleList.value, lists.value, now);
      return true;
    }

    method SetLists(guardList: WeightedNodes, middleList: WeightedNodes, lists: map<nat, WeightedNodes>, ghost now: int)
      requires NetworkSet(now) && AllClientsOk(States(), View(), needs.Keys, now) && opts.Valid()
      requires Weighed(guardList, GuardKind(View()), stats, GuardPosition, weights, scale) && ExitListsOk(View(), needs, lists)
      requires Weighed(middleList, MiddleKind(View()), stats, MiddlePosition, weights, scale)
      modifies this`guards, this`middles, this`exits, this`streamExits
      ensures Ok(now)
    {
      hide NetworkSet, AllClientsOk, WellFormed, Drawable, Weighed, ExitListsOk, NetworkOk, Ok, States, GuardKind, MiddleKind;
      SetIsWellFormed(now);
      ghost var v := View();
      NewListsOk(v, guardList, middleList, needs, lists);
      guards, middles, exits, streamExits := guardList, middleList, lists, map[];
      NewListsSet(v, now);
    }

    lemma SetIsWellFormed(now: int)
      requires NetworkSet(now)
      ensures WellFormed(stats, descs) && scale > 0 && stats.Keys <= hib.Keys
    {}

    lemma NewListsSet(v: View, now: int)
      requires NetworkSet(now) && NetworkOk(View(), needs, exits, streamExits) && AllClientsOk(States(), v, needs.Keys, now)
      requires v.stats == stats && v.descs == descs && v.hib == hib
      ensures Ok(now)
    {
      hide NetworkOk, ClientOk, AllDequesOk, AllRecordsOk, WellFormed, Descending;
      forall i | 0 <= i < |clients| ensures ClientOk(States()[i], View(), needs.Keys, now) {
        SameForClient(States()[i], v, View(), needs.Keys, now);
      }
    }

    method WeighMiddles() returns (list: Option<WeightedNodes>)
      requires WellFormed(stats, descs) && scale > 0
      ensures list.Some? ==> Weighed(list.value, MiddleKind(View()), stats, MiddlePosition, weights, scale)
      ensures list == None <==> MiddlesWeightless(stats, weights, scale)
    {
      hide Weighed, PositionWeight;
      var nodes := FilterMiddles(stats, descs);
      list := WeighNodes(nodes, MiddleKind(View()), stats, MiddlePosition, weights, scale);
    }

    method WeighGuards() returns (list: Option<WeightedNodes>)
      requires WellFormed(stats, descs) && scale > 0
      ensures list.Some? ==> Weighed(list.value, GuardKind(View()), stats, GuardPosition, weights, scale)
      ensures list == None <==> GuardsWeightless(stats, weights, scale)
    {
      hide Weighed, PositionWeight;
      var nodes := FilterGuards(stats, descs);
      list := WeighNodes(nodes, GuardKind(View()), stats, GuardPosition, weights, scale);
    }

    method WeighNeeds() returns (lists: Option<map<nat, WeightedNodes>>)
      requires WellFormed(stats, descs) && scale > 0
      ensures lists.Some? ==> ExitListsOk(View(), needs, lists.value)
      ensures lists == None <==> NeedWeightless(stats, descs, weights, scale, needs)
    {
      hide ExitListOk, WellFormed, ExitsWeightless;
      var done: map<nat, WeightedNodes> := map[];
      var todo := needs.Keys;
      while todo != {}
        invariant todo <= needs.Keys
        invariant forall p :: p in needs && p !in todo ==>
                    p in done && ExitListOk(View(), done[p], true, needs[p].fast, needs[p].stable, PortOnly(p)) &&
                    !ExitsWeightless(stats, descs, weights, scale, needs[p].fast, needs[p].stable, PortOnly(p), false)
        decreases |todo|
      {
        var port :| port in todo;
        todo := todo - {port};
        var list := WeighExits(needs[port].fast, needs[port].stable, PortOnly(port), false);
        if list == None {
          return None;
        }
        done := done[port := list.value];
      }
      return Some(done);
    }

    method StartPeriod(state: Option<NetworkState>, ghost now: int) returns (res: Outcome<()>)
      requires Between(now) && (if state.Some? then StateOk(state.value) else periodEnd.Some?) && opts.Valid() && Recorded()
      modifies this`stats, this`descs, this`weights, this`scale, this`validAfter, this`freshUntil, this`periodEnd,
               this`hib, this`history, this`needs, this`guards, this`middles, this`exits, this`streamExits,
               this`trace, this`log, this`minutes, clients
      ensures res.Done? ==> Recorded() && log == old(log) && minutes == old(minutes)
      ensures validAfter == old(NextStart(state))
      ensures res == Raised(GapOrOverlap) <==> old(periodEnd).Some? && old(periodEnd).value != old(NextStart(state))
      ensures res.Done? || res == Raised(GapOrOverlap) || res == Raised(ZeroTotalWeight)
      ensures res == Raised(ZeroTotalWeight) <==> res != Raised(GapOrOverlap) && StartWeightless(stats, descs, weights, scale, needs)
      ensures res.Done? ==> Ok(now) && freshUntil == validAfter + HOUR && periodEnd == Some(freshUntil)
      ensures res.Done? && state.Some? ==> (history, hib) == ReplayTo(state.value.history, map[], validAfter)
      ensures res.Done? && state == None ==> history == [] && hib == old(hib)
      ensures res != Raised(GapOrOverlap) ==> needs == if old(periodEnd) == None then Seeds(validAfter) else old(needs)
      ensures Loaded() == Learned(old(Loaded()), state)
    {
      hide Ok, NetworkSet, Between, AllClientsOk, ReplayTo, StateOk, RecordedAt, States, NextNet, StartWeightless;
      var first := periodEnd == None;
      if first {
        NothingYet(now);
      }
      ghost var was := Now();
      var ok := SetNetwork(state, now);
      if !ok {
        return Raised(GapOrOverlap);
      }
      NextNetShows(was.net, state);
      SetForAnHour(now);
      ok := BeginHour(first, now);
      return if ok then Done(()) else Raised(ZeroTotalWeight);
    }

    method BeginHour(first: bool, ghost now: int) returns (ok: bool)
      requires NetworkSet(now) && opts.Valid() && Recorded()
      requires first ==> needs == map[] && forall i :: 0 <= i < |clients| ==> States()[i].clean == []
      modifies this`needs, this`guards, this`middles, this`exits, this`streamExits, this`trace, this`log, this`minutes, clients
      ensures ok ==> Ok(now) && Recorded() && log == old(log) && minutes == old(minutes)
      ensures needs == if first then Seeds(validAfter) else old(needs)
      ensures ok <==> !StartWeightless(stats, descs, weights, scale, needs)
    {
      hide Ok, NetworkSet, AllClientsOk, RecordedAt, States, StartWeightless;
      if first {
        SeedNeeds(now);
      }
      UpdateClients(now);
      ok := WeighRelays(now);
    }

    lemma NothingYet(now: int)
      requires Between(now) && periodEnd == None
      ensures needs == map[] && forall i :: 0 <= i < |clients| ==> States()[i].clean == []
    {}

    lemma SetForAnHour(now: int)
      requires NetworkSet(now)
      ensures freshUntil == validAfter + HOUR
    {}

    lemma PassedLater(streams: seq<Stream>, time: int, later: int)
      requires Passed(streams, time) && time <= later
      ensures Passed(streams, later)
    {}

    // The minutes of a period, one after the other.
    method RunMinutes(streams: seq<Stream>, ghost a: nat, ghost now: int) returns (res: Outcome<()>)
      requires Ok(now) && now <= validAfter && freshUntil == validAfter + HOUR && Recorded()
      requires Ordered(streams) && Passed(streams, validAfter)
      requires NeedsOf(needs, streams)
      requires HandedTo(streams, a, validAfter)
      modifies this`needs, this`exits, this`streamExits, this`hib, this`history, this`streamStart, clients, rng
      modifies this`trace, this`log, this`minutes
      ensures !res.Done? ==> StopOk(res, streams)
      ensures res.Raised? ==> res.error in {NoNtorCircuit, ZeroTotalWeight}
      ensures res.Done? ==> Ok(freshUntil) && HandedTo(streams, a, freshUntil)
      ensures res.Done? ==> Recorded() && minutes == old(minutes) + Minutes(Loaded(), old(history), old(hib), validAfter, MINUTES_A_PERIOD)
      ensures res.Done? ==> Passed(streams, freshUntil)
      ensures res.Done? ==> (history, hib) == ReplayTo(old(history), old(hib), freshUntil - TIME_STEP)
      ensures res.Done? ==> EndsWith(minutes, hib, Loaded()) && NeedsOf(needs, streams)
    {
      hide HandedTo, Passed, StopOk, NeedsOf, Ok, Ordered, Before, Handed, ReplayTo, RecordedAt, States, Minutes, EndsWith;
      var time := validAfter;
      ghost var seen, n := now, 0;
      NoMinutes(Loaded(), history, hib, validAfter);
      while time < freshUntil
        invariant validAfter <= time <= freshUntil && time == validAfter + TIME_STEP * n
        invariant Recorded() && minutes == old(minutes) + Minutes(Loaded(), old(history), old(hib), validAfter, n)
        invariant NeedsOf(needs, streams)
        invariant Ok(seen) && seen <= time && (time > validAfter ==> seen == time)
        invariant Passed(streams, time)
        invariant HandedTo(streams, a, time)
        invariant if time == validAfter then (history, hib) == (old(history), old(hib))
                  else (history, hib) == ReplayTo(old(history), old(hib), time - TIME_STEP)
      {
        if time > validAfter {
          ReplayCompose(old(history), old(hib), time - TIME_STEP, time);
        }
        res := Minute(streams, time, a, seen);
        if !res.Done? {
          return;
        }
        PassedLater(streams, time, time + TIME_STEP);
        MinutesMore(Loaded(), old(history), old(hib), validAfter, n);
        time := time + TIME_STEP;
        seen, n := time, n + 1;
      }
      assert n == MINUTES_A_PERIOD;
      LastMinute(old(minutes), Loaded(), old(history), old(hib), validAfter);
      return Done(());
    }

    // One consensus period. Whatever the new consensus says, every client is in order again after
    // it, and every stream of the period has been handed to every client.
    method RunPeriod(state: Option<NetworkState>, streams: seq<Stream>, ghost a: nat, ghost now: int) returns (res: Outcome<()>)
      requires Between(now) && (if state.Some? then StateOk(state.value) else periodEnd.Some?) && opts.Valid() && Recorded()
      requires Ordered(streams) && Passed(streams, NextStart(state))
      requires now <= NextStart(state) && NeedsOf(needs, streams)
      requires HandedTo(streams, a, NextStart(state))
      modifies this, clients, rng
      ensures origin == old(origin)
      ensures res == Raised(GapOrOverlap) <==> old(periodEnd).Some? && old(periodEnd).value != old(NextStart(state))
      ensures !res.Done? && res != Raised(GapOrOverlap) ==> PeriodStopOk(res, streams)
      ensures res.Raised? ==> res.error in {GapOrOverlap, NoNtorCircuit, ZeroTotalWeight}
      ensures res.Done? ==> validAfter == old(NextStart(state)) && periodEnd == Some(freshUntil) && Between(freshUntil)
      ensures res.Done? ==> freshUntil == validAfter + HOUR
      ensures validAfter == old(NextStart(state)) && Loaded() == Learned(old(Loaded()), state)
      ensures res.Done? ==> Recorded() && HandedTo(streams, a, freshUntil) && Passed(streams, freshUntil)
      ensures res.Done? ==> minutes == old(minutes) + PeriodMinutes(state, old(Loaded()), old(hib), validAfter)
      ensures res.Done? ==> EndsWith(minutes, hib, Loaded()) && NeedsOf(needs, streams)
      ensures res.Done? && state.Some? ==> (history, hib) == ReplayTo(state.value.history, map[], freshUntil - TIME_STEP)
    {
      hide HandedTo, Passed, HoursOk, ViewOk, Loaded, StartWeightless, StopOk, PeriodStopOk, NeedsOf, Seeds, NetworkOk, AllClientsOk, AllDequesOk, AllRecordsOk, WellFormed, Descending, StateOk, Handed, ReplayTo, RecordedAt;
      hide Ok, Between, States, Minutes, PeriodMinutes, EndsWith, Ordered, Before, Recorded, Learned, NextStart;
      res := StartPeriod(state, now);
      SeedsOf(validAfter, streams);
      if !res.Done? {
        StartExplains(res, streams);
        return;
      }
      PeriodReplayed(state, old(Loaded()), old(hib), Loaded(), history, hib, validAfter);
      res := EndPeriod(streams, a, now);
    }

    // The minutes, after which the next period may begin.
    method EndPeriod(streams: seq<Stream>, ghost a: nat, ghost now: int) returns (res: Outcome<()>)
      requires Ok(now) && now <= validAfter && periodEnd == Some(freshUntil) && freshUntil == validAfter + HOUR && Recorded()
      requires Ordered(streams) && Passed(streams, validAfter) && NeedsOf(needs, streams) && HandedTo(streams, a, validAfter)
      modifies this`needs, this`exits, this`streamExits, this`hib, this`history, this`streamStart, clients, rng
      modifies this`trace, this`log, this`minutes
      ensures !res.Done? ==> PeriodStopOk(res, streams)
      ensures res.Raised? ==> res.error in {NoNtorCircuit, ZeroTotalWeight}
      ensures res.Done? ==> Between(freshUntil) && HandedTo(streams, a, freshUntil) && Passed(streams, freshUntil)
      ensures res.Done? ==> Recorded() && minutes == old(minutes) + Minutes(Loaded(), old(history), old(hib), validAfter, MINUTES_A_PERIOD)
      ensures res.Done? ==> (history, hib) == ReplayTo(old(history), old(hib), freshUntil - TIME_STEP)
      ensures res.Done? ==> EndsWith(minutes, hib, Loaded()) && NeedsOf(needs, streams)
    {
      hide HandedTo, Passed, Loaded, StopOk, PeriodStopOk, NeedsOf, ReplayTo, Ok, Between, Minutes, EndsWith, Ordered, Recorded;
      res := RunMinutes(streams, a, now);
      MinutesExplain(res, streams);
      if res.Done? {
        OkIsBetween(freshUntil);
      }
    }

    lemma StartExplains(res: Outcome<()>, streams: seq<Stream>)
      requires res == Raised(GapOrOverlap) || (res == Raised(ZeroTotalWeight) && StartWeightless(stats, descs, weights, scale, needs))
      requires res != Raised(GapOrOverlap) ==> NeedsOf(needs, streams)
      ensures res != Raised(GapOrOverlap) ==> PeriodStopOk(res, streams)
    {
      hide ExitsWeightless, GuardsWeightless, MiddlesWeightless;
      if res == Raised(ZeroTotalWeight) && NeedWeightless(stats, descs, weights, scale, needs) {
        var p :| p in needs && ExitsWeightless(stats, descs, weights, scale, needs[p].fast, needs[p].stable, PortOnly(p), false);
        assert PortAsked(streams, p) && PortWeightless(p);
      }
    }

    lemma MinutesExplain(res: Outcome<()>, streams: seq<Stream>)
      requires !res.Done? ==> StopOk(res, streams)
      ensures !res.Done? ==> PeriodStopOk(res, streams)
    {
      hide StopOk;
    }

    ghost function NextStart(state: Option<NetworkState>): int
      reads this`validAfter
    {
      if state.Some? then state.value.validAfter else validAfter + HOUR
    }

    lemma OkIsBetween(now: int)
      requires Ok(now) && periodEnd == Some(freshUntil) && freshUntil == validAfter + HOUR
      ensures Between(now)
    {
      forall i | 0 <= i < |clients| ensures DequesOk(States()[i], needs.Keys, now) && RecordsOk(States()[i].guards, descs, now) {
        ClientOkBetween(States()[i], View(), needs.Keys, now);
      }
    }

    // A whole run over the hours, from new clients on. Neither the raise for gaps and overlaps nor
    // the one for an expired consensus can happen. A lawful run of steps leads from the new clients
    // to the final state: in it each stream of the simulated time is given a circuit by each client
    // exactly once and in order, and the clients are served in each minute, under the hibernation
    // statuses of that minute.
    method Run(states: seq<Option<NetworkState>>, streams: seq<Stream>) returns (res: Outcome<()>)
      requires Distinct() && needs == map[] && streamStart == 0 && descs == map[] && periodEnd == None
      requires forall i :: 0 <= i < |clients| ==> clients[i].State() == ClientState(map[], map[], [], [], 0)
      requires opts.Valid() && Hourly(states) && Ordered(streams)
      modifies this, clients, rng
      ensures !res.Done? ==> PeriodStopOk(res, streams) && exists k :: InHour(states, k)
      ensures res.Raised? ==> res.error in {NoNtorCircuit, ZeroTotalWeight}
      ensures res.Done? ==>
                var begin := states[0].value.validAfter;
                && Between(begin + HOUR * |states|)
                && Lawful(clients, congestionAware, old(Now()), trace, Now())
                && (forall k :: 0 <= k < |trace| ==> AllKept(trace[k].after))
                && Handings(trace) == Handed(streams, Before(streams, begin), Before(streams, begin + HOUR * |states|), |clients|)
                && HoursOk(MinutesOf(trace), states, |states|)
    {
      hide PeriodStopOk, InHour, StateOk, Handed, States, Before, HoursOk, Lawful, AfterHours, Recorded, Between;
      ghost var begin := states[0].value.validAfter;
      ghost var a := Before(streams, begin);
      NewClientsOk(begin);
      NewClientsKept();
      hide Distinct, AllKept;
      NoneHanded(streams, a, |clients|);
      NoHours(states);
      ghost var first := Now();
      StartRecord();
      SeedsOf(begin, streams);
      AtTheStart(states, streams, first);
      for k := 0 to |states|
        invariant AfterHours(states, streams, k, first)
      {
        res := RunHour(states, streams, k, first);
        if !res.Done? {
          assert InHour(states, k + 1);
          return;
        }
      }
      RecordShows(states, streams, |states|, first);
      RunKeeps(clients, congestionAware, first, trace, Now());
      return Done(());
    }

    // The network is that of the first k hours.
    ghost predicate InHour(states: seq<Option<NetworkState>>, k: nat)
      requires Hourly(states)
      reads this`stats, this`weights, this`scale, this`descs, this`validAfter
    {
      0 < k <= |states| && Loaded() == KnownAfter(states, k) && validAfter == states[0].value.validAfter + HOUR * (k - 1)
    }

    // Where a run is after k hours.
    ghost predicate AfterHours(states: seq<Option<NetworkState>>, streams: seq<Stream>, k: nat, first: World)
      requires Hourly(states) && k <= |states|
      reads this, clients
    {
      var begin := states[0].value.validAfter;
      && (k == 0 ==> periodEnd == None && streamStart == 0 && descs == map[])
      && (k > 0 ==> InHour(states, k))
      && (k > 0 ==> periodEnd == Some(freshUntil) && freshUntil == begin + HOUR * k && validAfter == freshUntil - HOUR)
      && Between(begin + HOUR * k)
      && streamStart <= |streams| && (streamStart > 0 ==> streams[streamStart - 1].time < begin + HOUR * k)
      && origin == first && Recorded()
      && log == Handed(streams, Before(streams, begin), Before(streams, begin + HOUR * k), |clients|)
      && HoursOk(minutes, states, k) && (k > 0 ==> EndsWith(minutes, hib, Loaded())) && NeedsOf(needs, streams)
    }

    lemma AtTheStart(states: seq<Option<NetworkState>>, streams: seq<Stream>, first: World)
      requires Hourly(states) && periodEnd == None && streamStart == 0 && descs == map[] && Between(states[0].value.validAfter)
      requires origin == first && Recorded() && log == [] && minutes == [] && HoursOk([], states, 0) && NeedsOf(needs, streams)
      requires Handed(streams, Before(streams, states[0].value.validAfter), Before(streams, states[0].value.validAfter), |clients|) == []
      ensures AfterHours(states, streams, 0, first)
    {
      hide Between, Recorded, HoursOk, Handed, Before;
    }

    method RunHour(states: seq<Option<NetworkState>>, streams: seq<Stream>, k: nat, ghost first: World) returns (res: Outcome<()>)
      requires Hourly(states) && k < |states| && Ordered(streams) && opts.Valid() && AfterHours(states, streams, k, first)
      modifies this, clients, rng
      ensures !res.Done? ==> PeriodStopOk(res, streams) && InHour(states, k + 1)
      ensures res.Raised? ==> res.error in {NoNtorCircuit, ZeroTotalWeight}
      ensures res.Done? ==> AfterHours(states, streams, k + 1, first)
    {
      hide KnownAfter, PeriodStopOk, NeedsOf, StateOk, Handed, States, Ordered, Before, RecordedAt, HoursOk, Between, EndsWith;
      ghost var begin := states[0].value.validAfter;
      assert NextStart(states[k]) == begin + HOUR * k by { HourlyAt(states, k); }
      BeforeGrows(streams, begin, begin + HOUR * k);
      ghost var was, consWas, hibWas := minutes, Loaded(), hib;
      HourlyAt(states, k);
      KnownNext(states, k, Loaded());
      res := RunPeriod(states[k], streams, Before(streams, begin), begin + HOUR * k);
      if res.Done? {
        MoreHours(was, consWas, hibWas, states, k);
      }
    }

    ghost method StartRecord()
      modifies this`origin, this`trace, this`log, this`minutes
      ensures Recorded() && origin == Now() && log == [] && minutes == []
    {
      origin, trace, log, minutes := Now(), [], [], [];
    }

    lemma RecordShows(states: seq<Option<NetworkState>>, streams: seq<Stream>, k: nat, first: World)
      requires Hourly(states) && k <= |states| && AfterHours(states, streams, k, first)
      ensures var begin := states[0].value.validAfter;
              && Between(begin + HOUR * k) && Lawful(clients, congestionAware, first, trace, Now())
              && Handings(trace) == Handed(streams, Before(streams, begin), Before(streams, begin + HOUR * k), |clients|)
              && HoursOk(MinutesOf(trace), states, k)
    {
      hide Lawful, Between, HoursOk, Handed, Before;
    }

    lemma NewClientsKept()
      requires needs == map[] && forall i :: 0 <= i < |clients| ==> clients[i].State() == ClientState(map[], map[], [], [], 0)
      ensures AllKept(Now())
    {
      NewClientOk(0);
      RecordsOfNone(descs, 0);
      hide DequesOk, RecordsOk;
      assert needs.Keys == {};
    }

    lemma NewClientsOk(now: int)
      requires Distinct() && needs == map[] && descs == map[] && periodEnd == None
      requires forall i :: 0 <= i < |clients| ==> clients[i].State() == ClientState(map[], map[], [], [], 0)
      ensures Between(now)
    {
      NewClientOk(now);
      hide DequesOk, RecordsOk;
      assert needs.Keys == {};
    }
  }

  method EndOfMinute(streams: seq<Stream>, begin: nat, time: int) returns (end: nat)
    requires Ordered(streams) && begin <= |streams| && (begin > 0 ==> streams[begin - 1].time < time)
    ensures begin <= end == Before(streams, time)
  {
    end := begin;
    while end < |streams| && streams[end].time < time
      invariant begin <= end <= |streams| && (end > 0 ==> streams[end - 1].time < time)
    {
      end := end + 1;
    }
    BeforeIs(streams, time, end);
  }

  ghost function Unexpired(needs: Needs, time: int): Needs
  {
    map p | p in needs && !Expired(needs[p], time) :: needs[p]
  }

  lemma FewerNeeds(v: View, needs: Needs, port: nat, exits: map<nat, WeightedNodes>, lists: StreamExits)
    requires NetworkOk(v, needs, exits, lists)
    ensures NetworkOk(v, needs - {port}, exits, lists)
  {
    hide ViewOk, ExitListOk, StreamExitsOk;
  }

  lemma KnownPort(s: ClientState, v: View, needs: set<nat>, now: int, port: nat)
    requires ClientOk(s, v, needs, now) && port in needs
    ensures port in s.covered
  {}

  lemma {:induction false} ReplayKeeps(es: seq<Entry>, status: map<Fp, bool>, t: int)
    requires Descending(es)
    ensures status.Keys <= ReplayTo(es, status, t).1.Keys && Descending(ReplayTo(es, status, t).0)
  {
    if es != [] && es[|es| - 1].time <= t {
      ReplayKeeps(es[..|es| - 1], status[es[|es| - 1].fp := es[|es| - 1].hibernating], t);
    }
  }

  lemma NetworkParts(v: View, needs: Needs, exits: map<nat, WeightedNodes>, lists: StreamExits)
    requires NetworkOk(v, needs, exits, lists)
    ensures ViewOk(v) && ExitListsOk(v, needs, exits)
  {}

  ghost predicate AllServed(states: seq<ClientState>, v: View, needs: Needs, time: int)
  {
    forall i :: 0 <= i < |states| ==> Served(states[i], v, needs, time)
  }

  ghost predicate AllTicked(before: seq<ClientState>, states: seq<ClientState>, v: View, needs: Needs, time: int)
  {
    |before| == |states| && forall i :: 0 <= i < |states| ==> Ticked(before[i], states[i], v, needs, time)
  }

  lemma AllTickedServed(before: seq<ClientState>, states: seq<ClientState>, v: View, needs: Needs, time: int)
    requires AllTicked(before, states, v, needs, time)
    ensures AllServed(states, v, needs, time)
  {
    hide Served, CoversMore, GuardsEvolve;
  }

  lemma TickedIs(s: ClientState, s': ClientState, v: View, needs: Needs, time: int)
    requires ClientOk(s', v, needs.Keys, time) && AllFit(s', time, v.hib) && NeedsMet(s', needs)
    requires CoversMore(Swept(s, time, v.hib), s', v, needs, time) && GuardsEvolve(s.guards, s'.guards, time, v.opts, v.hib)
    ensures Ticked(s, s', v, needs, time)
  {}

  // The first n clients have been updated.
  ghost predicate TickedUpTo(before: seq<ClientState>, states: seq<ClientState>, n: nat, v: View, needs: Needs, now: int, time: int)
  {
    n <= |states| == |before| && (forall i :: 0 <= i < n ==> Ticked(before[i], states[i], v, needs, time)) &&
    forall i :: n <= i < |states| ==> states[i] == before[i] && ClientOk(states[i], v, needs.Keys, now)
  }

  lemma TickedNone(states: seq<ClientState>, v: View, needs: Needs, now: int, time: int)
    requires AllClientsOk(states, v, needs.Keys, now)
    ensures TickedUpTo(states, states, 0, v, needs, now, time)
  {}

  lemma TickedNext(before: seq<ClientState>, states: seq<ClientState>, n: nat, v: View, needs: Needs, now: int, time: int)
    requires TickedUpTo(before, states, n, v, needs, now, time) && n < |states|
    ensures n < |before| && states[n] == before[n] && ClientOk(states[n], v, needs.Keys, now)
  {}

  lemma TickedMore(before: seq<ClientState>, states: seq<ClientState>, n: nat, s: ClientState, v: View, needs: Needs,
                   now: int, time: int)
    requires TickedUpTo(before, states, n, v, needs, now, time) && n < |states| && Ticked(states[n], s, v, needs, time)
    ensures TickedUpTo(before, states[n := s], n + 1, v, needs, now, time)
  {
    hide Ticked, ClientOk;
  }

  lemma TickedToTheEnd(before: seq<ClientState>, states: seq<ClientState>, v: View, needs: Needs, now: int, time: int)
    requires TickedUpTo(before, states, |states|, v, needs, now, time)
    ensures AllTicked(before, states, v, needs, time) && AllClientsOk(states, v, needs.Keys, time)
  {
    hide ClientOk, CoversMore, GuardsEvolve, AllFit, NeedsMet;
  }

  // The tape ended at client n.
  lemma TickedEarly(before: seq<ClientState>, states: seq<ClientState>, n: nat, s: ClientState, v: View, needs: Needs,
                    now: int, time: int)
    requires TickedUpTo(before, states, n, v, needs, now, time) && n < |states|
    requires ClientOk(s, v, needs.Keys, time) && now <= time
    ensures AllClientsOk(states[n := s], v, needs.Keys, time)
  {
    hide ClientOk, CoversMore, GuardsEvolve, AllFit, NeedsMet;
    var states' := states[n := s];
    forall i | 0 <= i < |states'| ensures ClientOk(states'[i], v, needs.Keys, time) {
      if i > n {
        ClientOkLater(states[i], v, needs.Keys, now, time);
      } else if i < n {
        assert Ticked(before[i], states[i], v, needs, time);
      }
    }
  }

  lemma NoneExpired(needs: Needs, time: int)
    ensures forall p :: p in Unexpired(needs, time) ==> !Expired(Unexpired(needs, time)[p], time)
  {}

  // ---------- the steps are lawful ----------

  lemma NextNetIs(net: Net, state: Option<NetworkState>, net': Net)
    requires net'.validAfter == if state.Some? then state.value.validAfter else net.validAfter + HOUR
    requires net'.freshUntil == if state.Some? then state.value.freshUntil else net.freshUntil + HOUR
    requires ConsensusOf(net') == Learned(ConsensusOf(net), state)
    requires (net'.history, net'.hib) ==
               if state.Some? then ReplayTo(state.value.history, map[], net'.validAfter) else ([], net.hib)
    ensures net' == NextNet(net, state)
  {
    hide ReplayTo;
  }

  lemma NextNetShows(net: Net, state: Option<NetworkState>)
    ensures state.Some? ==>
              (NextNet(net, state).history, NextNet(net, state).hib) == ReplayTo(state.value.history, map[], state.value.validAfter)
    ensures state == None ==> NextNet(net, state).history == [] && NextNet(net, state).hib == net.hib
    ensures ConsensusOf(NextNet(net, state)) == Learned(ConsensusOf(net), state)
  {
    hide ReplayTo;
  }

  lemma LoadingOk(clients: seq<Client>, aware: bool, was: World, state: Option<NetworkState>, now: World)
    requires |was.clients| == |clients| && now.clients == was.clients && now.needs == was.needs
    requires now.net == NextNet(was.net, state)
    ensures StepOk(clients, aware, Step(was, Loading(state), now))
  {
    hide NextNet;
  }

  lemma SeedingOk(clients: seq<Client>, aware: bool, was: World, now: World)
    requires |was.clients| == |now.clients| == |clients| && was.needs == map[] && now.needs == Seeds(was.net.validAfter)
    requires now.net == was.net
    requires forall c :: 0 <= c < |clients| ==> now.clients[c] == was.clients[c].(covered := was.clients[c].covered[80 := 0])
    ensures StepOk(clients, aware, Step(was, Seeding, now))
  {}

  lemma BeginningOk(clients: seq<Client>, aware: bool, was: World, now: World)
    requires |was.clients| == |now.clients| == |clients| && now.needs == was.needs && now.net == was.net
    requires forall c :: 0 <= c < |clients| ==> now.clients[c] == Begun(was.clients[c], was.net)
    ensures StepOk(clients, aware, Step(was, Beginning, now))
  {
    hide Begun;
  }

  lemma ExpiringOk(clients: seq<Client>, aware: bool, was: World, port: nat, time: int, now: World)
    requires |was.clients| == |now.clients| == |clients| && port in was.needs && Expired(was.needs[port], time)
    requires now.needs == was.needs - {port} && now.net == was.net
    requires forall c :: 0 <= c < |clients| ==> now.clients[c] == RemoveNeed(was.clients[c], port)
    ensures StepOk(clients, aware, Step(was, Expiring(port, time), now))
  {
    hide RemoveNeed;
  }

  lemma ReplayingOk(clients: seq<Client>, aware: bool, was: World, time: int, now: World)
    requires |was.clients| == |clients| && now.clients == was.clients && now.needs == was.needs
    requires now.net == was.net.(history := now.net.history, hib := now.net.hib)
    requires (now.net.history, now.net.hib) == ReplayTo(was.net.history, was.net.hib, time)
    ensures StepOk(clients, aware, Step(was, Replaying(time), now))
  {
    hide ReplayTo;
  }

  lemma TickingOk(clients: seq<Client>, aware: bool, was: World, time: int, v: View, now: World)
    requires |was.clients| == |now.clients| == |clients| && now.needs == was.needs && now.net == was.net && Fits(v, was.net) && ViewOk(v)
    requires (forall p :: p in was.needs ==> !Expired(was.needs[p], time)) && AllTicked(was.clients, now.clients, v, was.needs, time)
    ensures StepOk(clients, aware, Step(was, Ticking(time, v), now))
  {
    hide Ticked, ViewOk, Fits, Expired;
  }

  lemma RenewingOk(clients: seq<Client>, aware: bool, was: World, stream: Stream, now: World)
    requires |was.clients| == |clients| && now.clients == was.clients && now.net == was.net
    requires StreamPort(stream) in was.needs && now.needs == Renewed(was.needs, stream)
    ensures StepOk(clients, aware, Step(was, Renewing(stream), now))
  {
    hide Renewed;
  }

  lemma NewNeedOk(clients: seq<Client>, aware: bool, was: World, stream: Stream, now: World)
    requires |was.clients| == |now.clients| == |clients| && now.net == was.net
    requires StreamPort(stream) !in was.needs && now.needs == Renewed(was.needs, stream) && StreamPort(stream) in now.needs
    requires var port := StreamPort(stream);
             forall c :: 0 <= c < |clients| ==>
               now.clients[c] == AddNeed(was.clients[c], port, SuitsNeed(port, now.needs[port], was.net.descs))
    ensures StepOk(clients, aware, Step(was, Renewing(stream), now))
  {
    hide Renewed, AddNeed, SuitsNeed;
  }

  lemma GivingOk(clients: seq<Client>, aware: bool, was: World, index: nat, c: nat, stream: Stream, circuit: Circuit, v: View, now: World)
    requires |was.clients| == |now.clients| == |clients| && now.needs == was.needs && now.net == was.net && Fits(v, was.net) && ViewOk(v)
    requires c < |clients| && now.clients == was.clients[c := now.clients[c]] && IsRenewed(was.needs, stream)
    requires Given(clients[c], aware, was.clients[c], now.clients[c], was.needs.Keys, index, stream, circuit, v)
    ensures StepOk(clients, aware, Step(was, Giving(index, c, stream, circuit, v), now))
  {
    hide Given, ViewOk, Fits, IsRenewed;
  }

  lemma GivenIs(client: Client, aware: bool, s: ClientState, s': ClientState, needs: set<nat>,
                index: nat, stream: Stream, c: Circuit, v: View)
    requires v.validAfter <= stream.time < v.freshUntil && ClientOk(s', v, needs, stream.time)
    requires c in s'.dirty && c.exit in v.descs && Supports(c, stream, v.descs)
    requires if aware then AssignedByPing(s, s', v, stream, c, client.creationPing(s.nextId), client.usePing(index))
             else Assigned(s, s', v, stream, c)
    requires GuardsEvolve(s.guards, s'.guards, stream.time, v.opts, v.hib)
    ensures Given(client, aware, s, s', needs, index, stream, c, v)
  {
    hide ClientOk, Assigned, AssignedByPing, GuardsEvolve;
  }

  // ---------- the minutes of the hours ----------

  const MINUTES_A_PERIOD := 60

  lemma NoMinutes(cons: Consensus, history: seq<Entry>, hib: map<Fp, bool>, begin: int)
    ensures Minutes(cons, history, hib, begin, 0) == []
  {}

  // The minutes of one period: consensus and history are its own, or else all is as it was.
  ghost function PeriodMinutes(state: Option<NetworkState>, cons: Consensus, hib: map<Fp, bool>, begin: int): (r: seq<Minute>)
    ensures |r| == MINUTES_A_PERIOD
  {
    match state
    case Some(ns) => Minutes(Learned(cons, state), ns.history, map[], begin, MINUTES_A_PERIOD)
    case None => Minutes(cons, [], hib, begin, MINUTES_A_PERIOD)
  }

  // The minutes replayed from the start of a period on are those of its whole history.
  lemma PeriodReplayed(state: Option<NetworkState>, consWas: Consensus, hibWas: map<Fp, bool>,
                       cons: Consensus, history: seq<Entry>, hib: map<Fp, bool>, begin: int)
    requires cons == Learned(consWas, state)
    requires (history, hib) == if state.Some? then ReplayTo(state.value.history, map[], begin) else ([], hibWas)
    ensures Minutes(cons, history, hib, begin, MINUTES_A_PERIOD) == PeriodMinutes(state, consWas, hibWas, begin)
    ensures state.Some? ==>
              ReplayTo(history, hib, begin + HOUR - TIME_STEP) == ReplayTo(state.value.history, map[], begin + HOUR - TIME_STEP)
  {
    hide ReplayTo, Minutes;
    if state.Some? {
      ReplayCompose(state.value.history, map[], begin, begin + HOUR - TIME_STEP);
      MinutesAfter(cons, state.value.history, map[], begin, MINUTES_A_PERIOD);
    }
  }

  // One hour: sixty minutes from a time on, under the given consensus and with the statuses that
  // replaying the hour's history gives, if there is one.
  ghost predicate HourOk(minutes: seq<Minute>, state: Option<NetworkState>, begin: int, cons: Consensus)
  {
    && |minutes| == MINUTES_A_PERIOD
    && (forall m :: 0 <= m < MINUTES_A_PERIOD ==> minutes[m].0 == begin + TIME_STEP * m && minutes[m].2 == cons)
    && (state.Some? ==> minutes == Minutes(cons, state.value.history, map[], begin, MINUTES_A_PERIOD))
  }

  // The first k hours, one after the other, each under what is known by then.
  ghost predicate HoursOk(minutes: seq<Minute>, states: seq<Option<NetworkState>>, k: nat)
    requires Hourly(states) && k <= |states|
  {
    && |minutes| == MINUTES_A_PERIOD * k
    && (forall h :: 0 <= h < k ==>
          HourOk(HourOfRun(minutes, h), states[h], states[0].value.validAfter + HOUR * h, KnownAfter(states, h + 1)))
    && (forall h :: 0 < h < k && states[h] == None ==> GoesOn(HourOfRun(minutes, h), minutes[MINUTES_A_PERIOD * h - 1]))
  }

  // Over a gap the consensus and the statuses of the last minute stay.
  ghost predicate GoesOn(hour: seq<Minute>, last: Minute)
  {
    forall m :: m in hour ==> (m.1, m.2) == (last.1, last.2)
  }

  ghost predicate EndsWith(minutes: seq<Minute>, hib: map<Fp, bool>, cons: Consensus)
  {
    minutes != [] && (minutes[|minutes| - 1].1, minutes[|minutes| - 1].2) == (hib, cons)
  }

  lemma LastMinute(before: seq<Minute>, cons: Consensus, history: seq<Entry>, hib: map<Fp, bool>, begin: int)
    ensures EndsWith(before + Minutes(cons, history, hib, begin, MINUTES_A_PERIOD),
                     ReplayTo(history, hib, begin + HOUR - TIME_STEP).1, cons)
  {
    hide ReplayTo;
    var more := Minutes(cons, history, hib, begin, MINUTES_A_PERIOD);
    assert (before + more)[|before| + MINUTES_A_PERIOD - 1] == more[MINUTES_A_PERIOD - 1]
        == MinuteAt(cons, history, hib, begin, MINUTES_A_PERIOD - 1);
  }

  ghost function HourOfRun(minutes: seq<Minute>, h: nat): seq<Minute>
    requires MINUTES_A_PERIOD * (h + 1) <= |minutes|
  {
    minutes[MINUTES_A_PERIOD * h..MINUTES_A_PERIOD * (h + 1)]
  }

  lemma NoHours(states: seq<Option<NetworkState>>)
    requires Hourly(states)
    ensures HoursOk([], states, 0)
  {}

  lemma PeriodIsHour(state: Option<NetworkState>, cons: Consensus, hib: map<Fp, bool>, begin: int)
    ensures HourOk(PeriodMinutes(state, cons, hib, begin), state, begin, Learned(cons, state))
  {}

  lemma GapGoesOn(cons: Consensus, hib: map<Fp, bool>, begin: int, last: Minute)
    requires (last.1, last.2) == (hib, cons)
    ensures GoesOn(PeriodMinutes(None, cons, hib, begin), last)
  {
    forall m | m in PeriodMinutes(None, cons, hib, begin) ensures (m.1, m.2) == (hib, cons) {
      var k :| 0 <= k < MINUTES_A_PERIOD && m == MinuteAt(cons, [], hib, begin, k);
      ReplayNothing(hib, begin + TIME_STEP * k);
    }
  }

  lemma MoreHours(minutes: seq<Minute>, cons: Consensus, hib: map<Fp, bool>, states: seq<Option<NetworkState>>, k: nat)
    requires Hourly(states) && k < |states| && HoursOk(minutes, states, k) && (k > 0 ==> EndsWith(minutes, hib, cons))
    requires KnownBefore(states, k, cons)
    ensures HoursOk(minutes + PeriodMinutes(states[k], cons, hib, states[0].value.validAfter + HOUR * k), states, k + 1)
  {
    hide HourOk, PeriodMinutes, GoesOn, Learned, KnownAfter;
    KnownNext(states, k, cons);
    var xs := PeriodMinutes(states[k], cons, hib, states[0].value.validAfter + HOUR * k);
    var all := minutes + xs;
    PeriodIsHour(states[k], cons, hib, states[0].value.validAfter + HOUR * k);
    assert HourOfRun(all, k) == xs;
    forall h | 0 <= h < k ensures HourOfRun(all, h) == HourOfRun(minutes, h) {
      assert MINUTES_A_PERIOD * (h + 1) <= |minutes|;
    }
    if k > 0 && states[k] == None {
      GapGoesOn(cons, hib, states[0].value.validAfter + HOUR * k, minutes[|minutes| - 1]);
    }
  }

  // ---------- port needs of streams ----------

  function StreamKey(stream: Stream): Option<nat> { if stream.Resolve? then None else Some(stream.port) }

  lemma RenewedNetwork(v: View, needs: Needs, needs': Needs, exits: map<nat, WeightedNodes>, lists: StreamExits)
    requires NetworkOk(v, needs, exits, lists) && needs'.Keys == needs.Keys
    requires forall p :: p in needs ==> needs'[p] == needs[p].(expires := needs'[p].expires)
    ensures NetworkOk(v, needs', exits, lists)
  {
    hide ViewOk, ExitListOk, StreamExitsOk;
  }

  lemma NewNeedNetwork(v: View, needs: Needs, port: nat, need: Need, exits: map<nat, WeightedNodes>, list: WeightedNodes,
                       lists: StreamExits)
    requires NetworkOk(v, needs, exits, lists) && port !in needs
    requires ExitListOk(v, list, true, need.fast, need.stable, PortOnly(port))
    ensures NetworkOk(v, needs[port := need], exits[port := list], lists)
  {
    hide ViewOk, ExitListOk, StreamExitsOk;
  }

  lemma NetworkBasics(v: View, needs: Needs, exits: map<nat, WeightedNodes>, lists: StreamExits)
    requires NetworkOk(v, needs, exits, lists)
    ensures WellFormed(v.stats, v.descs)
  {}

  lemma ViewWellFormed(v: View)
    requires ViewOk(v)
    ensures WellFormed(v.stats, v.descs)
  {}

  lemma ExitsInDescs(s: ClientState, v: View, needs: set<nat>, now: int)
    requires ClientOk(s, v, needs, now) && WellFormed(v.stats, v.descs)
    ensures forall c :: c in s.clean ==> c.exit in v.descs
  {
    hide DequesOk, GuardsOk;
    forall c | c in s.clean ensures c.exit in v.descs {
      assert c in s.clean + s.dirty;
    }
  }

  // ---------- part of the clients have a stream already ----------

  ghost predicate MixedOk(states: seq<ClientState>, n: nat, v: View, needs: set<nat>, now: int, later: int)
  {
    n <= |states| && (forall i :: 0 <= i < n ==> ClientOk(states[i], v, needs, later)) &&
    forall i :: n <= i < |states| ==> ClientOk(states[i], v, needs, now)
  }

  lemma MixedNone(states: seq<ClientState>, v: View, needs: set<nat>, now: int, later: int)
    requires AllClientsOk(states, v, needs, now)
    ensures MixedOk(states, 0, v, needs, now, later)
  {}

  lemma MixedNext(states: seq<ClientState>, n: nat, v: View, needs: set<nat>, now: int, later: int)
    requires MixedOk(states, n, v, needs, now, later) && n < |states|
    ensures ClientOk(states[n], v, needs, now)
  {}

  lemma MixedMore(states: seq<ClientState>, n: nat, s: ClientState, v: View, needs: set<nat>, now: int, later: int)
    requires MixedOk(states, n, v, needs, now, later) && n < |states| && ClientOk(s, v, needs, later)
    ensures MixedOk(states[n := s], n + 1, v, needs, now, later)
  {}

  lemma MixedAll(states: seq<ClientState>, n: nat, v: View, needs: set<nat>, now: int, later: int)
    requires MixedOk(states, n, v, needs, now, later) && now <= later
    ensures AllClientsOk(states, v, needs, later)
  {
    hide ClientOk;
    forall i | 0 <= i < |states| ensures ClientOk(states[i], v, needs, later) {
      if n <= i {
        ClientOkLater(states[i], v, needs, now, later);
      }
    }
  }

  // ---------- a new consensus ----------

  lemma RecordsKept(states: seq<ClientState>, descs: Descriptors, more: Descriptors, now: int)
    requires AllRecordsOk(states, descs, now)
    ensures AllRecordsOk(states, descs + more, now)
  {}

  // Descriptors are kept for good; a newer one replaces an older one.
  lemma MergeWellFormed(ns: NetworkState, descs: Descriptors)
    requires StateOk(ns) && forall r :: r in descs ==> IsAddress(descs[r].address)
    ensures WellFormed(ns.stats, descs + ns.descs) && Descending(ns.history) && ns.scale > 0
  {}

  lemma NothingDescends()
    ensures Descending([])
  {}

  lemma InitialStatuses(ns: NetworkState)
    requires StateOk(ns)
    ensures ns.stats.Keys <= ReplayTo(ns.history, map[], ns.validAfter).1.Keys
  {
    ReplayKnowsAll(ns.stats.Keys, ns.history, map[], ns.validAfter);
  }

  // Every relay with an entry by now has a status once the entries by now are replayed.
  lemma ReplayKnowsAll(relays: set<Fp>, es: seq<Entry>, status: map<Fp, bool>, t: int)
    requires Descending(es) && forall r :: r in relays ==> exists e :: e in es && e.fp == r && e.time <= t
    ensures relays <= ReplayTo(es, status, t).1.Keys
  {
    forall r | r in relays ensures r in ReplayTo(es, status, t).1 {
      var e :| e in es && e.fp == r && e.time <= t;
      ReplayKnows(es, status, t, e);
    }
  }

  lemma {:induction false} ReplayKnows(es: seq<Entry>, status: map<Fp, bool>, t: int, e: Entry)
    requires Descending(es) && e in es && e.time <= t
    ensures e.fp in ReplayTo(es, status, t).1
  {
    var front, last := es[..|es| - 1], es[|es| - 1];
    assert es == front + [last] && last.time <= e.time;
    hide Descending;
    FrontDescends(es);
    if e in front {
      ReplayKnows(front, status[last.fp := last.hibernating], t, e);
    } else {
      ReplayKeeps(front, status[last.fp := last.hibernating], t);
    }
  }

  lemma FrontDescends(es: seq<Entry>)
    requires es != [] && Descending(es)
    ensures Descending(es[..|es| - 1])
  {}

  lemma ReplayNothing(status: map<Fp, bool>, t: int)
    ensures ReplayTo([], status, t) == ([], status)
  {}

  lemma SeedOk(s: ClientState, now: int)
    requires DequesOk(s, {}, now) && s.clean == []
    ensures DequesOk(s.(covered := s.covered[80 := 0]), {80}, now)
  {
    var s' := s.(covered := s.covered[80 := 0]);
    assert s'.covered.Keys == {80};
    RecoverOk(s, s.clean, s'.covered, {80}, now);
  }

  lemma RecordsOfNone(descs: Descriptors, now: int)
    ensures RecordsOk(map[], descs, now)
  {}

  lemma NewClientOk(now: int)
    ensures DequesOk(ClientState(map[], map[], [], [], 0), {}, now) && RecordsOk(map[], map[], now)
  {}

  lemma SeedAllOk(before: seq<ClientState>, after: seq<ClientState>, descs: Descriptors, now: int)
    requires AllDequesOk(before, {}, now) && AllRecordsOk(before, descs, now) && |after| == |before|
    requires forall i :: 0 <= i < |before| ==>
               before[i].clean == [] && after[i] == before[i].(covered := before[i].covered[80 := 0])
    ensures AllDequesOk(after, {80}, now) && AllRecordsOk(after, descs, now)
  {
    hide DequesOk, RecordsOk;
    forall i | 0 <= i < |after| ensures DequesOk(after[i], {80}, now) && RecordsOk(after[i].guards, descs, now) {
      SeedOk(before[i], now);
    }
  }

  // The invariant of a client does not speak of the lists to draw from.
  lemma SameForClient(s: ClientState, v: View, v': View, needs: set<nat>, now: int)
    requires ClientOk(s, v, needs, now) && v'.stats == v.stats && v'.descs == v.descs && v'.hib == v.hib
    ensures ClientOk(s, v', needs, now)
  {}

  lemma NewListsOk(v: View, guards: WeightedNodes, middles: WeightedNodes, needs: Needs, exits: map<nat, WeightedNodes>)
    requires WellFormed(v.stats, v.descs) && v.stats.Keys <= v.hib.Keys && v.opts.Valid()
    requires Weighed(guards, GuardKind(v), v.stats, GuardPosition, v.weights, v.scale) && ExitListsOk(v, needs, exits)
    requires Weighed(middles, MiddleKind(v), v.stats, MiddlePosition, v.weights, v.scale)
    ensures NetworkOk(v.(guards := guards, middles := middles), needs, exits, map[])
  {
    hide Drawable, Weighed, ExitFilter;
    var v' := v.(guards := guards, middles := middles);
    assert GuardKind(v') == GuardKind(v) && MiddleKind(v') == MiddleKind(v);
    assert forall exact, fast, stable, target :: ExitKind(v', exact, fast, stable, target) == ExitKind(v, exact, fast, stable, target);
    forall p | p in needs
      ensures p in exits && ExitListOk(v', exits[p], true, needs[p].fast, needs[p].stable, PortOnly(p)) {
      assert ExitListOk(v, exits[p], true, needs[p].fast, needs[p].stable, PortOnly(p));
    }
  }
}
