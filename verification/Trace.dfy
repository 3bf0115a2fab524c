/**
  The simulation as a transition system: the state that its steps change, the kinds of step there
  are, and what a run of lawful steps says of every stream and every minute.
*/
module Trace {
  import opened Basics
  import opened Network
  import opened Selection
  import opened ClientSpec
  import opened Clients
  import opened Hibernation

  const TIME_STEP := 60

  datatype NetworkState = NetworkState(validAfter: int, freshUntil: int, weights: BwWeights, scale: nat,
                                       stats: RelStats, history: seq<Entry>, descs: Descriptors)

  // A consensus for one hour, whose relays all have a descriptor and an initial hibernation status.
  ghost predicate StateOk(ns: NetworkState)
  {
    && ns.scale > 0 && ns.freshUntil == ns.validAfter + HOUR
    && WellFormed(ns.stats, ns.descs) && Descending(ns.history)
    && forall r :: r in ns.stats ==> exists e :: e in ns.history && e.fp == r && e.time <= ns.validAfter
  }

  // ---------- the state ----------

  // What the current consensus says, and what remains of the hibernation history.
  datatype Net = Net(stats: RelStats, descs: Descriptors, hib: map<Fp, bool>, history: seq<Entry>, validAfter: int, freshUntil: int,
                     weights: BwWeights, scale: nat)

  // What the consensus in force says, and all descriptors known by then.
  datatype Consensus = Consensus(stats: RelStats, weights: BwWeights, scale: nat, descs: Descriptors)

  function ConsensusOf(net: Net): Consensus { Consensus(net.stats, net.weights, net.scale, net.descs) }

  // What is known once an hour's network is loaded: without a file what was known before.
  function Learned(cons: Consensus, state: Option<NetworkState>): Consensus
  {
    match state
    case Some(ns) => Consensus(ns.stats, ns.weights, ns.scale, cons.descs + ns.descs)
    case None => cons
  }

  datatype World = World(clients: seq<ClientState>, needs: Needs, net: Net)

  ghost predicate Fits(v: View, net: Net)
  {
    && v.stats == net.stats && v.descs == net.descs && v.hib == net.hib
    && v.validAfter == net.validAfter && v.freshUntil == net.freshUntil && v.weights == net.weights && v.scale == net.scale
  }

  // ---------- the steps ----------

  datatype Event = Loading(state: Option<NetworkState>) | Seeding | Beginning
                 | Expiring(port: nat, time: int) | Replaying(time: int) | Ticking(time: int, v: View)
                 | Renewing(stream: Stream)
                 | Giving(index: nat, client: nat, stream: Stream, circuit: Circuit, v: View)

  datatype Step = Step(before: World, event: Event, after: World)

  predicate Expired(need: Need, time: int) { need.expires.Some? && need.expires.value <= time }

  function StreamPort(stream: Stream): nat { if stream.Resolve? then 80 else stream.port }

  // A stream's port is needed for at least another hour.
  function Renewed(needs: Needs, stream: Stream): Needs
  {
    var port, until := StreamPort(stream), stream.time + PORT_NEED_LIFETIME;
    if port !in needs then needs[port := Need(Some(until), true, port in LONG_LIVED_PORTS, PORT_NEED_COVER_NUM)]
    else if needs[port].expires.Some? && needs[port].expires.value < until then needs[port := needs[port].(expires := Some(until))]
    else needs
  }

  // The port is needed for that long already.
  ghost predicate IsRenewed(needs: Needs, stream: Stream) { Renewed(needs, stream) == needs }

  lemma RenewedOnce(needs: Needs, stream: Stream)
    ensures IsRenewed(Renewed(needs, stream), stream)
  {}

  function Seeds(validAfter: int): Needs
  {
    map[80 := Need(Some(validAfter + PORT_NEED_LIFETIME), true, false, PORT_NEED_COVER_NUM)]
  }

  // The next hour's network; without a file the last one goes on.
  ghost function NextNet(net: Net, state: Option<NetworkState>): Net
  {
    match state
    case Some(ns) =>
      var (rest, hib) := ReplayTo(ns.history, map[], ns.validAfter);
      Net(ns.stats, net.descs + ns.descs, hib, rest, ns.validAfter, ns.freshUntil, ns.weights, ns.scale)
    case None => net.(history := [], validAfter := net.validAfter + HOUR, freshUntil := net.freshUntil + HOUR)
  }

  // A client after the first steps of a period.
  ghost function Begun(s: ClientState, net: Net): ClientState
  {
    var t := s.(guards := PeriodGuards(s.guards, net.stats, net.validAfter, net.freshUntil));
    KeepClean(KeepDirty(t, Up(RelayDown(net.stats))), Up(RelayDown(net.stats)))
  }

  // A client after a minute's updates: every need is met, as far as there is room, by circuits
  // that are young enough and have only relays that are awake.
  ghost predicate Served(s: ClientState, v: View, needs: Needs, time: int)
  {
    ClientOk(s, v, needs.Keys, time) && AllFit(s, time, v.hib) && NeedsMet(s, needs)
  }

  // What the updates have done to it: old circuits are gone, and those that came were made for a need.
  ghost predicate Ticked(s: ClientState, s': ClientState, v: View, needs: Needs, time: int)
  {
    && Served(s', v, needs, time) && CoversMore(Swept(s, time, v.hib), s', v, needs, time)
    && GuardsEvolve(s.guards, s'.guards, time, v.opts, v.hib)
  }

  // A stream has been given a circuit, which is dirty now and supports it.
  ghost predicate Given(client: Client, congestionAware: bool, s: ClientState, s': ClientState, needs: set<nat>,
                        index: nat, stream: Stream, c: Circuit, v: View)
  {
    && v.validAfter <= stream.time < v.freshUntil && ClientOk(s', v, needs, stream.time)
    && c in s'.dirty && Suits(stream, v.descs)(c)
    && (if congestionAware then AssignedByPing(s, s', v, stream, c, client.creationPing(s.nextId), client.usePing(index))
        else Assigned(s, s', v, stream, c))
    && GuardsEvolve(s.guards, s'.guards, stream.time, v.opts, v.hib)
  }

  ghost predicate StepOk(clients: seq<Client>, congestionAware: bool, step: Step)
  {
    var s, s' := step.before.clients, step.after.clients;
    var needs, needs' := step.before.needs, step.after.needs;
    var net, net' := step.before.net, step.after.net;
    |s| == |s'| == |clients| &&
    match step.event
    case Loading(state) => s' == s && needs' == needs && net' == NextNet(net, state)
    case Seeding =>
      needs == map[] && needs' == Seeds(net.validAfter) && net' == net &&
      forall c :: 0 <= c < |s| ==> s'[c] == s[c].(covered := s[c].covered[80 := 0])
    case Beginning => needs' == needs && net' == net && forall c :: 0 <= c < |s| ==> s'[c] == Begun(s[c], net)
    case Expiring(port, time) =>
      port in needs && Expired(needs[port], time) && needs' == needs - {port} && net' == net &&
      forall c :: 0 <= c < |s| ==> s'[c] == RemoveNeed(s[c], port)
    case Replaying(time) =>
      s' == s && needs' == needs && net' == net.(history := net'.history, hib := net'.hib) &&
      (net'.history, net'.hib) == ReplayTo(net.history, net.hib, time)
    case Ticking(time, v) =>
      needs' == needs && net' == net && Fits(v, net) && ViewOk(v) && (forall p :: p in needs ==> !Expired(needs[p], time)) &&
      forall c :: 0 <= c < |s| ==> Ticked(s[c], s'[c], v, needs, time)
    case Renewing(stream) =>
      needs' == Renewed(needs, stream) && net' == net &&
      var port := StreamPort(stream);
      if port in needs then s' == s
      else forall c :: 0 <= c < |s| ==> s'[c] == AddNeed(s[c], port, SuitsNeed(port, needs'[port], net.descs))
    case Giving(index, client, stream, circuit, v) =>
      needs' == needs && IsRenewed(needs, stream) && net' == net && Fits(v, net) && ViewOk(v) &&
      client < |s| && s' == s[client := s'[client]] &&
      Given(clients[client], congestionAware, s[client], s'[client], needs.Keys, index, stream, circuit, v)
  }

  // ---------- runs ----------

  // Every step is lawful and starts where the one before it ended.
  ghost predicate Lawful(clients: seq<Client>, congestionAware: bool, origin: World, trace: seq<Step>, world: World)
  {
    if trace == [] then world == origin
    else
      var last := trace[|trace| - 1];
      last.after == world && StepOk(clients, congestionAware, last) &&
      Lawful(clients, congestionAware, origin, trace[..|trace| - 1], last.before)
  }

  type Handing = (nat, nat, Stream)
  type Minute = (int, map<Fp, bool>, Consensus)

  ghost function HandingOf(step: Step): seq<Handing>
  {
    if step.event.Giving? then [(step.event.index, step.event.client, step.event.stream)] else []
  }

  ghost function MinuteOf(step: Step): seq<Minute>
  {
    if step.event.Ticking? then [(step.event.time, step.after.net.hib, ConsensusOf(step.after.net))] else []
  }

  // Which stream went to which client, in order.
  ghost function Handings(trace: seq<Step>): seq<Handing>
  {
    if trace == [] then [] else Handings(trace[..|trace| - 1]) + HandingOf(trace[|trace| - 1])
  }

  // The minutes that were simulated, with the hibernation statuses and the consensus then.
  ghost function MinutesOf(trace: seq<Step>): seq<Minute>
  {
    if trace == [] then [] else MinutesOf(trace[..|trace| - 1]) + MinuteOf(trace[|trace| - 1])
  }

  lemma LawfulMore(clients: seq<Client>, congestionAware: bool, origin: World, trace: seq<Step>, step: Step)
    requires Lawful(clients, congestionAware, origin, trace, step.before) && StepOk(clients, congestionAware, step)
    ensures Lawful(clients, congestionAware, origin, trace + [step], step.after)
    ensures Handings(trace + [step]) == Handings(trace) + HandingOf(step)
    ensures MinutesOf(trace + [step]) == MinutesOf(trace) + MinuteOf(step)
  {
    assert (trace + [step])[..|trace|] == trace;
  }

  lemma {:induction false} LawfulSteps(clients: seq<Client>, congestionAware: bool, origin: World, trace: seq<Step>, world: World, k: nat)
    requires Lawful(clients, congestionAware, origin, trace, world) && k < |trace|
    ensures StepOk(clients, congestionAware, trace[k])
    ensures trace[k].before == if k == 0 then origin else trace[k - 1].after
  {
    if k < |trace| - 1 {
      LawfulSteps(clients, congestionAware, origin, trace[..|trace| - 1], trace[|trace| - 1].before, k);
    }
  }

  // ---------- every state of a run ----------

  // A client's books are kept: there is a counter for each need and no other, which is the number
  // of clean circuits that cover it; clean and dirty circuits are told apart and ordered by age, as
  // many clean ones at most as allowed, and no two circuits have one identity; and only a guard
  // that was once contacted, and whose descriptor is known, is recorded as unreachable.
  ghost predicate Kept(s: ClientState, needs: set<nat>, descs: Descriptors)
  {
    exists now :: DequesOk(s, needs, now) && RecordsOk(s.guards, descs, now)
  }

  ghost predicate AllKept(world: World)
  {
    forall c :: 0 <= c < |world.clients| ==> Kept(world.clients[c], world.needs.Keys, world.net.descs)
  }

  lemma KeptMeans(s: ClientState, needs: set<nat>, descs: Descriptors)
    requires Kept(s, needs, descs)
    ensures s.covered.Keys == needs && forall p :: p in needs ==> s.covered[p] == CoverCount(s.clean, p)
    ensures |s.clean| <= MAX_UNUSED_OPEN_CIRCUITS
    ensures forall c :: c in s.clean ==> c.dirtyTime == None && c.covering <= needs
    ensures forall c :: c in s.dirty ==> c.dirtyTime.Some?
    ensures forall i, j :: 0 <= i < j < |s.clean| ==> s.clean[i].time >= s.clean[j].time
    ensures forall i, j :: 0 <= i < j < |s.dirty| ==> s.dirty[i].dirtyTime.value >= s.dirty[j].dirtyTime.value
    ensures forall i, j :: 0 <= i < j < |s.clean + s.dirty| ==> (s.clean + s.dirty)[i].id != (s.clean + s.dirty)[j].id
    ensures forall g :: g in s.guards ==>
              g in descs && (s.guards[g].unreachableSince.Some? ==>
                               s.guards[g].madeContact && s.guards[g].unreachableSince.value <= s.guards[g].lastAttempted)
  {}

  lemma SeedKept(s: ClientState, descs: Descriptors)
    requires Kept(s, {}, descs)
    ensures Kept(s.(covered := s.covered[80 := 0]), {80}, descs)
  {
    var now :| DequesOk(s, {}, now) && RecordsOk(s.guards, descs, now);
    hide RecordsOk;
    var s' := s.(covered := s.covered[80 := 0]);
    assert s'.covered.Keys == {80};
    NoneCover(s.clean, 80);
    RecoverOk(s, s.clean, s'.covered, {80}, now);
  }

  lemma {:induction false} NoneCover(circs: seq<Circuit>, port: nat)
    requires forall c :: c in circs ==> port !in c.covering
    ensures CoverCount(circs, port) == 0
  {
    if circs != [] {
      NoneCover(circs[..|circs| - 1], port);
    }
  }

  lemma BegunKept(s: ClientState, net: Net, needs: set<nat>)
    requires Kept(s, needs, net.descs)
    ensures Kept(Begun(s, net), needs, net.descs) && Marked(Begun(s, net), net.stats)
  {
    hide DequesOk, PeriodGuards;
    var now :| DequesOk(s, needs, now) && RecordsOk(s.guards, net.descs, now);
    var up := Up(RelayDown(net.stats));
    var t := s.(guards := PeriodGuards(s.guards, net.stats, net.validAfter, net.freshUntil));
    GuardsDoNotMatter(s, t.guards, needs, now);
    KeepDirtyOk(t, up, needs, now);
    KeepCleanOk(KeepDirty(t, up), up, needs, now);
    PeriodGuardsOk(s.guards, net.stats, net.descs, now, net.validAfter, net.freshUntil);
    assert DequesOk(Begun(s, net), needs, now) && RecordsOk(Begun(s, net).guards, net.descs, now);
  }

  lemma RemoveNeedKept(s: ClientState, port: nat, needs: set<nat>, descs: Descriptors)
    requires Kept(s, needs, descs)
    ensures Kept(RemoveNeed(s, port), needs - {port}, descs)
  {
    hide DequesOk, RecordsOk;
    var now :| DequesOk(s, needs, now) && RecordsOk(s.guards, descs, now);
    RemoveNeedOk(s, port, needs, now);
  }

  lemma AddNeedKept(s: ClientState, port: nat, covers: Circuit -> bool, needs: set<nat>, descs: Descriptors)
    requires Kept(s, needs, descs) && port !in needs
    ensures Kept(AddNeed(s, port, covers), needs + {port}, descs)
  {
    hide DequesOk, RecordsOk;
    var now :| DequesOk(s, needs, now) && RecordsOk(s.guards, descs, now);
    AddNeedOk(s, port, covers, needs, now);
  }

  // No descriptor is ever forgotten.
  lemma MoreDescriptors(s: ClientState, needs: set<nat>, descs: Descriptors, more: Descriptors)
    requires Kept(s, needs, descs) && descs.Keys <= more.Keys
    ensures Kept(s, needs, more)
  {
    hide DequesOk;
    var now :| DequesOk(s, needs, now) && RecordsOk(s.guards, descs, now);
    assert RecordsOk(s.guards, more, now);
  }

  // Whatever the step, it keeps every client's books.
  lemma StepKeeps(clients: seq<Client>, congestionAware: bool, step: Step)
    requires AllKept(step.before) && StepOk(clients, congestionAware, step)
    ensures AllKept(step.after)
  {
    hide Kept, Begun, RemoveNeed, AddNeed, Ticked, Given, Renewed, IsRenewed, NextNet, ReplayTo, SuitsNeed;
    var s, s' := step.before.clients, step.after.clients;
    var needs, needs' := step.before.needs, step.after.needs;
    var net, net' := step.before.net, step.after.net;
    forall c | 0 <= c < |s'| ensures Kept(s'[c], needs'.Keys, net'.descs) {
      assert Kept(s[c], needs.Keys, net.descs);
      match step.event
      case Loading(state) =>
        NextDescriptors(net, state);
        MoreDescriptors(s[c], needs.Keys, net.descs, net'.descs);
      case Replaying(_) =>
      case Seeding =>
        assert needs.Keys == {} && needs'.Keys == {80};
        SeedKept(s[c], net.descs);
      case Beginning => BegunKept(s[c], net, needs.Keys);
      case Expiring(port, _) =>
        assert needs'.Keys == needs.Keys - {port};
        RemoveNeedKept(s[c], port, needs.Keys, net.descs);
      case Ticking(time, v) => TickedKept(s[c], s'[c], v, needs, time);
      case Renewing(stream) =>
        var port := StreamPort(stream);
        RenewedKeys(needs, stream);
        if port in needs {
          assert needs'.Keys == needs.Keys;
        } else {
          AddNeedKept(s[c], port, SuitsNeed(port, needs'[port], net.descs), needs.Keys, net.descs);
        }
      case Giving(index, client, stream, circuit, v) =>
        if c == client {
          GivenKept(clients[c], congestionAware, s[c], s'[c], needs.Keys, index, stream, circuit, v);
        }
    }
  }

  lemma NextDescriptors(net: Net, state: Option<NetworkState>)
    ensures net.descs.Keys <= NextNet(net, state).descs.Keys
  {
    hide ReplayTo;
  }

  lemma RenewedKeys(needs: Needs, stream: Stream)
    ensures Renewed(needs, stream).Keys == needs.Keys + {StreamPort(stream)}
  {}

  lemma TickedKept(s: ClientState, s': ClientState, v: View, needs: Needs, time: int)
    requires Ticked(s, s', v, needs, time)
    ensures Kept(s', needs.Keys, v.descs) && Marked(s', v.stats)
  {
    hide DequesOk;
    assert DequesOk(s', needs.Keys, time) && RecordsOk(s'.guards, v.descs, time);
  }

  lemma GivenKept(client: Client, congestionAware: bool, s: ClientState, s': ClientState, needs: set<nat>,
                  index: nat, stream: Stream, c: Circuit, v: View)
    requires Given(client, congestionAware, s, s', needs, index, stream, c, v)
    ensures Kept(s', needs, v.descs) && Marked(s', v.stats)
  {
    hide DequesOk, Assigned, AssignedByPing, GuardsEvolve;
    assert DequesOk(s', needs, stream.time) && RecordsOk(s'.guards, v.descs, stream.time);
  }

  // So every client's books are kept in every state of a lawful run.
  lemma {:induction false} RunKeeps(clients: seq<Client>, congestionAware: bool, origin: World, trace: seq<Step>, world: World)
    requires Lawful(clients, congestionAware, origin, trace, world) && AllKept(origin)
    ensures AllKept(world)
    ensures forall k :: 0 <= k < |trace| ==> AllKept(trace[k].before) && AllKept(trace[k].after)
  {
    hide StepOk, AllKept;
    if trace != [] {
      var front, last := trace[..|trace| - 1], trace[|trace| - 1];
      RunKeeps(clients, congestionAware, origin, front, last.before);
      StepKeeps(clients, congestionAware, last);
      forall k | 0 <= k < |trace| ensures AllKept(trace[k].before) && AllKept(trace[k].after) {
        assert k < |trace| - 1 ==> trace[k] == front[k];
      }
    }
  }

  // The guards marked bad are exactly those that the consensus does not list as running guards.
  ghost predicate Marked(s: ClientState, stats: RelStats)
  {
    forall g :: g in s.guards ==> (s.guards[g].badSince == None <==> GuardUp(g, stats))
  }

  ghost predicate AllMarked(world: World)
  {
    forall c :: 0 <= c < |world.clients| ==> Marked(world.clients[c], world.net.stats)
  }

  // The clients have taken note of the consensus loaded last.
  ghost predicate Settled(trace: seq<Step>, k: nat)
    requires k < |trace|
  {
    exists j :: 0 <= j <= k && SettledSince(trace, j, k)
  }

  ghost predicate SettledSince(trace: seq<Step>, j: nat, k: nat)
    requires j <= k < |trace|
  {
    trace[j].event.Beginning? && forall i :: j < i <= k ==> !trace[i].event.Loading?
  }

  lemma StepMarks(clients: seq<Client>, congestionAware: bool, step: Step)
    requires AllKept(step.before) && StepOk(clients, congestionAware, step)
    requires step.event.Beginning? || (AllMarked(step.before) && !step.event.Loading?)
    ensures AllMarked(step.after)
  {
    hide Kept, Begun, Ticked, Given, Renewed, IsRenewed, NextNet, ReplayTo, SuitsNeed;
    var s, s' := step.before.clients, step.after.clients;
    var needs := step.before.needs;
    forall c | 0 <= c < |s'| ensures Marked(s'[c], step.after.net.stats) {
      if step.event.Beginning? {
        assert Kept(s[c], needs.Keys, step.before.net.descs);
        BegunKept(s[c], step.before.net, needs.Keys);
      } else {
        assert Marked(s[c], step.before.net.stats);
      }
      match step.event
      case Ticking(time, v) => TickedKept(s[c], s'[c], v, needs, time);
      case Giving(index, client, stream, circuit, v) =>
        if c == client {
          GivenKept(clients[c], congestionAware, s[c], s'[c], needs.Keys, index, stream, circuit, v);
        }
      case _ =>
    }
  }

  lemma {:induction false} RunMarks(clients: seq<Client>, congestionAware: bool, origin: World, trace: seq<Step>, world: World, j: nat, k: nat)
    requires Lawful(clients, congestionAware, origin, trace, world) && AllKept(origin)
    requires j <= k < |trace| && SettledSince(trace, j, k)
    ensures AllMarked(trace[k].after)
    decreases k
  {
    hide Lawful, StepOk, AllKept, AllMarked;
    RunKeeps(clients, congestionAware, origin, trace, world);
    LawfulSteps(clients, congestionAware, origin, trace, world, k);
    if j < k {
      RunMarks(clients, congestionAware, origin, trace, world, j, k - 1);
    }
    StepMarks(clients, congestionAware, trace[k]);
  }

  // What that says of any client after any step.
  lemma EveryStateIsKept(clients: seq<Client>, congestionAware: bool, origin: World, trace: seq<Step>, world: World, k: nat, c: nat)
    requires Lawful(clients, congestionAware, origin, trace, world) && AllKept(origin) && k < |trace| && c < |clients|
    ensures |trace[k].after.clients| == |clients|
    ensures var s, needs, net := trace[k].after.clients[c], trace[k].after.needs, trace[k].after.net;
            && s.covered.Keys == needs.Keys && (forall p :: p in needs ==> s.covered[p] == CoverCount(s.clean, p))
            && |s.clean| <= MAX_UNUSED_OPEN_CIRCUITS
            && (forall d :: d in s.clean ==> d.dirtyTime == None && d.covering <= needs.Keys)
            && (forall d :: d in s.dirty ==> d.dirtyTime.Some?)
            && (forall i, j :: 0 <= i < j < |s.clean| ==> s.clean[i].time >= s.clean[j].time)
            && (forall i, j :: 0 <= i < j < |s.dirty| ==> s.dirty[i].dirtyTime.value >= s.dirty[j].dirtyTime.value)
            && (forall i, j :: 0 <= i < j < |s.clean + s.dirty| ==> (s.clean + s.dirty)[i].id != (s.clean + s.dirty)[j].id)
            && (forall g :: g in s.guards ==> g in net.descs)
            && (Settled(trace, k) ==> Marked(s, net.stats))
  {
    hide Lawful, Kept, Marked;
    RunKeeps(clients, congestionAware, origin, trace, world);
    LawfulSteps(clients, congestionAware, origin, trace, world, k);
    SameClients(clients, congestionAware, trace[k]);
    var s, needs, net := trace[k].after.clients[c], trace[k].after.needs, trace[k].after.net;
    assert AllKept(trace[k].after);
    KeptMeans(s, needs.Keys, net.descs);
    if Settled(trace, k) {
      var j :| 0 <= j <= k && SettledSince(trace, j, k);
      RunMarks(clients, congestionAware, origin, trace, world, j, k);
    }
  }

  lemma SameClients(clients: seq<Client>, congestionAware: bool, step: Step)
    requires StepOk(clients, congestionAware, step)
    ensures |step.before.clients| == |step.after.clients| == |clients|
  {}

  // ---------- guards that are down ----------

  // A client goes by the consensus in force when a period begins, in each minute's updates, and
  // when it is given a stream.
  ghost predicate GoesBy(step: Step, c: nat)
  {
    step.event.Beginning? || step.event.Ticking? || (step.event.Giving? && step.event.client == c)
  }

  ghost predicate Lists(step: Step, g: Fp) { GuardUp(g, step.after.net.stats) }

  // Of the steps up to the k-th, the i-th is the last at which the client went by a consensus.
  ghost predicate LastUse(trace: seq<Step>, c: nat, i: nat, k: int)
    requires k < |trace|
  {
    i <= k && GoesBy(trace[i], c) && forall m :: i < m <= k ==> !GoesBy(trace[m], c)
  }

  // The guard was listed when the client last went by a consensus, but not at the beginning of a
  // period with the j-th step, nor ever since.
  ghost predicate RowFrom(trace: seq<Step>, c: nat, g: Fp, i: nat, j: nat, k: nat)
    requires i < j <= k < |trace|
  {
    && LastUse(trace, c, i, j - 1) && Lists(trace[i], g) && trace[j].event.Beginning?
    && forall m :: j <= m <= k && GoesBy(trace[m], c) ==> !Lists(trace[m], g)
  }

  // At the k-th step the guard is in an unbroken row of consensuses without it, the first of which
  // is valid from the given time.
  ghost predicate DownSince(trace: seq<Step>, c: nat, g: Fp, k: nat, time: int)
    requires k < |trace|
  {
    exists i: nat, j: nat :: i < j <= k && RowFrom(trace, c, g, i, j, k) && trace[j].after.net.validAfter == time
  }

  // What one step does to a guard's mark.
  lemma GuardStep(clients: seq<Client>, congestionAware: bool, step: Step, c: nat, g: Fp)
    requires StepOk(clients, congestionAware, step) && c < |clients| && g in step.after.clients[c].guards
    ensures |step.before.clients| == |step.after.clients| == |clients|
    ensures var s, bad := step.before.clients[c].guards, step.after.clients[c].guards[g].badSince;
            if GoesBy(step, c) then
              (bad == None <==> Lists(step, g)) &&
              (bad.Some? ==> g in s && (s[g].badSince == bad ||
                                        (step.event.Beginning? && s[g].badSince == None && bad.value == step.after.net.validAfter)))
            else g in s && s[g].badSince == bad
  {
    hide Served, CoversMore, Assigned, AssignedByPing, ViewOk, ClientOk, Renewed, IsRenewed, NextNet, ReplayTo, SuitsNeed, Evolves, NewGuard;
    var s, s' := step.before.clients[c], step.after.clients[c];
    match step.event
    case Ticking(time, v) => TickedGuard(s, s', v, step.before.needs, time, g);
    case Giving(index, client, stream, circuit, v) =>
      if c == client {
        GivenGuard(clients[c], congestionAware, s, s', step.before.needs.Keys, index, stream, circuit, v, g);
      }
    case Beginning => BegunGuard(s, step.before.net, g);
    case _ =>
  }

  lemma BegunGuard(s: ClientState, net: Net, g: Fp)
    ensures g in Begun(s, net).guards ==>
              var bad := Begun(s, net).guards[g].badSince;
              && g in s.guards && Begun(s, net).guards[g] == s.guards[g].(badSince := bad)
              && (bad == None <==> GuardUp(g, net.stats))
              && (bad.Some? ==> bad == s.guards[g].badSince || (s.guards[g].badSince == None && bad.value == net.validAfter))
    ensures g in s.guards ==>
              (g !in Begun(s, net).guards <==>
                 || s.guards[g].expires <= net.validAfter
                 || (!GuardUp(g, net.stats) && s.guards[g].badSince == None && net.freshUntil - net.validAfter >= GUARD_DOWN_TIME)
                 || (!GuardUp(g, net.stats) && s.guards[g].badSince.Some? && net.freshUntil - s.guards[g].badSince.value >= GUARD_DOWN_TIME))
  {}

  lemma TickedGuard(s: ClientState, s': ClientState, v: View, needs: Needs, time: int, g: Fp)
    requires Ticked(s, s', v, needs, time) && g in s'.guards
    ensures s'.guards[g].badSince == None <==> GuardUp(g, v.stats)
    ensures s'.guards[g].badSince.Some? ==> g in s.guards && s.guards[g].badSince == s'.guards[g].badSince
  {
    hide CoversMore, DequesOk;
    assert Marked(s', v.stats);
  }

  lemma GivenGuard(client: Client, congestionAware: bool, s: ClientState, s': ClientState, needs: set<nat>,
                   index: nat, stream: Stream, c: Circuit, v: View, g: Fp)
    requires Given(client, congestionAware, s, s', needs, index, stream, c, v) && g in s'.guards
    ensures s'.guards[g].badSince == None <==> GuardUp(g, v.stats)
    ensures s'.guards[g].badSince.Some? ==> g in s.guards && s.guards[g].badSince == s'.guards[g].badSince
  {
    hide Assigned, AssignedByPing, DequesOk;
    assert Marked(s', v.stats);
  }

  ghost predicate MarkFits(trace: seq<Step>, c: nat, g: Fp, k: nat, bad: Option<int>)
    requires k < |trace|
  {
    && (exists i: nat :: LastUse(trace, c, i, k) && (bad == None <==> Lists(trace[i], g)))
    && (bad.Some? ==> DownSince(trace, c, g, k, bad.value))
  }

  // A client that starts without guards marks each one by the consensuses it has gone by.
  lemma {:induction false} MarksFit(clients: seq<Client>, congestionAware: bool, origin: World, trace: seq<Step>, world: World,
                                    k: nat, c: nat, g: Fp)
    requires Lawful(clients, congestionAware, origin, trace, world) && k < |trace|
    requires c < |clients| == |origin.clients| && origin.clients[c].guards == map[]
    ensures |trace[k].after.clients| == |clients|
    ensures g in trace[k].after.clients[c].guards ==> MarkFits(trace, c, g, k, trace[k].after.clients[c].guards[g].badSince)
    decreases k
  {
    hide Lawful, StepOk, Lists, GoesBy, MarkFits;
    LawfulSteps(clients, congestionAware, origin, trace, world, k);
    SameClients(clients, congestionAware, trace[k]);
    if g in trace[k].after.clients[c].guards {
      GuardStep(clients, congestionAware, trace[k], c, g);
      if k > 0 {
        MarksFit(clients, congestionAware, origin, trace, world, k - 1, c, g);
      }
      MarkStep(trace, c, g, k);
    }
  }

  lemma MarkStep(trace: seq<Step>, c: nat, g: Fp, k: nat)
    requires k < |trace| && c < |trace[k].before.clients| == |trace[k].after.clients| && g in trace[k].after.clients[c].guards
    requires var s, bad := trace[k].before.clients[c].guards, trace[k].after.clients[c].guards[g].badSince;
             && (if GoesBy(trace[k], c) then
                   (bad == None <==> Lists(trace[k], g)) &&
                   (bad.Some? ==> g in s && (s[g].badSince == bad || (trace[k].event.Beginning? && s[g].badSince == None &&
                                                                      bad.value == trace[k].after.net.validAfter)))
                 else g in s && s[g].badSince == bad)
             && (g in s ==> k > 0 && MarkFits(trace, c, g, k - 1, s[g].badSince))
    ensures MarkFits(trace, c, g, k, trace[k].after.clients[c].guards[g].badSince)
  {
    hide Lists, GoesBy;
    var s, bad := trace[k].before.clients[c].guards, trace[k].after.clients[c].guards[g].badSince;
    if GoesBy(trace[k], c) {
      assert LastUse(trace, c, k, k);
      if bad.Some? {
        if s[g].badSince == bad {
          RowGoesOn(trace, c, g, k, bad.value);
        } else {
          var i: nat :| LastUse(trace, c, i, k - 1) && Lists(trace[i], g);
          assert RowFrom(trace, c, g, i, k, k);
        }
      }
    } else {
      var i: nat :| LastUse(trace, c, i, k - 1) && (bad == None <==> Lists(trace[i], g));
      assert LastUse(trace, c, i, k);
      if bad.Some? {
        RowGoesOn(trace, c, g, k, bad.value);
      }
    }
  }

  lemma RowGoesOn(trace: seq<Step>, c: nat, g: Fp, k: nat, time: int)
    requires 0 < k < |trace| && DownSince(trace, c, g, k - 1, time) && (GoesBy(trace[k], c) ==> !Lists(trace[k], g))
    ensures DownSince(trace, c, g, k, time)
  {
    hide Lists, GoesBy, LastUse;
    var i: nat, j: nat :| i < j <= k - 1 && RowFrom(trace, c, g, i, j, k - 1) && trace[j].after.net.validAfter == time;
    assert RowFrom(trace, c, g, i, j, k);
  }

  // There is only one such row.
  lemma OneRow(trace: seq<Step>, c: nat, g: Fp, k: nat, t: int, u: int)
    requires k < |trace| && DownSince(trace, c, g, k, t) && DownSince(trace, c, g, k, u)
    ensures t == u
  {
    hide Lists, GoesBy;
    var i: nat, j: nat :| i < j <= k && RowFrom(trace, c, g, i, j, k) && trace[j].after.net.validAfter == t;
    var i': nat, j': nat :| i' < j' <= k && RowFrom(trace, c, g, i', j', k) && trace[j'].after.net.validAfter == u;
    assert GoesBy(trace[i], c) && GoesBy(trace[i'], c);
    BeginningGoesBy(trace[j], c);
    BeginningGoesBy(trace[j'], c);
    assert i < j' && i' < j;
  }

  lemma BeginningGoesBy(step: Step, c: nat)
    requires step.event.Beginning?
    ensures GoesBy(step, c)
  {}

  // In a run that starts without guards, bad_since is the time of the first consensus in the
  // unbroken row of those that do not list the guard, and is unset without such a row.
  lemma BadSinceIs(clients: seq<Client>, congestionAware: bool, origin: World, trace: seq<Step>, world: World,
                   k: nat, c: nat, g: Fp, time: int)
    requires Lawful(clients, congestionAware, origin, trace, world) && k < |trace|
    requires c < |clients| == |origin.clients| && origin.clients[c].guards == map[]
    ensures |trace[k].after.clients| == |clients|
    ensures g in trace[k].after.clients[c].guards ==>
              (trace[k].after.clients[c].guards[g].badSince == Some(time) <==> DownSince(trace, c, g, k, time))
  {
    hide Lawful, Lists, GoesBy;
    MarksFit(clients, congestionAware, origin, trace, world, k, c, g);
    if g in trace[k].after.clients[c].guards && DownSince(trace, c, g, k, time) {
      var bad := trace[k].after.clients[c].guards[g].badSince;
      if bad.Some? {
        OneRow(trace, c, g, k, time, bad.value);
      } else {
        var l: nat :| LastUse(trace, c, l, k) && Lists(trace[l], g);
        NoRow(trace, c, g, l, k, time);
      }
    }
  }

  // The guard has been in the row for 30 days when the period ends, or its time is up.
  ghost predicate Leaves(trace: seq<Step>, c: nat, g: Fp, k: nat, expires: int)
    requires k < |trace|
  {
    || expires <= trace[k].after.net.validAfter
    || exists time :: DownSince(trace, c, g, k, time) && trace[k].after.net.freshUntil - time >= GUARD_DOWN_TIME
  }

  // A period begins with exactly those guards leaving; of the others no more than the mark changes.
  lemma GuardsLeave(clients: seq<Client>, congestionAware: bool, origin: World, trace: seq<Step>, world: World, k: nat, c: nat, g: Fp)
    requires Lawful(clients, congestionAware, origin, trace, world) && k < |trace| && trace[k].event.Beginning?
    requires c < |clients| == |origin.clients| && origin.clients[c].guards == map[]
    ensures |trace[k].before.clients| == |trace[k].after.clients| == |clients|
    ensures var s, s' := trace[k].before.clients[c].guards, trace[k].after.clients[c].guards;
            && (g in s' ==> g in s && s'[g] == s[g].(badSince := s'[g].badSince))
            && (g in s ==> (g !in s' <==> Leaves(trace, c, g, k, s[g].expires)))
  {
    hide Lawful, GoesBy, Begun, DownSince;
    LawfulSteps(clients, congestionAware, origin, trace, world, k);
    SameClients(clients, congestionAware, trace[k]);
    var s, net := trace[k].before.clients[c], trace[k].before.net;
    BegunGuard(s, net, g);
    if g in s.guards {
      assert k > 0;
      MarksFit(clients, congestionAware, origin, trace, world, k - 1, c, g);
      RowAtBeginning(trace, c, g, k, s.guards[g].badSince);
      LeavesBy(trace, c, g, k, s.guards[g]);
    }
  }

  lemma LeavesBy(trace: seq<Step>, c: nat, g: Fp, k: nat, was: GuardState)
    requires k < |trace|
    requires Lists(trace[k], g) ==> forall time :: !DownSince(trace, c, g, k, time)
    requires !Lists(trace[k], g) ==>
               forall time :: DownSince(trace, c, g, k, time) <==> time == if was.badSince.Some? then was.badSince.value else trace[k].after.net.validAfter
    ensures var net := trace[k].after.net;
            Leaves(trace, c, g, k, was.expires) <==>
              || was.expires <= net.validAfter
              || (!Lists(trace[k], g) && was.badSince == None && net.freshUntil - net.validAfter >= GUARD_DOWN_TIME)
              || (!Lists(trace[k], g) && was.badSince.Some? && net.freshUntil - was.badSince.value >= GUARD_DOWN_TIME)
  {
    hide Lists, DownSince;
    var since := if was.badSince.Some? then was.badSince.value else trace[k].after.net.validAfter;
    assert !Lists(trace[k], g) ==> DownSince(trace, c, g, k, since);
  }

  // Which row a guard is in once a period has begun.
  lemma RowAtBeginning(trace: seq<Step>, c: nat, g: Fp, k: nat, bad: Option<int>)
    requires 0 < k < |trace| && trace[k].event.Beginning? && MarkFits(trace, c, g, k - 1, bad)
    ensures Lists(trace[k], g) ==> forall time :: !DownSince(trace, c, g, k, time)
    ensures !Lists(trace[k], g) ==>
              forall time :: DownSince(trace, c, g, k, time) <==> time == if bad.Some? then bad.value else trace[k].after.net.validAfter
  {
    hide Lists, GoesBy, DownSince;
    BeginningGoesBy(trace[k], c);
    if Lists(trace[k], g) {
      forall time ensures !DownSince(trace, c, g, k, time) {
        NoRow(trace, c, g, k, k, time);
      }
    } else {
      var since := if bad.Some? then bad.value else trace[k].after.net.validAfter;
      if bad.Some? {
        RowGoesOn(trace, c, g, k, since);
      } else {
        var i: nat :| LastUse(trace, c, i, k - 1) && Lists(trace[i], g);
        RowStarts(trace, c, g, i, k);
      }
      forall time ensures DownSince(trace, c, g, k, time) <==> time == since {
        if DownSince(trace, c, g, k, time) {
          OneRow(trace, c, g, k, time, since);
        }
      }
    }
  }

  lemma NoRow(trace: seq<Step>, c: nat, g: Fp, l: nat, k: nat, time: int)
    requires k < |trace| && LastUse(trace, c, l, k) && Lists(trace[l], g)
    ensures !DownSince(trace, c, g, k, time)
  {}

  lemma RowStarts(trace: seq<Step>, c: nat, g: Fp, i: nat, k: nat)
    requires 0 < k < |trace| && trace[k].event.Beginning? && !Lists(trace[k], g)
    requires LastUse(trace, c, i, k - 1) && Lists(trace[i], g)
    ensures DownSince(trace, c, g, k, trace[k].after.net.validAfter)
  {
    assert RowFrom(trace, c, g, i, k, k);
  }

  // ---------- circuits come and go ----------

  // A minute's updates take away exactly the circuits that are too old or have a hibernating
  // relay; those that are new were made in this minute.
  lemma CircuitsSwept(clients: seq<Client>, congestionAware: bool, step: Step, c: nat, d: Circuit)
    requires StepOk(clients, congestionAware, step) && step.event.Ticking? && c < |clients|
    ensures |step.before.clients| == |step.after.clients| == |clients|
    ensures var s, s', time, hib := step.before.clients[c], step.after.clients[c], step.event.time, step.after.net.hib;
            var awake := d.guard in hib && d.middle in hib && d.exit in hib && !hib[d.guard] && !hib[d.middle] && !hib[d.exit];
            && (d in s'.dirty <==> d in s.dirty && d.dirtyTime.Some? && time - d.dirtyTime.value < MAX_CIRCUIT_DIRTINESS && awake)
            && (d in s.clean ==> (d in s'.clean <==> time - d.time < CIRCUIT_IDLE_TIMEOUT && awake))
            && (d in s'.clean && d !in s.clean ==> d.time == time)
  {
    var s, s' := step.before.clients[c], step.after.clients[c];
    TickedCircuit(s, s', step.event.v, step.before.needs, step.event.time, d);
  }

  lemma TickedCircuit(s: ClientState, s': ClientState, v: View, needs: Needs, time: int, d: Circuit)
    requires Ticked(s, s', v, needs, time)
    ensures d in s'.dirty <==> d in s.dirty && YoungDirty(time)(d) && PathAwake(d, v.hib)
    ensures d in s.clean ==> (d in s'.clean <==> YoungClean(time)(d) && PathAwake(d, v.hib))
    ensures d in s'.clean && d !in s.clean ==> d.time == time
  {
    hide DequesOk, GuardsOk, PathLive, PathAwake, NeedMet, GuardsEvolve, MadeForNeed, Uncovered;
    var t := Swept(s, time, v.hib);
    SweptCircuit(s, time, v.hib, d);
    var n := |s'.clean| - |t.clean|;
    assert s'.clean == s'.clean[..n] + t.clean;
    assert d in s'.dirty ==> d in s'.clean + s'.dirty;
    assert d in s'.clean ==> d in s'.clean + s'.dirty;
    if d in s'.clean[..n] {
      MadeNow(s'.clean, n, d, v, needs, time);
    }
  }

  lemma MadeNow(clean: seq<Circuit>, n: nat, d: Circuit, v: View, needs: Needs, time: int)
    requires n <= |clean| && d in clean[..n] && forall i :: 0 <= i < n ==> MadeForNeed(clean[i], v, needs, time)
    ensures d.time == time
  {
    hide ViewOk, PathFits, CoverSet;
    var i :| 0 <= i < n && clean[i] == d;
    assert MadeForNeed(clean[i], v, needs, time);
  }

  lemma SweptCircuit(s: ClientState, time: int, hib: map<Fp, bool>, d: Circuit)
    ensures var t, awake := Swept(s, time, hib), Up(Hibernating(hib));
            && (d in t.dirty <==> d in s.dirty && YoungDirty(time)(d) && awake(d))
            && (d in t.clean <==> d in s.clean && YoungClean(time)(d) && awake(d))
    ensures PathAwake(d, hib) ==> Up(Hibernating(hib))(d)
    ensures Up(Hibernating(hib))(d) && d.guard in hib && d.middle in hib && d.exit in hib ==> PathAwake(d, hib)
  {
    hide Keep, Uncovered, Drop;
    var awake := Up(Hibernating(hib));
    KeepMembers(s.dirty, YoungDirty(time), d);
    KeepMembers(s.clean, YoungClean(time), d);
    KeepMembers(Keep(s.dirty, YoungDirty(time)), awake, d);
    KeepMembers(Keep(s.clean, YoungClean(time)), awake, d);
  }

  // The beginning of a period takes away exactly the circuits with a relay that the consensus does
  // not list as running, and brings none.
  lemma CircuitsKilled(clients: seq<Client>, congestionAware: bool, step: Step, c: nat, d: Circuit)
    requires StepOk(clients, congestionAware, step) && step.event.Beginning? && c < |clients|
    ensures |step.before.clients| == |step.after.clients| == |clients|
    ensures var s, s', stats := step.before.clients[c], step.after.clients[c], step.after.net.stats;
            var live := forall r :: r == d.guard || r == d.middle || r == d.exit ==> r in stats && Running in stats[r].flags;
            (d in s'.dirty <==> d in s.dirty && live) && (d in s'.clean <==> d in s.clean && live)
  {
    hide Keep, Uncovered, Drop, PeriodGuards;
    var s, up := step.before.clients[c], Up(RelayDown(step.after.net.stats));
    KeepMembers(s.dirty, up, d);
    KeepMembers(s.clean, up, d);
  }

  // The circuit is still there, used or not: only what it covers, and its last ping, may differ.
  ghost predicate StillThere(d: Circuit, s: ClientState)
  {
    exists d' :: d' in s.clean + s.dirty && SameCircuit(d, d')
  }

  ghost predicate SameCircuit(d: Circuit, d': Circuit)
  {
    d' == d.(dirtyTime := d'.dirtyTime, covering := d'.covering, avgPing := d'.avgPing) &&
    (d.dirtyTime.Some? ==> d'.dirtyTime == d.dirtyTime)
  }

  // No other step takes a circuit away.
  lemma CircuitsStay(clients: seq<Client>, congestionAware: bool, step: Step, c: nat, d: Circuit)
    requires StepOk(clients, congestionAware, step) && !step.event.Ticking? && !step.event.Beginning? && c < |clients|
    requires AllKept(step.before)
    ensures |step.before.clients| == |step.after.clients| == |clients|
    ensures d in step.before.clients[c].clean + step.before.clients[c].dirty ==> StillThere(d, step.after.clients[c])
  {
    hide Renewed, IsRenewed, NextNet, ReplayTo, SuitsNeed, Fits, ViewOk, Given, StillThere, Kept, Begun, Ticked, RemoveNeed, AddNeed;
    var s, s' := step.before.clients[c], step.after.clients[c];
    if d in s.clean + s.dirty {
      match step.event
      case Giving(index, client, stream, circuit, v) =>
        KeptMeans(s, step.before.needs.Keys, step.before.net.descs);
        if c == client {
          GivenStays(clients[c], congestionAware, s, s', step.before.needs.Keys, index, stream, circuit, v, d);
        } else {
          SameStays(d, s, s');
        }
      case Expiring(port, _) => RemovedStays(d, s, port);
      case Renewing(stream) =>
        if s' == s {
          SameStays(d, s, s');
        } else {
          var port := StreamPort(stream);
          RenewedKeys(step.before.needs, stream);
          AddNeedStays(d, s, port, SuitsNeed(port, step.after.needs[port], step.before.net.descs));
        }
      case _ => SameStays(d, s, s');
    }
  }

  lemma SameStays(d: Circuit, s: ClientState, s': ClientState)
    requires d in s.clean + s.dirty && s'.clean == s.clean && s'.dirty == s.dirty
    ensures StillThere(d, s')
  {
    assert SameCircuit(d, d);
  }

  lemma CoveringStays(d: Circuit, s: ClientState, s': ClientState)
    requires d in s.clean + s.dirty && s'.dirty == s.dirty && |s'.clean| == |s.clean|
    requires forall i :: 0 <= i < |s.clean| ==> s'.clean[i] == s.clean[i].(covering := s'.clean[i].covering)
    ensures StillThere(d, s')
  {
    if d in s.clean {
      var i :| 0 <= i < |s.clean| && s.clean[i] == d;
      assert SameCircuit(d, s'.clean[i]);
    } else {
      assert d in s'.clean + s'.dirty && SameCircuit(d, d);
    }
  }

  lemma RemovedStays(d: Circuit, s: ClientState, port: nat)
    requires d in s.clean + s.dirty
    ensures StillThere(d, RemoveNeed(s, port))
  {
    CoveringStays(d, s, RemoveNeed(s, port));
  }

  lemma AddNeedStays(d: Circuit, s: ClientState, port: nat, covers: Circuit -> bool)
    requires d in s.clean + s.dirty
    ensures StillThere(d, AddNeed(s, port, covers))
  {
    CoveringStays(d, s, AddNeed(s, port, covers));
  }

  lemma GivenStays(client: Client, congestionAware: bool, s: ClientState, s': ClientState, needs: set<nat>,
                   index: nat, stream: Stream, c: Circuit, v: View, d: Circuit)
    requires Given(client, congestionAware, s, s', needs, index, stream, c, v) && d in s.clean + s.dirty
    requires forall e :: e in s.clean ==> e.dirtyTime == None
    ensures StillThere(d, s')
  {
    hide ClientOk, GuardsEvolve, Suits, MadeFor, HasNone, Eligible, FreshAndSuits, StillThere, Uncovered, UseClean, SetPing;
    var ping := client.usePing(index);
    if !congestionAware {
      if s' == s {
        SameStays(d, s, s');
      } else if HasNone(s.clean, Suits(stream, v.descs)) && s' == AddDirty(s.(guards := s'.guards), c) {
        AddedStays(d, s, s'.guards, c);
      } else {
        var k: nat :| IsFirst(s.clean, Suits(stream, v.descs), k) && s' == UseClean(s, k, stream.time);
        UsedStays(d, s, k, stream.time);
      }
    } else if HasNone(s.dirty + s.clean, Eligible(stream, v.descs)) {
      var made :| MadeFor(made, v, stream) && s' == SetPing(AddDirty(s.(guards := s'.guards), made), 0, ping);
      AddedStays(d, s, s'.guards, made);
      PingStays(d, AddDirty(s.(guards := s'.guards), made), 0, ping);
    } else {
      var k: nat :| IsBest(s.dirty + s.clean, Eligible(stream, v.descs), k) && GivenBest(s, s', stream, c, k, ping);
      if k < |s.dirty| {
        HereStays(d, s);
        PingStays(d, s, k, ping);
      } else {
        UsedStays(d, s, k - |s.dirty|, stream.time);
        PingStays(d, UseClean(s, k - |s.dirty|, stream.time), 0, ping);
      }
    }
  }

  lemma HereStays(d: Circuit, s: ClientState)
    requires d in s.clean + s.dirty
    ensures StillThere(d, s)
  {
    SameStays(d, s, s);
  }

  lemma AddedStays(d: Circuit, s: ClientState, guards: Guards, c: Circuit)
    requires d in s.clean + s.dirty
    ensures StillThere(d, AddDirty(s.(guards := guards), c)) && |AddDirty(s.(guards := guards), c).dirty| > 0
  {
    var t := AddDirty(s.(guards := guards), c);
    assert d in t.clean + t.dirty && SameCircuit(d, d);
  }

  lemma UsedStays(d: Circuit, s: ClientState, k: nat, time: int)
    requires d in s.clean + s.dirty && k < |s.clean| && s.clean[k].dirtyTime == None
    ensures StillThere(d, UseClean(s, k, time)) && |UseClean(s, k, time).dirty| > 0
  {
    hide Uncovered;
    var t := UseClean(s, k, time);
    if d == s.clean[k] {
      assert t.dirty[0] in t.clean + t.dirty && SameCircuit(d, t.dirty[0]);
    } else {
      assert d in t.clean + t.dirty && SameCircuit(d, d);
    }
  }

  lemma PingStays(d: Circuit, s: ClientState, k: nat, ping: real)
    requires StillThere(d, s) && k < |s.dirty|
    ensures StillThere(d, SetPing(s, k, ping))
  {
    var t := SetPing(s, k, ping);
    var d' :| d' in s.clean + s.dirty && SameCircuit(d, d');
    if d' == s.dirty[k] {
      assert t.dirty[k] in t.clean + t.dirty && SameCircuit(d, t.dirty[k]);
    } else if d' in s.dirty {
      var i :| 0 <= i < |s.dirty| && s.dirty[i] == d';
      assert t.dirty[i] in t.clean + t.dirty && SameCircuit(d, t.dirty[i]);
    } else {
      assert d' in t.clean + t.dirty;
    }
  }

  // ---------- what ports are needed ----------

  // A step asks for the port to be needed until some time: the first one does, for port 80, and
  // so does every stream, a resolve stream for port 80.
  ghost function Asked(step: Step, port: nat): Option<int>
  {
    match step.event
    case Seeding => if port == 80 then Some(step.after.net.validAfter + HOUR) else None
    case Renewing(Connect(time, _, p)) => if port == p then Some(time + HOUR) else None
    case Renewing(Resolve(time)) => if port == 80 then Some(time + HOUR) else None
    case _ => None
  }

  // The i-th step asked for it, and the need has not run out from then to the k-th step.
  ghost predicate StillAsked(trace: seq<Step>, port: nat, until: int, i: nat, k: int)
    requires k < |trace|
  {
    i <= k && Asked(trace[i], port) == Some(until) && forall m :: i < m <= k ==> !(trace[m].event.Expiring? && trace[m].event.port == port)
  }

  // The need lasts as long as any of these steps asked.
  ghost predicate NeedIs(trace: seq<Step>, port: nat, k: int, needs: Needs)
    requires k < |trace|
  {
    && (port in needs ==>
          && needs[port].expires.Some? && needs[port].fast && needs[port].stable == (port in LONG_LIVED_PORTS)
          && needs[port].coverNum == PORT_NEED_COVER_NUM
          && exists i: nat :: StillAsked(trace, port, needs[port].expires.value, i, k))
    && forall i: nat, until {:trigger StillAsked(trace, port, until, i, k)} ::
         StillAsked(trace, port, until, i, k) ==> port in needs && (needs[port].expires.Some? ==> until <= needs[port].expires.value)
  }

  // In a run that starts without needs, a port is needed exactly if some step has asked for it
  // since it last ran out, and until the latest time that was asked for.
  lemma {:induction false} NeedsAre(clients: seq<Client>, congestionAware: bool, origin: World, trace: seq<Step>, world: World,
                                    port: nat, k: nat)
    requires Lawful(clients, congestionAware, origin, trace, world) && origin.needs == map[] && k < |trace|
    ensures NeedIs(trace, port, k, trace[k].after.needs)
    decreases k
  {
    hide Lawful, StepOk, Asked, NeedIs;
    LawfulSteps(clients, congestionAware, origin, trace, world, k);
    if k > 0 {
      NeedsAre(clients, congestionAware, origin, trace, world, port, k - 1);
    } else {
      NoNeedYet(trace, port);
    }
    NeedLasts(trace, port, k - 1, trace[k].before.needs);
    NeedStep(clients, congestionAware, trace[k], port);
    NeedAfter(trace, port, k);
  }

  lemma NoNeedYet(trace: seq<Step>, port: nat)
    requires |trace| > 0
    ensures NeedIs(trace, port, -1, map[])
  {}

  lemma NeedLasts(trace: seq<Step>, port: nat, k: int, needs: Needs)
    requires k < |trace| && NeedIs(trace, port, k, needs)
    ensures port in needs ==> needs[port].expires.Some?
  {}

  // What a step does to the need for a port.
  ghost predicate NeedMoves(step: Step, port: nat)
    requires port in step.before.needs ==> step.before.needs[port].expires.Some?
  {
    var needs, needs' := step.before.needs, step.after.needs;
    if step.event.Expiring? && step.event.port == port then port !in needs'
    else match Asked(step, port)
      case None => (port in needs <==> port in needs') && (port in needs ==> needs'[port] == needs[port])
      case Some(until) =>
        port in needs' && needs'[port] == if port in needs then needs[port].(expires := Some(Max(until, needs[port].expires.value)))
                                          else Need(Some(until), true, port in LONG_LIVED_PORTS, PORT_NEED_COVER_NUM)
  }

  lemma NeedStep(clients: seq<Client>, congestionAware: bool, step: Step, port: nat)
    requires StepOk(clients, congestionAware, step)
    requires port in step.before.needs ==> step.before.needs[port].expires.Some?
    ensures NeedMoves(step, port)
  {
    hide Begun, Ticked, Given, NextNet, ReplayTo, SuitsNeed, Fits, ViewOk, RemoveNeed, AddNeed;
  }

  // A need goes only once its time is up, and none whose time is up outlives a minute's updates.
  lemma NeedsRunOut(clients: seq<Client>, congestionAware: bool, step: Step, port: nat)
    requires StepOk(clients, congestionAware, step) && port in step.before.needs && step.before.needs[port].expires.Some?
    ensures port !in step.after.needs ==> step.event.Expiring? && step.before.needs[port].expires.value <= step.event.time
    ensures step.event.Ticking? ==> step.event.time < step.before.needs[port].expires.value
  {
    NeedStep(clients, congestionAware, step, port);
    hide Begun, Ticked, Given, NextNet, ReplayTo, SuitsNeed, Fits, ViewOk, RemoveNeed, AddNeed, Renewed;
  }

  lemma NeedAfter(trace: seq<Step>, port: nat, k: nat)
    requires k < |trace| && NeedIs(trace, port, k - 1, trace[k].before.needs)
    requires (port in trace[k].before.needs ==> trace[k].before.needs[port].expires.Some?) && NeedMoves(trace[k], port)
    ensures NeedIs(trace, port, k, trace[k].after.needs)
  {
    var needs, needs' := trace[k].before.needs, trace[k].after.needs;
    forall i: nat, until | StillAsked(trace, port, until, i, k)
      ensures port in needs' && (needs'[port].expires.Some? ==> until <= needs'[port].expires.value)
    {
      if i < k {
        assert StillAsked(trace, port, until, i, k - 1);
      }
    }
    if port in needs' {
      if port in needs {
        var i: nat :| StillAsked(trace, port, needs[port].expires.value, i, k - 1);
        assert !(trace[k].event.Expiring? && trace[k].event.port == port);
        assert StillAsked(trace, port, needs[port].expires.value, i, k);
      }
      AskedNow(trace, port, k);
    }
  }

  lemma AskedNow(trace: seq<Step>, port: nat, k: nat)
    requires k < |trace|
    ensures Asked(trace[k], port).Some? ==> StillAsked(trace, port, Asked(trace[k], port).value, k, k)
  {}

  // ---------- every stream of a run ----------

  // A stream's row: every client once, in order.
  ghost function Row(i: nat, stream: Stream, n: nat): (r: seq<Handing>)
    ensures |r| == n && forall c :: 0 <= c < n ==> r[c] == (i, c, stream)
  {
    seq(n, c => (i, c, stream))
  }

  // Streams a up to b, each handed to each of the n clients.
  ghost function Handed(streams: seq<Stream>, a: nat, b: nat, n: nat): seq<Handing>
    requires b <= |streams|
  {
    if b <= a then [] else Handed(streams, a, b - 1, n) + Row(b - 1, streams[b - 1], n)
  }

  // Exactly those handings occur, and each only once.
  lemma {:induction false} HandedOnce(streams: seq<Stream>, a: nat, b: nat, n: nat, i: nat, c: nat, stream: Stream)
    requires a <= b <= |streams|
    ensures multiset(Handed(streams, a, b, n))[(i, c, stream)] == if a <= i < b && c < n && stream == streams[i] then 1 else 0
  {
    hide Handed, Row;
    if a < b {
      HandedOnce(streams, a, b - 1, n, i, c, stream);
      RowOnce(b - 1, streams[b - 1], n, i, c, stream);
      HandedMore(streams, a, b - 1, n);
      CountBoth(Handed(streams, a, b - 1, n), Row(b - 1, streams[b - 1], n), (i, c, stream));
    } else {
      NoneHanded(streams, a, n);
    }
  }

  lemma CountBoth<T>(x: seq<T>, y: seq<T>, item: T)
    ensures multiset(x + y)[item] == multiset(x)[item] + multiset(y)[item]
  {}

  lemma HandedMore(streams: seq<Stream>, a: nat, i: nat, n: nat)
    requires a <= i < |streams|
    ensures Handed(streams, a, i + 1, n) == Handed(streams, a, i, n) + Row(i, streams[i], n)
  {
    hide Row;
  }

  lemma RowStep(i: nat, stream: Stream, n: nat)
    ensures Row(i, stream, n + 1) == Row(i, stream, n) + [(i, n, stream)]
  {}

  lemma {:induction false} RowOnce(j: nat, s: Stream, n: nat, i: nat, c: nat, stream: Stream)
    ensures multiset(Row(j, s, n))[(i, c, stream)] == if i == j && c < n && stream == s then 1 else 0
  {
    if n > 0 {
      RowStep(j, s, n - 1);
      RowOnce(j, s, n - 1, i, c, stream);
    }
  }

  lemma NoneHanded(streams: seq<Stream>, a: nat, n: nat)
    requires a <= |streams|
    ensures Handed(streams, a, a, n) == []
  {}

  lemma {:induction false} HandingFound(trace: seq<Step>, h: Handing) returns (k: nat)
    requires h in Handings(trace)
    ensures k < |trace| && trace[k].event.Giving?
    ensures (trace[k].event.index, trace[k].event.client, trace[k].event.stream) == h
  {
    var front, last := trace[..|trace| - 1], trace[|trace| - 1];
    if h in HandingOf(last) {
      k := |trace| - 1;
    } else {
      k := HandingFound(front, h);
    }
  }

  // In a lawful run each stream has a step at which a client is given a circuit for it: one that
  // is among its dirty circuits from then on, that supports the stream, and whose relays are all
  // in the consensus of that time.
  lemma EveryStreamIsGiven(clients: seq<Client>, congestionAware: bool, origin: World, trace: seq<Step>, world: World,
                           streams: seq<Stream>, a: nat, b: nat, i: nat, c: nat) returns (k: nat)
    requires Lawful(clients, congestionAware, origin, trace, world)
    requires a <= i < b <= |streams| && c < |clients| && Handings(trace) == Handed(streams, a, b, |clients|)
    ensures k < |trace| && trace[k].event.Giving?
    ensures var s, s', e := trace[k].before, trace[k].after, trace[k].event;
            && e.index == i && e.client == c && e.stream == streams[i]
            && c < |s.clients| == |s'.clients| && s'.clients == s.clients[c := s'.clients[c]] && Fits(e.v, s'.net) && ViewOk(e.v)
            && IsRenewed(s.needs, streams[i]) && e.circuit in s'.clients[c].dirty && e.circuit.exit in s'.net.descs
            && Supports(e.circuit, streams[i], s'.net.descs)
            && PathLive(e.circuit, s'.net.stats, s'.net.hib)
            && Given(clients[c], congestionAware, s.clients[c], s'.clients[c], s.needs.Keys, i, streams[i], e.circuit, e.v)
  {
    hide Lawful, Given;
    HandedOnce(streams, a, b, |clients|, i, c, streams[i]);
    assert (i, c, streams[i]) in multiset(Handings(trace));
    k := HandingFound(trace, (i, c, streams[i]));
    LawfulSteps(clients, congestionAware, origin, trace, world, k);
    GivenMeans(clients[c], congestionAware, trace[k].before.clients[c], trace[k].after.clients[c], trace[k].before.needs.Keys,
               i, streams[i], trace[k].event.circuit, trace[k].event.v);
  }

  lemma GivenMeans(client: Client, congestionAware: bool, s: ClientState, s': ClientState, needs: set<nat>,
                   index: nat, stream: Stream, c: Circuit, v: View)
    requires Given(client, congestionAware, s, s', needs, index, stream, c, v)
    ensures c in s'.dirty && c.exit in v.descs && Supports(c, stream, v.descs) && PathLive(c, v.stats, v.hib)
  {
    assert c in s'.clean + s'.dirty;
    hide Assigned, AssignedByPing, GuardsEvolve, DequesOk, GuardsOk, Supports, PathLive;
  }

  // A circuit made for the stream has three distinct relays, pairwise in no common family and in
  // no common /16.
  lemma NewIsUnrelated(c: Circuit, v: View, stream: Stream)
    requires MadeFor(c, v, stream)
    ensures c.guard in v.descs && c.middle in v.descs && c.exit in v.descs
    ensures Unrelated(c.guard, c.middle, v) && Unrelated(c.guard, c.exit, v) && Unrelated(c.middle, c.exit, v)
  {
    WellBuiltPath(c.(dirtyTime := None), v, stream.time, true, StreamStable(stream), StreamTarget(stream));
  }

  // ---------- every minute of a run ----------

  // The m-th minute from a time on, with the statuses that replaying the history up to it gives.
  ghost function MinuteAt(cons: Consensus, history: seq<Entry>, hib: map<Fp, bool>, begin: int, m: nat): Minute
  {
    (begin + TIME_STEP * m, ReplayTo(history, hib, begin + TIME_STEP * m).1, cons)
  }

  // The first n minutes.
  ghost function Minutes(cons: Consensus, history: seq<Entry>, hib: map<Fp, bool>, begin: int, n: nat): (r: seq<Minute>)
    ensures |r| == n && forall m :: 0 <= m < n ==> r[m] == MinuteAt(cons, history, hib, begin, m)
  {
    seq(n, m requires 0 <= m < n => MinuteAt(cons, history, hib, begin, m))
  }

  lemma MinutesMore(cons: Consensus, history: seq<Entry>, hib: map<Fp, bool>, begin: int, n: nat)
    ensures Minutes(cons, history, hib, begin, n + 1) == Minutes(cons, history, hib, begin, n) + [MinuteAt(cons, history, hib, begin, n)]
  {
    hide MinuteAt;
  }

  // What has been replayed before need not be replayed again.
  lemma MinutesAfter(cons: Consensus, history: seq<Entry>, hib: map<Fp, bool>, begin: int, n: nat)
    ensures var r := ReplayTo(history, hib, begin);
            Minutes(cons, r.0, r.1, begin, n) == Minutes(cons, history, hib, begin, n)
  {
    hide ReplayTo, MinuteAt;
    var r := ReplayTo(history, hib, begin);
    forall m: nat ensures MinuteAt(cons, r.0, r.1, begin, m) == MinuteAt(cons, history, hib, begin, m) {
      SameMinuteAt(cons, history, hib, begin, m);
    }
  }

  lemma SameMinuteAt(cons: Consensus, history: seq<Entry>, hib: map<Fp, bool>, begin: int, m: nat)
    ensures var r := ReplayTo(history, hib, begin);
            MinuteAt(cons, r.0, r.1, begin, m) == MinuteAt(cons, history, hib, begin, m)
  {
    hide ReplayTo;
    SameMinute(history, hib, begin, begin + TIME_STEP * m);
  }

  lemma SameMinute(history: seq<Entry>, hib: map<Fp, bool>, begin: int, t: int)
    requires begin <= t
    ensures var r := ReplayTo(history, hib, begin);
            ReplayTo(r.0, r.1, t) == ReplayTo(history, hib, t)
  {
    ReplayCompose(history, hib, begin, t);
  }

  lemma {:induction false} MinuteFound(trace: seq<Step>, m: Minute) returns (k: nat)
    requires m in MinutesOf(trace)
    ensures k < |trace| && trace[k].event.Ticking? && trace[k].event.time == m.0 && (trace[k].after.net.hib, ConsensusOf(trace[k].after.net)) == (m.1, m.2)
  {
    var front, last := trace[..|trace| - 1], trace[|trace| - 1];
    if m in MinuteOf(last) {
      k := |trace| - 1;
    } else {
      k := MinuteFound(front, m);
    }
  }

  // In a lawful run every client has all its needs met at each minute simulated, as far as there
  // is room, by young circuits whose relays are awake.
  lemma EveryMinuteIsServed(clients: seq<Client>, congestionAware: bool, origin: World, trace: seq<Step>, world: World, m: Minute)
    returns (k: nat)
    requires Lawful(clients, congestionAware, origin, trace, world) && m in MinutesOf(trace)
    ensures k < |trace| && trace[k].event.Ticking? && trace[k].event.time == m.0 && (trace[k].after.net.hib, ConsensusOf(trace[k].after.net)) == (m.1, m.2)
    ensures var s, s', v := trace[k].before, trace[k].after, trace[k].event.v;
            && Fits(v, s'.net) && ViewOk(v) && |s.clients| == |s'.clients| == |clients|
            && (forall p :: p in s'.needs ==> s'.needs[p].expires.Some? ==> m.0 < s'.needs[p].expires.value)
            && forall c :: 0 <= c < |clients| ==> Ticked(s.clients[c], s'.clients[c], v, s'.needs, m.0)
  {
    hide Lawful, Ticked;
    k := MinuteFound(trace, m);
    LawfulSteps(clients, congestionAware, origin, trace, world, k);
  }

  // ---------- where the histories come from ----------

  // The state's history was written from these relays, and its consensus keeps those of them that
  // were given a descriptor.
  ghost predicate Written(ns: NetworkState, relays: seq<Relay>)
  {
    && DistinctRelays(relays) && ns.validAfter > 0
    && ns.history == SortEntries(AllEntries(relays, ns.validAfter, ns.freshUntil))
    && forall r :: r in ns.stats ==> exists k :: 0 <= k < |relays| && relays[k].fp == r && HasDescriptor(relays[k], ns.validAfter, ns.freshUntil)
  }

  // What the simulation assumes of a history is what the writer guarantees.
  lemma WrittenIsOk(ns: NetworkState, relays: seq<Relay>)
    requires Written(ns, relays)
    ensures Descending(ns.history)
    ensures forall r :: r in ns.stats ==> exists e :: e in ns.history && e.fp == r && e.time <= ns.validAfter
  {
    var all := AllEntries(relays, ns.validAfter, ns.freshUntil);
    SortEntriesOk(all);
    SameMembers(ns.history, all);
    forall r | r in ns.stats ensures exists e :: e in ns.history && e.fp == r && e.time <= ns.validAfter {
      var k :| 0 <= k < |relays| && relays[k].fp == r && HasDescriptor(relays[k], ns.validAfter, ns.freshUntil);
      var e := Entry(0, r, InitialStatus(relays[k], ns.validAfter));
      InitialWritten(relays[k], ns.validAfter, ns.freshUntil);
      AllEntriesOf(relays, k, ns.validAfter, ns.freshUntil, e);
    }
  }

  lemma InitialWritten(r: Relay, validAfter: int, freshUntil: int)
    requires r.Valid() && HasDescriptor(r, validAfter, freshUntil)
    ensures r.order != [] && Entry(0, r.fp, InitialStatus(r, validAfter)) in RelayEntries(r, validAfter, freshUntil)
  {
    FreshDescriptorsOk(r, validAfter, freshUntil);
  }

  // A relay has the status of its latest descriptor of the period published by then, or else the
  // one it had before.
  ghost predicate Shown(hib: map<Fp, bool>, r: Relay, validAfter: int, freshUntil: int, t: int)
    requires r.Valid()
  {
    && r.fp in hib && r.order != []
    && (forall d :: d in FreshDescriptors(r, validAfter, freshUntil) ==> d in r.published)
    && ShowsAt(FreshDescriptors(r, validAfter, freshUntil), r.published, InitialStatus(r, validAfter), t, hib[r.fp])
  }

  ghost predicate AllShown(hib: map<Fp, bool>, relays: seq<Relay>, validAfter: int, freshUntil: int, t: int)
    requires DistinctRelays(relays)
  {
    forall k :: 0 <= k < |relays| && HasDescriptor(relays[k], validAfter, freshUntil) ==>
      Shown(hib, relays[k], validAfter, freshUntil, t)
  }

  // At every minute of a period the statuses are those of the descriptors.
  lemma MinutesShow(cons: Consensus, ns: NetworkState, relays: seq<Relay>, n: nat, m: nat)
    requires Written(ns, relays) && m < n
    ensures var (t, hib, known) := Minutes(cons, ns.history, map[], ns.validAfter, n)[m];
            t == ns.validAfter + TIME_STEP * m && known == cons && AllShown(hib, relays, ns.validAfter, ns.freshUntil, t)
  {
    hide ShowsAt, ReplayTo, FreshDescriptors, InitialStatus, AllEntries, SortEntries, HasDescriptor;
    var t := ns.validAfter + TIME_STEP * m;
    var hib := ReplayTo(ns.history, map[], t).1;
    forall k | 0 <= k < |relays| && HasDescriptor(relays[k], ns.validAfter, ns.freshUntil)
      ensures Shown(hib, relays[k], ns.validAfter, ns.freshUntil, t)
    {
      ReplayedHistoryShows(relays, ns.validAfter, ns.freshUntil, k, t);
    }
  }
}
