# A model of the Tor path simulator

This project models the parts of a Tor path simulator where its state and its arithmetic are
hardest to get right, and proves what they promise.

- **The simulated clients** (`ClientSpec.dfy`, `Clients.dfy`, `Trace.dfy`, `Simulation.dfy`, on
  `Network.dfy` and `Selection.dfy`). A client owns a guard list, a deque of clean circuits, a deque of dirty ones and a
  counter of covers for each port need. `Client` and `Simulator` are classes whose methods change that
  state step by step, as `pathsim.py` and `congestion_aware_pathsim.py` do; the predicate `ClientOk`
  is what every step keeps, `Simulator.Ok` holds between any two steps of a consensus period and
  `Simulator.Between` between two periods, and `Simulator.Run` is the whole main loop. `Trace` defines
  the simulation as a transition system: what each kind of step does to the world of clients, port
  needs and network. `Run` ends with a trace of lawful steps from the new clients to the final state,
  and the lemmas about such traces say what has become of every stream and of every minute.
- **The bandwidth-weight solver** (`BandwidthWeights.dfy`): section 3.8.3 of Tor's directory
  specification, its seven cases of floor divisions and the check of the weights behind them.
- **The hibernation history** (`Hibernation.dfy`): how it is written as changes only, and replayed.
- **The analysis of simulation logs** (`TopRelays.dfy`): a matrix for many adversaries at once against
  the plain analysis for one.
- **The data structures of the C++ extension**: KMP search in both directions (`KmpSearch.dfy`), the
  mergesort on linked nodes (`MergeSort.dfy`), the chained hash table, whose list and chains are
  linked through its elements, and the latency map on it (`HashTable.dfy`, `LatencyHash.dfy`), the
  resizable list (`SmartList.dfy`), the heap (`Heap.dfy`), and the sample windows of a Vivaldi node
  (`Vivaldi.dfy`). `Basics.dfy` holds what several of them share.

Randomness is a tape of draws in [0, 1) that a run consumes. What a client does with the tape is
stated exactly, up to the order of dictionaries: which draws are rejected, which guards are added and
tried, when an attempt at a path ends (`Searching`), and which needs get a circuit (`CoveringAll`). A
run stops early only when the tape is empty, or by one of two raises, and then for the sake of a port
or stream that it asks for: there is a path for it without an ntor key, or its exits all weigh nothing
(`Simulator.StopOk`); a period may also find that its guards or middles weigh nothing. A circuit is a value whose `id` stands for
the identity of the Python object. `raise` statements are values of a result type. `%` and `/` are the
floor operations of the source wherever operands can be negative.

Some promises of the code turned out not to hold, and the model follows the code:

- The solver can raise. In case 2b with more than a third of the bandwidth in plain middles the first
  attempt always leaves the range, and the third one is accepted exactly when its Wed is at most the
  scale and the surplus of middle bandwidth over a third is so small that margin and rounding hide it
  (`Case2b3Check`, `RecomputeOutcome`, `MiddleSurplusRaises`). It divides by zero in case 2b without
  exits or without Guard+Exit relays.
- `in_same_16_subnet` takes "1.2.3.4" and "192.0.0.1" for one /16, since it never looks at the dot in
  the second address (`SubnetTestFooled`). Its yes is right exactly if both dots of the first address
  stand over dots in the second (`SubnetTestExactly`).
- `pqueue_remove` only sifts down, so the heap order survives exactly when the moved item is not
  smaller than the parent of its new place (`Remove`, `RemovalCanBreak`).
- The descriptor a relay's initial hibernation status is taken from is the same for every order of
  the dictionary exactly if there are not both a descriptor published at the start of the period and
  one before it (`FreshOrderDecides`); the status replayed at any time of the period never depends on
  it (`StatusOrderIrrelevant`).
- The weight of a sample in the Vivaldi error check is written as one minus the greater of two errors,
  but the conditional operator binds so that it is the smaller error (`ErrorWeight`). The two are
  equal exactly if the errors add up to one (`WeightIsComplement`).
- The comment of the heap demands a strict order between parent and child; the code lets equals stand,
  and what it keeps is the strict order exactly if no item is equal to its parent (`StrictWithoutTies`),
  as in any heap of items no two of which compare equal (`StrictOfDiffering`), but not only there
  (`StrictWithEquals`).
- `policy_is_reject_star` compares the method `get_masked_bits` itself with 0, so a rule that rejects
  every address by zero masked bits, but not as a wildcard, is passed over there
  (`RejectStarFooled`). The test differs from the one it is meant to be exactly if the first accept
  before any wildcard reject of all ports stands behind such a rule (`RejectStarDiffers`).

## Model

| member | source | states |
|---|---|---|
| BandwidthWeights.RoleBandwidthOrder | network_modifiers.py:59-88 | The four bandwidth totals do not depend on the order of the consensus dictionary |
| BandwidthWeights.ComputeTotBandwidths | network_modifiers.py:59-88 | The loop's totals are the bandwidths of the four disjoint roles (BadExit relays are no exits), and their sum is the total of all relays |
| BandwidthWeights.CheckMeans | network_modifiers.py:90-124 | The check accepts a vector exactly if the three sums are within the margin of the scale, each weight is in range and guard, exit and middle load agree within 10 T / 3 |
| BandwidthWeights.Case1Fits | network_modifiers.py:132-147 | In case 1 all floor divisions together cost at most 3 T of balance, every weight is in range and each role's weights sum to the scale |
| BandwidthWeights.Case2b1OutOfRange | network_modifiers.py:168-180 | In case 2b with more middle than guard bandwidth the first attempt has a negative Wme and is refused |
| BandwidthWeights.Case2b1Fits | network_modifiers.py:168-180 | Case 2b's first attempt stays in range exactly if M <= G <= E + M, and then it balances within 3 T |
| BandwidthWeights.Case2b2Fits | network_modifiers.py:181-193 | Case 2b's second attempt needs no clamp, stays in range and balances within 3 T whenever no position but the Guard+Exit relays exceeds a third |
| BandwidthWeights.Case2b3Check | network_modifiers.py:181-199 | The third attempt of case 2b passes the check exactly if its Wed is at most the scale and the scaled surplus of middles over a third is at most ten times the total plus twice what the division leaves over |
| BandwidthWeights.SurplusHidden | network_modifiers.py:181-199 | That condition on the totals is the one on the weight the solver computes |
| BandwidthWeights.FirstAttemptAnswers | network_modifiers.py:168-199 | The first attempt is the answer exactly if M <= G <= E + M; else the answer, if any, is that of the second attempt |
| BandwidthWeights.Case3bGFits | network_modifiers.py:227-241 | Case 3b with guards scarce stays in range and balances within 3 T, and has Guard+Exit relays to divide by |
| BandwidthWeights.Case3bEFits | network_modifiers.py:242-259 | Case 3b with exits scarce, likewise |
| BandwidthWeights.RecomputeOutcome | network_modifiers.py:126-261 | For all totals and scales: the "inconsistent" raise is dead, and exactly when the solver divides by zero or raises, as conditions on the totals |
| BandwidthWeights.NoMiddleSurplusNeverRaises | network_modifiers.py:148-199 | With E > 0 and 3 M <= T the solver always succeeds, D > 0 following in case 2b |
| BandwidthWeights.SolvedVectorFits | network_modifiers.py:126-261 | Every vector handed out, of the unchecked cases 2a and 3a too, sums to the scale within 10 for each role and has weights in [0, scale] |
| BandwidthWeights.SolvedVectorBalances | network_modifiers.py:126-261 | Guard, exit and middle load of a solution agree within 3 T in cases 1, 2b1, 2b2, 3bG and 3bE, and, in terms of the totals, wherever no role is too scarce and no middle surplus is left |
| BandwidthWeights.CasesByTotals | network_modifiers.py:126-261 | Which of the cases a solution belongs to, from the totals alone |
| BandwidthWeights.SolutionShape | network_modifiers.py:126-261 | For all totals that have a solution, the equalities of its weights that its case stands for: which weights are equal, which are the whole scale or nothing, and which add up to it, up to rounding |
| BandwidthWeights.MiddleSurplusRaises | network_modifiers.py:168-199 | A network for which the solver does raise |
| BandwidthWeights.ScarcePositionGetsAll | network_modifiers.py:154-167 | In cases 2a and 3a no vector in range gives the scarce position more, and still it stays under a third |
| BandwidthWeights.ScarcePositionsGetAll | network_modifiers.py:154-167 | In case 2a no vector in range whose roles sum to the scale gives guard and exit position more load together, and the middle has the plain middles only |
| BandwidthWeights.PlentifulRoleSharesWithMiddle | network_modifiers.py:209-226 | Case 3a splits the plentiful role with the middle evenly up to rounding, or gives the middle none of it |
| KmpSearch.BuildTable | ext/cpp/lib/uthash/utstring.h:156-193 | For every non-empty needle the table filled in is the strong failure table: at each index the longest border that fails differently, with all indices in bounds |
| KmpSearch.BuildTableR | ext/cpp/lib/uthash/utstring.h:196-233 | The right-to-left table is the strong failure table of the mirrored needle |
| KmpSearch.FallBack | ext/cpp/lib/uthash/utstring.h:254-257 | Falling back through the strong table skips no candidate for an occurrence |
| KmpSearch.Find | ext/cpp/lib/uthash/utstring.h:236-265 | The result is the first occurrence of the needle, or -1 exactly if there is none |
| KmpSearch.FindR | ext/cpp/lib/uthash/utstring.h:269-299 | The result is the last occurrence, or -1 exactly if there is none |
| KmpSearch.FirstMirroredIsLast | ext/cpp/lib/uthash/utstring.h:269-299 | A first occurrence in the mirror is a last occurrence |
| KmpSearch.FindOnce | ext/cpp/lib/uthash/utstring.h:303-345 | The first occurrence at or after a start position, which may count from the end; -1 for a start beyond the end, where a signed length passes for a large unsigned one |
| KmpSearch.FindOnceR | ext/cpp/lib/uthash/utstring.h:349-391 | The last occurrence that ends at or before a start position; -1 for one before the beginning |
| Network.MightExitIsConservative | pathsim.py:253-265 | If a first-match, default-accept policy lets an address and port through, the test by port says so |
| Network.RejectStarRefuses | pathsim.py:284-293 | A policy reported to reject everything lets nothing through, as far as its accepting rules go |
| Network.RejectStarDiffers | pathsim.py:284-293 | The test is wrong exactly if an accept, with no earlier accept and no earlier wildcard reject of all ports, stands behind a reject of all ports by zero masked bits; what it does report is right |
| Network.RejectStarFooled | pathsim.py:284-293 | A policy that lets nothing through, for any address and port, and is not reported |
| Network.SameSubnetIsSeen | pathsim.py:408-424 | Addresses with equal first two octets are always reported as one /16 |
| Network.SubnetTestExactly | pathsim.py:408-424 | Addresses agree in their first two octets exactly if the test says yes and both dots of the first address stand over dots in the second |
| Network.SubnetTestFooled | pathsim.py:408-424 | Two addresses of different /16 that are reported, in one order only |
| Network.InSame16Subnet | pathsim.py:408-424 | The character loops decide as the specification of the test says, with all indices in bounds |
| Network.FarApartMeans | pathsim.py:382-424 | Two relays the filters keep apart are distinct, in no common family and in no common /16 |
| Network.MiddleFilter | pathsim.py:427-450 | True exactly for running relays with the flags asked for, far apart from exit and guard as far as these are given |
| Network.FilterExits | pathsim.py:327-346 | Exactly the relays of the consensus that pass the exit filter, each once |
| Network.FilterGuards | pathsim.py:528-541 | Exactly the relays of the consensus with the guard flags and a descriptor, each once |
| Network.CachedListIsExact | pathsim.py:1159-1195 | The loose list by port, rechecked for an address and port, accepts exactly what the exact filter does |
| Selection.GetPositionWeights | pathsim.py:349-358 | Each relay weighs its bandwidth by the weight of its role for the position over the scale; it fails exactly if some relay has no weight for the position |
| Selection.GetWeightedNodes | pathsim.py:361-379 | The running shares of the total end in 1; it raises exactly if the total is 0 |
| Selection.TotalIsZero | pathsim.py:361-379 | The total is 0 exactly if every node weighs nothing |
| Selection.SelectWeightedNode | pathsim.py:231-250 | For a draw in [0, 1] a relay is returned: the least one whose running share reaches the draw |
| Selection.NodeOwnsItsShare | pathsim.py:231-250 | Relay k is returned exactly for the draws in an interval as long as its share of the total |
| Selection.RelayOwnsItsShare | pathsim.py:231-379 | From a list in use a relay is drawn exactly for the draws in an interval as long as its bandwidth by its weight over the scale, as a share of the total |
| Selection.TotalOrder | pathsim.py:361-379 | That total is the same in whatever order the relays are listed |
| Selection.WeighNodes | pathsim.py:349-379 | The list made of some relays holds each of them once with its running share of bandwidth by weight over the scale; there is none exactly if all weigh nothing |
| Selection.ScaledReaches | pathsim.py:544-581 | Every element a uniform choice could make is made exactly by the draws of an interval of length 1 / n, which are exhibited |
| ClientSpec.CoverCountSplit | pathsim.py:690-700 | Removing circuits lowers the number of circuits that cover a port by those removed |
| ClientSpec.KeepCleanOk | pathsim.py:703-739 | Dropping any clean circuits, and uncovering their ports, keeps counters, order, cap and identities |
| ClientSpec.AddCleanOk | pathsim.py:957-975 | A new clean circuit that covers known ports, within the cap of 14, keeps the same |
| ClientSpec.UseCleanOk | pathsim.py:1086-1114 | Moving any clean circuit to the dirty deque, and uncovering its ports, keeps the same |
| ClientSpec.AddNeedOk | pathsim.py:1002-1011 | A new port need, counted over the circuits that suit it, keeps the same |
| ClientSpec.RemoveNeedOk | pathsim.py:879-890 | Forgetting a port need everywhere keeps the same |
| ClientSpec.RetryNowIsDead | pathsim.py:478-494 | In every reachable record the early "retry now" test never decides; the waits of 1, 4, 18 and 36 hours do |
| ClientSpec.FailedIsNotOffered | pathsim.py:478-494 | A guard that has just failed is not offered again at the same time |
| ClientSpec.PeriodGuardsOk | pathsim.py:813-860 | After a new consensus a guard is marked bad exactly if not listed as a running guard, none has expired, and none has been marked for 30 days; since when it is marked is Trace.BadSinceIs |
| Clients.WellBuiltPath | pathsim.py:1206-1361 | The three relays of a circuit are distinct, pairwise unrelated by family and by true /16 |
| Clients.GuardFilterForCirc | pathsim.py:497-525 | Raises exactly if a guard not marked bad is missing from the consensus or has no descriptor; else says whether it suits the circuit |
| Clients.GetNewGuard | pathsim.py:544-581 | Draws are rejected exactly until one gives a guard that clashes with none on the list; it fails exactly if no draw left on the tape does, and then the tape is empty |
| Clients.SelectExit | pathsim.py:1159-1195 | Draws are rejected exactly until one gives an exit that is awake and passes the exact filter, though the list may be loose; it fails exactly if no draw left does |
| Clients.SelectMiddle | pathsim.py:453-475 | Draws are rejected exactly until one gives a middle that is awake and passes the filter for this exit and guard; it fails exactly if no draw left does |
| Clients.Client.GetGuardsForCirc | pathsim.py:584-650 | At least one guard and at most the number configured, all usable for the circuit; guards on the list keep their records, and as many are drawn and added as it takes for enough live and then enough usable ones, no more |
| Clients.OfferedAre | pathsim.py:626-650 | Guards are added exactly until the minimum is usable for the circuit; of all usable ones as many are offered as are configured, each once |
| Clients.FilledUp | pathsim.py:601-624 | A guard list that is too short is filled up exactly until as many guards are live as are configured; a long enough one is left alone |
| Clients.Client.TryGuard | pathsim.py:1281-1312 | One attempt: reached exactly if awake, and the exact new record, be it cleared, marked, dropped or failed again |
| Clients.Client.CreateCircuit | pathsim.py:1206-1361 | The circuit is well built: relays in consensus, running, awake, with the flags, far apart, one with an ntor key; NotFresh exactly outside the consensus' hour; the outcome, the guard list and the tape are those of at most 32 attempts, of which the last gives the circuit or ends the tape, and NoNtorCircuit exactly if all 32 give a path without any key; guard records evolve lawfully |
| Clients.Client.UncoverCircuitPorts | pathsim.py:690-700 | Each covered port loses one cover; it raises exactly if a port is unknown |
| Clients.Client.KillCircuitsByRelay | pathsim.py:703-739 | Exactly the circuits with a relay that is down go, from both deques, and no longer count as cover |
| Clients.Client.PeriodClientUpdate | pathsim.py:813-873 | The new state for any consensus: guards marked, dropped or cleared, circuits killed; over runs see Trace.BadSinceIs, Trace.GuardsLeave and Trace.CircuitsKilled |
| Clients.Client.ExpireDirty | pathsim.py:916-923 | Popping from the right drops exactly the circuits dirty for too long, since the deque is ordered |
| Clients.Client.ExpireClean | pathsim.py:925-934 | Popping from the right drops exactly the circuits unused for too long, and uncovers their ports |
| Clients.SweptOk | pathsim.py:916-939 | After the sweep the invariant holds, and all circuits are young and have only relays that are awake |
| Clients.Client.CoverOnce | pathsim.py:953-975 | One circuit searched for the need comes to the front of the clean ones; it covers exactly the needs it suits and each of them gains one cover; never more than 14 circuits; a search that fails changes only guard records and the tape |
| Clients.Client.TimedClientUpdates | pathsim.py:908-975 | It succeeds exactly if at the end every port need is covered as often as it asks, or there are 14 clean circuits; state and tape are those of searching circuits for unmet needs only, one need after the other, until all are met or one search fails |
| Clients.NothingToCover | pathsim.py:941-975 | With all needs met after the sweep nothing changes and no draw is used |
| Clients.Client.AssignStream | pathsim.py:1059-1156 | The first fresh dirty circuit that supports the stream, else the first clean one, which moves, else a new one: it ends up dirty and supports the stream, and the invariant is kept; with such a circuit at hand it succeeds without a draw, and without one outcome, guard list and tape are exactly those of the search for a new circuit |
| Clients.EqualIsChosen | congestion_aware_pathsim.py:246-274 | Matching by dictionary equality finds exactly the clean circuit that was chosen |
| Clients.PingByIdOnly | congestion_aware_pathsim.py:327-335 | The ping in use is stored with that circuit and with no other |
| Clients.Client.AssignStreamByPing | congestion_aware_pathsim.py:218-341 | The eligible circuit with the smallest creation ping over both deques, the leftmost among equals, else a new one; the invariant is kept; with an eligible circuit it succeeds without a draw, and without one outcome, guard list and tape are exactly those of the search for a new circuit |
| Clients.Client.AddPortNeed | pathsim.py:1002-1011 | A new need counts exactly the clean circuits that suit it, and marks them |
| Clients.Client.RemovePortNeed | pathsim.py:887-890 | An expired need disappears from the counters and from every clean circuit |
| Simulation.PadFiles | pathsim.py:164-188 | For increasing times: refused exactly if a gap is no whole number of hours; else one entry an hour, the files being the given ones in order |
| Simulation.PaddedIsHourly | pathsim.py:164-188 | States read from the padded files, as the writer left them, are what the main loop takes: one an hour, with descending histories and a status for every relay |
| Simulation.PeriodClientOk | pathsim.py:813-873 | Whatever the new consensus says, each client satisfies the whole invariant after its update, so its relays are in the consensus and have a hibernation status |
| Simulation.Simulator.UpdateHibernation | pathsim.py:891-904 | The statuses after a tick are the replay of the history up to it, and the invariant of all clients is kept |
| Simulation.Simulator.ExpireNeeds | pathsim.py:876-890 | Exactly the needs that have run out are forgotten, by the clients too |
| Simulation.Simulator.Tick | pathsim.py:1523-1537 | After each minute's updates every client has every need met as far as there is room; it stops early only with an empty tape, or by the ntor raise for a need that there is a path for without a key |
| Simulation.Simulator.UpdatePortNeed | pathsim.py:978-1025 | A stream's port is needed for an hour more, a new need is counted by all clients and has its exit list; it raises exactly if the need is new and no exit for it has any weight |
| Simulation.Simulator.ListForStream | pathsim.py:1028-1056 | The cached list of a stream's port serves its purpose; it raises exactly if there is none yet and no relay for it has any weight |
| Simulation.Simulator.HandStreams | pathsim.py:1539-1586 | The streams of a minute go to every client in order, each by a recorded step that gives a circuit (see Trace.StepOk); it stops early only with an empty tape, or for one of the streams: a path for it or its port without a key, or no weight among its exits or those of its port |
| Simulation.Simulator.SetNetwork | pathsim.py:1413-1459 | The raise for gaps and overlaps fires exactly if the hour does not continue the period before; relays, bandwidth weights and scale are those of the new consensus, its descriptors join those known, and over a gap all stay; every relay has a status afterwards |
| Simulation.Simulator.RunPeriod | pathsim.py:1413-1586 | From any state between periods and any consensus: all clients in order again at the end, every stream of the hour given a circuit by every client, sixty minutes with all clients served, under that consensus, its bandwidth weights and the statuses of the replayed history; the gap raise is exact, and else it stops early only as its minutes do, or because guards, middles or the exits for port 80 weigh nothing by the weights just given |
| Simulation.Simulator.Run | pathsim.py:1364-1586 | Over any run of padded hours neither the gap raise nor the freshness raise can happen; lawful steps lead from the new clients to the final state, in which each stream of the simulated time is given to each client and each minute of each hour is served, under the hour's consensus with its weights, all descriptors known by then and replayed statuses or, over a gap, the last ones, with every client's books kept after every step; it stops early only in an hour whose network is the one given for it, with an empty tape, or for port 80 or one of the run's streams by a path without a key or exits without weight, or because guards or middles weigh nothing |
| Trace.HandedOnce | pathsim.py:1539-1586 | The handings of a run are each stream of the time with each client exactly once, and no other |
| Trace.EveryStreamIsGiven | pathsim.py:1059-1156 | In every lawful run with those handings, for each stream and client there is a step, after the need for its port has been renewed, that leaves that client with a dirty circuit that supports the stream, chosen as the code does, with all relays in the consensus of that time, and no other client touched |
| Trace.NewIsUnrelated | pathsim.py:1206-1361 | A circuit made for a stream has three distinct relays, in no common family and no common /16 |
| Trace.EveryMinuteIsServed | pathsim.py:908-975 | In every lawful run each simulated minute is a step after which all clients have every need met, as far as there is room, by young circuits of relays awake then, with only unexpired needs left |
| Trace.LawfulSteps | pathsim.py:1364-1586 | Each step of a lawful run obeys the rule of its kind and starts where the one before it ended |
| Trace.StepKeeps | pathsim.py:690-1114 | Whatever the step, every client keeps its books: a counter for each need and no other, equal to the number of clean circuits that cover it; at most 14 clean circuits, none of them used; both deques in order; all circuits of different identity; a descriptor for every guard, and only a contacted guard recorded as unreachable |
| Trace.RunKeeps | pathsim.py:1364-1586 | So the books of all clients are kept in every state of a lawful run that starts with them kept |
| Trace.RunMarks | pathsim.py:813-860 | In a lawful run, after every step since the clients took note of the consensus loaded last, a guard is marked bad exactly if that consensus does not list it as a running guard |
| Trace.BadSinceIs | pathsim.py:823-846 | In a lawful run from clients without guards, after every step a listed guard's bad_since is the validity time of the first consensus in the unbroken row of those that do not list it as a running guard, and is unset without such a row |
| Trace.GuardsLeave | pathsim.py:813-860 | In such a run, at the beginning of a period a guard leaves exactly if that row began 30 days or more before the period ends, or its time has run out; the others keep their records but for the mark, and none comes |
| Trace.CircuitsSwept | pathsim.py:916-975 | A minute's updates take away exactly the dirty circuits used first ten minutes ago, the clean ones made an hour ago, and those with a hibernating relay; a clean circuit that is new was made at that time |
| Trace.CircuitsKilled | pathsim.py:703-739 | The beginning of a period takes away exactly the circuits with a relay that the consensus does not list as running, and brings none |
| Trace.CircuitsStay | pathsim.py:978-1156 | No other lawful step takes a circuit away, or changes more of it than what it covers, its first use, and its last ping |
| Trace.NeedsAre | pathsim.py:978-1025 | In a lawful run a port is needed exactly if the start or some stream has asked for it since it last ran out, for one hour after the latest that did, fast, stable exactly for a long-lived port, and covered twice |
| Trace.NeedsRunOut | pathsim.py:876-890 | A need goes only once its time is up, and a minute's updates leave none whose time is up |
| Trace.EveryStateIsKept | pathsim.py:1364-1586 | What both say of any client after any step of a lawful run, spelt out |
| Trace.WrittenIsOk | process_consensuses.py:139-230 | The history the writer leaves is descending and has an entry by the start of the period for every relay of the consensus, which is what the lookups of the simulation need |
| Trace.MinutesShow | pathsim.py:891-904 | At each minute of a period every relay has the status of its latest descriptor published by then, else its initial one |
| Hibernation.ChooseTimes | process_consensuses.py:145-169 | The loop over a relay's descriptors finds the latest acceptable time, the fresh-period ones, and folds the initial one |
| Hibernation.FreshFoldIs | process_consensuses.py:158-169 | Without a descriptor exactly at the start of the period the fold yields the newest one before it, or else the oldest one |
| Hibernation.FreshFoldExactly | process_consensuses.py:158-169 | With one, the fold forgets all that stand before it in the dictionary: it yields the newest older one behind it, or else that one |
| Hibernation.FreshOrderIrrelevant | process_consensuses.py:158-169 | Without a descriptor exactly at the start of the period the order does not matter |
| Hibernation.FreshOrderMatters | process_consensuses.py:158-169 | With one there, and one before, the order decides |
| Hibernation.FreshOrderDecides | process_consensuses.py:158-169 | The pick is the same for all orders of the dictionary exactly if there are not both one exactly at the start and one before |
| Hibernation.PeriodHistory | process_consensuses.py:139-214 | The history written is the sorted list of initial statuses and changes of all relays with a descriptor |
| Hibernation.ChangesShow | process_consensuses.py:198-209 | The changes alone determine the status at any time |
| Hibernation.ReplayCompose | pathsim.py:891-904 | Replaying minute by minute is replaying at once |
| Hibernation.ReplayShowsLatest | pathsim.py:796-810 | Popping up to a time leaves each relay with its latest entry by then |
| Hibernation.ReplayedHistoryShows | process_consensuses.py:139-230 | Replaying the written history to any time of the period gives each relay the status of its latest fresh-period descriptor by then, else its initial status |
| Hibernation.StatusOrderIrrelevant | process_consensuses.py:139-230 | That status is the same for any order of the dictionary |
| TopRelays.SetAnalysis | pathsim_analysis.py:74-165 | For each sample the record is that of the log's lines against the set, comments skipped; start and end are the least and greatest time |
| TopRelays.TopAnalysis | pathsim_analysis.py:167-287 | It fails exactly on a comment line; else each cell (i, j) of each sample is the record against the top i guards and j exits |
| TopRelays.MatrixAgreesWithSet | pathsim_analysis.py:74-287 | Each cell equals, in all seven fields, what the plain analysis records for that set |
| TopRelays.StatsMean | pathsim_analysis.py:135-158 | Each count is the number of the sample's lines of its kind, each time the earliest of those |
| TopRelays.FirstIs | pathsim_analysis.py:135-158 | A time is missing exactly if there is no such line, and else the least |
| TopRelays.StatsAddUp | pathsim_analysis.py:135-158 | The four counts sum to the sample's lines, and pairs of them to those with a bad guard or exit |
| TopRelays.MatrixGrows | pathsim_analysis.py:235-280 | Guard, exit and joint compromise grow with i and j, good streams shrink, the sum stays |
| TopRelays.CompromiseRates | pathsim_analysis.py:16-42 | The three rates are ratios of sums over all records; without any stream the division fails |
| TopRelays.RatesCountLines | pathsim_analysis.py:16-42 | Summed over all samples the counts are those of the log's lines |
| Heap.RootIsLeast | ext/cpp/container.c:511-513 | The root of a heap is least |
| Heap.Queue.Heapify | ext/cpp/container.c:582-615 | Items and indices are kept; if only links at the position may be wrong, the result is a heap exactly if its link up was right |
| Heap.Queue.Add | ext/cpp/container.c:621-644 | The item joins, indices are right, and a heap stays a heap, a strict one if no two of its items compare equal |
| Heap.Queue.Pop | ext/cpp/container.c:650-665 | The root leaves with index -1; from a heap it is a least item and the rest is a heap, a strict one if no two of its items compare equal |
| Heap.Queue.Remove | ext/cpp/container.c:672-691 | The item leaves, indices are right, and a heap stays a heap exactly if the last item fits under the parent of the hole |
| Heap.RemovalCanBreak | ext/cpp/container.c:672-691 | A heap that is none after a removal |
| Heap.StrictWithoutTies | ext/cpp/container.c:511-513 | A heap is strictly ordered, as the comment asks, exactly if no item is equal to its parent; see the next row for the items |
| Heap.StrictOfDiffering | ext/cpp/container.c:511-513 | If no two of the items compare equal, every heap of them is strictly ordered, and so it stays through additions and pops |
| Heap.StrictWithEquals | ext/cpp/container.c:511-513 | The converse fails: a heap of 1, 2 and 2 is strictly ordered too |
| Heap.Queue.Drain | ext/cpp/container.c:650-665 | Popping until the queue is empty brings out all items, each with index -1, and from a heap in ascending order |
| SmartList.List.EnsureCapacity | ext/cpp/container.c:64-84 | Contents are kept and the capacity suffices; it less than doubles the need or is the maximum, and never leaves the range of an int |
| SmartList.List.Remove | ext/cpp/container.c:109-120 | All members equal to the element go, the others stay as often as before, and those in front of the first stay in place |
| SmartList.List.Insert | ext/cpp/container.c:316-333 | The value stands at the index, all members from there on one place later |
| SmartList.List.DelKeepOrder | ext/cpp/container.c:301-310 | Only the member at the index is gone |
| SmartList.List.Reverse | ext/cpp/container.c:135-146 | The members stand in reverse |
| SmartList.List.MostFrequent | ext/cpp/container.c:352-382 | On a sorted list, a member whose class is the largest, of equally large ones the last |
| SmartList.List.RemoveDuplicates | ext/cpp/container.c:388-402 | What is left is the first member of each run of equals, and what is freed is the rest |
| SmartList.UniqIsStrict | ext/cpp/container.c:388-402 | On a sorted list that leaves strictly ascending members |
| SmartList.UniqCovers | ext/cpp/container.c:388-402 | Every member that is gone has an equal left |
| SmartList.List.BsearchIdx | ext/cpp/container.c:426-479 | A match if there is one, else the place where the key belongs; the final assertions hold |
| MergeSort.MergeRuns | ext/cpp/lib/uthash/utlist.h:192-214 | Relinking two runs node by node appends their stable merge to the merged part, and leaves the rest of the list intact |
| MergeSort.MergePass | ext/cpp/lib/uthash/utlist.h:179-216 | One pass merges neighbouring runs over the whole list, and counts one merge exactly if two runs were all |
| MergeSort.SortDoublyLinked | ext/cpp/lib/uthash/utlist.h:168-225 | The list is the sorted one, linked in both directions, ended by null, the head pointing back to the tail, for every list and comparison |
| MergeSort.SortHashList | ext/cpp/lib/uthash/uthash.h:719-794 | The same for the table's list, whose tail is kept up to date |
| MergeSort.PassDoubles | ext/cpp/lib/uthash/utlist.h:178-223 | A pass over sorted runs leaves sorted runs of twice the size and keeps equals in order |
| MergeSort.SortIsStableSort | ext/cpp/lib/uthash/utlist.h:105-225 | For every total preorder the result is a sorted permutation in which equals keep their order |
| HashTable.Table.Find | ext/cpp/lib/uthash/uthash.h:94-104 | Walking along the chain of the key's bucket finds the element with the key, or null exactly if there is none |
| HashTable.Table.Add | ext/cpp/lib/uthash/uthash.h:173-196 | The new element is linked behind the tail and in front of its bucket's chain; the map gains exactly it, the table stays valid, and the buckets double exactly if its bucket then has at least ten elements for each unit of the bucket's multiplier and one, and expansion is not off |
| HashTable.LinkLast | ext/cpp/lib/uthash/uthash.h:173-187 | Two assignments put an element behind the tail of a doubly linked list |
| HashTable.Push | ext/cpp/lib/uthash/uthash.h:611-622 | An element goes to the front of its bucket's doubly linked chain, and all other chains stay linked |
| HashTable.Table.Delete | ext/cpp/lib/uthash/uthash.h:215-248 | The element is unlinked from list and chain, the others and their order stay, and head and tail are right; the last deletion frees the table |
| HashTable.Unlist | ext/cpp/lib/uthash/uthash.h:215-248 | Unlinking any element leaves the list without it, linked both ways, with its ends known |
| HashTable.DeleteInBucket | ext/cpp/lib/uthash/uthash.h:625-636 | Unlinking any element from its bucket's chain leaves the chain without it and all other chains as they are |
| HashTable.Table.Expand | ext/cpp/lib/uthash/uthash.h:666-712 | Twice the buckets, each element relinked into the chain of its hash; ideal length, excess items, multipliers and the stop rule are as documented, with no division by zero |
| HashTable.MoveChain | ext/cpp/lib/uthash/uthash.h:681-702 | Walking along an old chain while its elements are relinked moves exactly its elements |
| HashTable.EntryAdded | ext/cpp/lib/uthash/uthash.h:173-196 | Insertion is insertion into a map |
| HashTable.EntryRemoved | ext/cpp/lib/uthash/uthash.h:215-248 | Deletion is deletion from a map |
| HashTable.CountsAddUp | ext/cpp/lib/uthash/uthash.h:611-622 | The bucket counts sum to the number of items |
| LatencyHash.LatencyMap.Insert | ext/cpp/latency_hash.c:20-46 | The pair's first latency is stored, a different one later is refused, all other pairs stay; no inner table is empty |
| LatencyHash.LatencyMap.Get | ext/cpp/latency_hash.c:48-63 | The latency stored, or missing |
| LatencyHash.LatencyMap.Remove | ext/cpp/latency_hash.c:65-85 | Only that pair is gone; an inner table that becomes empty goes too |
| LatencyHash.LatencyMap.Clear | ext/cpp/latency_hash.c:3-18 | Nothing is left, each next element being read before its predecessor goes |
| Vivaldi.Node.Record | ext/cpp/vivaldinode.c:781-806 | The sample is in front of the memory of at most 200; every sample's reference count is the number of windows that hold it, and it is freed exactly when that is none |
| Vivaldi.Node.UpdateBuffers | ext/cpp/vivaldinode.c:536-554 | Both windows get the sample in front and keep at most 30; counts as above |
| Vivaldi.Node.CentroidCheck | ext/cpp/vivaldinode.c:814-875 | Passes exactly while bootstrapping, if the centroid does not move away from the origin, or by the draw; the window it divides by is never empty |
| Vivaldi.Node.ErrorCheck | ext/cpp/vivaldinode.c:880-963 | Passes exactly while bootstrapping, if the median error does not grow, or by the draw; the array has room for the window |
| Vivaldi.Node.ImprovementPasses | ext/cpp/vivaldinode.c:913-930 | A coordinate that fits every sample of the window at least as well does not raise the median |
| Vivaldi.Node.UpdateError | ext/cpp/vivaldinode.c:213-255 | With a positive latency the error moves by exactly a twentieth of the squared own error's share of the way to the relative error, or to 1 if that would be more; the weight is the own share of both errors; the branches for negative errors are dead |
| Vivaldi.UpdatedError | ext/cpp/vivaldinode.c:238-249 | The error stays in (0, 1] and moves towards the sample's relative error, by that amount |
| Vivaldi.ErrorMovesBy | ext/cpp/vivaldinode.c:238-249 | That amount, in plain arithmetic |
| Vivaldi.ErrorMoves | ext/cpp/vivaldinode.c:238-249 | So the error stays the same exactly if it was the relative error already, or is 1 and cannot grow |
| Vivaldi.SurerMovesMore | ext/cpp/vivaldinode.c:241-244 | It moves further the surer the other node is, strictly where it shrinks |
| Vivaldi.ErrorWeight | ext/cpp/vivaldinode.c:908-909 | The weight is the smaller of the two errors |
| Vivaldi.WeightIsComplement | ext/cpp/vivaldinode.c:908-909 | It is the complement of the greater error exactly if the two add up to one |
| Vivaldi.Node.Update | ext/cpp/vivaldinode.c:493-534 | The error moves as above; every sample is taken while bootstrapping, and afterwards exactly those that pass the centroid check and, at the new error, the error check; a rejected one changes the error but neither coordinate nor windows; the invariant holds again |
| Vivaldi.Node.FreeNode | ext/cpp/vivaldinode.c:162-181 | Every sample ever recorded is freed, and none twice |
| Vivaldi.MedianMono | ext/cpp/container.h:581-585 | Values that are no greater one by one have no greater median |
| Vivaldi.MedianAtMost | ext/cpp/container.h:581-585 | The median is at most x exactly if more than half of the values, the lower half counting, are |
| Vivaldi.VarianceDouble | ext/cpp/vivaldinode.c:357-393 | The one-pass recurrence gives the sum of squared distances from the mean over n - 1 |
| Network.FilterMiddles | pathsim.py:427-450 | Without exit and guard the middle filter asks for running relays only; each is listed once |
| Selection.GetBwWeight | pathsim.py:191-228 | A weight is returned for every position and role but one: an exit that is no guard has none in guard position |
| Selection.LoadIs | pathsim.py:191-228 | Which weight it is: over running relays, none an exit and a bad exit at once, the bandwidth a position gets is its load in the solver's balance equations |
| Selection.DrawNode | pathsim.py:231-250 | A list built from a filter yields a relay of that filter; its raise is unreachable |
| Clients.Client.SelectGuard | pathsim.py:1278-1312 | The guard that answers is usable for the circuit; one of the guards offered is drawn and tried until one answers, new guards that fail go, and contacted ones record the failure; the draws used are exactly those |
| Clients.Client.ChoosePath | pathsim.py:1255-1338 | One attempt gives three relays in consensus, running, awake, with the flags, pairwise far apart, or ends the tape; guard list and tape afterwards are exactly those of drawing an exit, a guard and a middle |
| Clients.Client.TakeClean | pathsim.py:1085-1114 | The first clean circuit that suits moves to the front of the dirty deque and is uncovered; without one nothing changes |
| Clients.Client.FindBest | congestion_aware_pathsim.py:226-245 | The eligible circuit with the smallest creation ping, dirty ones first and ties to the left |
| Clients.Client.Sweep | pathsim.py:916-939 | The three sweeps together, with the invariant kept and all circuits fit |
| Simulation.Simulator.SeedNeeds | pathsim.py:1461-1469 | The first need is for port 80; every client counts it as covered zero times and is otherwise unchanged |
| Simulation.Simulator.UpdateClients | pathsim.py:1471-1475 | After a new consensus the invariant holds for every client |
| Simulation.Simulator.WeighRelays | pathsim.py:1477-1517 | The lists of guards, middles and exits for each need hold exactly the relays that the filters let through, each once, with the running shares of their weights for the position; it fails exactly if the relays of one of these lists all weigh nothing |
| Simulation.Simulator.WeighExits | pathsim.py:327-379 | The list holds exactly the exits that fit, each with the running share of its weight for exit position, and fails exactly if each of them weighs nothing |
| Simulation.Simulator.WeighMiddles | pathsim.py:349-379 | The same for all running relays in middle position |
| Simulation.Simulator.WeighGuards | pathsim.py:349-379 | The same for all guards in guard position |
| Simulation.Simulator.StartPeriod | pathsim.py:1413-1517 | The steps before the minutes of a period, from any state between periods; the network is that of the new consensus, bandwidth weights included; both raises are exact: for times that do not continue the period before, and for a list without weight |
| Simulation.Simulator.RunMinutes | pathsim.py:1519-1586 | Sixty minutes give the streams of the hour to every client, serve every client each minute and replay the history up to the last minute; every need stays one for port 80 or a stream's port; the run stops early only with an empty tape, or for one of the streams or port 80 by a path without a key, or for a stream whose exits or port's exits weigh nothing |
| Hibernation.RelayHistory | process_consensuses.py:171-209 | The initial status and the changes of one relay; the raise for a missing initial descriptor is unreachable |
| Hibernation.PopUpTo | pathsim.py:891-904 | Popping entries from the right applies exactly those due, the later over the earlier |
| TopRelays.PlaceOf | pathsim_analysis.py:214-233 | An address is among the first i of a list exactly if its place is reached by i |
| TopRelays.CountLine | pathsim_analysis.py:235-280 | A line adds once to every cell of its sample's matrix, by the four tests of that cell |
| SmartList.List.Add | ext/cpp/container.c:86-92 | The element is appended, growing the array when full |
| SmartList.List.Del | ext/cpp/container.c:288-296 | The last member takes the place of the deleted one |
| Vivaldi.Sample.Free | ext/cpp/vivaldinode.c:152-159 | One reference less, and freed with the last; never called on a freed sample |
| Vivaldi.MedianDouble | ext/cpp/container.c:726-733 | The lower median of the front part of the array, which it sorts |

## Left out

- Files, pickles, arguments, logging, callbacks and printing: inputs are sequences and maps, and the calls of the callbacks are not modelled.
- Parsing of consensuses, descriptors and policies: an exit policy is a list of rules of which the first match decides, and no match accepts; an address is a string with three dots.
- Probability, and the termination of the rejection loops with probability one: a run whose tape of draws ends stops there.
- Rounding of doubles: cumulative weights, latencies, pings, errors and log times are exact reals, and NaN does not occur.
- Congestion and propagation delay models: the ping of a circuit at creation and in use is a parameter of the client.
- Times of streams that are not whole seconds, as in runs driven by a trace: all times are integers, and no property depends on that.
- Streams that are neither connect nor resolve, for which the code raises, and the adversary's relays inserted into the network states.
- Python's sharing of circuit objects between lists: a circuit is a value with an identity, and the dictionary entry it shares with its deque is updated through it.
- The guard and middle lists computed on demand when none are passed in: the main loop always passes them.
- The compact log format of the set analysis, the parsing of log lines, and the reading of several result files one after the other.
- The shares of samples with any compromise, and the printing of the matrix for powers of two: simple tallies of the records.
- LL_SORT2 and CDL_SORT2: the first is DL_SORT2 without the back links, the second closes the circle and is not used.
- Sorting a hash table in place: what it does to the links of such a list is in MergeSort, on nodes of its own.
- HashTable.Table.Add: the element is made there with a key and a value that stay; the caller's structure around the handle is not modelled.
- HashTable.Slot: masking the hash value with n - 1 is written as the remainder by n, which is the same for a power of two; the hash function itself is arbitrary.
- KmpSearch.FindOnce: only starts at most the length of the text before its end, and KmpSearch.FindOnceR only starts before the end, since others make the code read outside the text.
- Network.Lists: family members are non-empty strings; for an empty one the code raises at its first character.
- HASH_SELECT, HASH_CLEAR, Bloom filters, string and pointer keys: not used by the latency map, or used by it through the operations modelled.
- SmartList.List.Insert: growing beyond the maximal capacity, which the code asserts never happens, is a precondition; so are members that are not null.
- The remaining list functions (string and digest variants, intersect, subtract, overlap): the same loops over other comparisons.
- Allocation failures and the overflow of 32-bit counters.
- The move of a Vivaldi coordinate (its force, unit vector, random direction and time step): the candidate coordinate is a parameter, and so is the distance function, since it takes a square root.
- Vivaldi.Node.Update: only for positive latencies and other errors in (0, 1], as the engine delivers them; a latency of zero fails an assertion in the code.
- Heights, stability measures and the encodings of coordinates: heights are off by default, the rest is output.
- vcs_pathsim.py, the plotting scripts, sockets and protocol buffers, and the vendored libraries beyond the functions named above.
