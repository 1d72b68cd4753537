# Melissi: pull-sync, verified

Melissi keeps the reserves of a neighbourhood of nodes in step. Each node reads its peers' bins as
logs, offers itself what it lacks, leases each missing chunk to one holder at a time, and records
how far each log is settled. This project models that system in Dafny and proves, for every size
and every run, what the repository checks on small instances.

The layers, bottom up:

- `Machine` is the scheduling machine: leases, holders, bars, arrivals, the priority guard,
  rejection, reset and collection. `MachineSafety` proves its safety over every sequence of actions,
  `MachineForget` that collection cannot be observed, and `MachineActions` says row by row what
  each action, check and query does.
- `Explorer` is the machine's environment: Byzantine stalls, spurious timeouts, churn, live
  arrivals. `Termination` proves that every run ends, and ends complete. `Cycle`, `Search` and
  `Explore` are the exhaustive explorer itself, proved to report the truth of every scenario;
  `Spaces` proves that a scenario has finitely many worlds, `Verdicts` says in the environment's own
  terms what is reported, and `Ablations` what is reported with a mechanism switched off.
- `Settlement` is the per-(peer, bin) interval log.
- `NodeModel` (functions) and `NodeCore` (objects) are the node: its event arms and its round.
  `NodeWork`, `NodeRuns`, `NodeLedger`, `NodePacing` and `NodeBalance` prove what a round and a run
  achieve; `NodeTraces` reads one channel's announcements and offers out of the effects.
  `NodeEvents` and `NodeRound` say, field by field and effect by effect, what each event and each
  pass does.
- `SimNet` (functions) and `SimCore` (object) are k nodes, the queue of messages in flight, the
  serving reserves and the parked offers. `SimChannel`, `SimTokens`, `SimHandle`, `SimInv`,
  `SimStore`, `SimRuns`, `SimCounts` and `SimStart` build the network's invariant; `SimTheorem`
  concludes that quiescence means replication; `SimAnswers` says what each request is answered with,
  and `SimOmission` that omitting nodes never serve. The invariant has three parts. A channel's log
  accounts for the serving bin up to where it has covered. A claim (cursors asked for, offer
  standing, lease taken) is exactly one message in flight or one parked offer, counted in a
  multiset of tokens. The universe of chunks changes only by arrivals.
- `Protobuf`, `Messages`, `Bitvector` are the wire format, pinned byte by byte in `WireFormat`; `Adapter` (functions) and `AdapterCore`
  (objects) the clients and the serving stream; `FetchProof` and `FetchTheorem` prove a fetch end
  to end over bytes, `Advertisement` the
  offer leg, `FetchClose` a fetch cut short anywhere, `FetchWitness` exhibits a codec that
  meets the laws they ask for; `Resume` proves that positions made up by the adapter never skip an
  entry.
- `Levels`, `DnsAddr` and `DnsNames` are the bootstrap walk, `Overlay` the proximity order.

Code that updates state is a class whose methods are proved equal, state and answer, to a function
of the old state; the theorems are about those functions. Nondeterminism of the source's making (a
seeded generator) is an argument: which message is delivered next, which fetches time out.

Four points where the proofs sharpen what the source says. Preloading is sound exactly for ids
neither leased nor rejected (`MachineSafety.PreloadConflictsIffLeased`,
`MachineSafety.PreloadOverlapsIffRejected`). A triple wanted twice and not offered is missed twice
(`FetchTheorem.OneOutcomeEach`, `FetchWitness.WantedTwiceMissedTwice`). An offer chunk with every
field empty disappears on the wire (`Messages.OfferRoundTrip`). And the comment at
crates/overlay/src/lib.rs:98-100 gives an address proximity 256 to itself, where the code answers
255; the model follows the code.

Wire formats follow the Protocol Buffers encoding ("Base 128 Varints", "Length-Delimited Records",
"Packed Repeated Fields").

## Model

| member | source | states |
|---|---|---|
| `MachineSafety.SafetyOverRuns` | crates/machine/src/lib.rs:149-349 | From a fresh deduplicating machine, no sequence of actions (preloads of unleased, unrejected ids) trips a check: no double delivery, deliveries plus preloads equal what is held, one claim per id, every claim on an unbarred current holder; held and rejected stay disjoint and no settled id is leased |
| `MachineSafety.StepSafe` | crates/machine/src/lib.rs:149-349 | The invariant behind it is inductive: each of the thirteen actions keeps it |
| `MachineSafety.SafePassesChecks` | crates/machine/src/lib.rs:428-450 | The invariant implies that `check_invariants` answers Ok, and what that means: nothing delivered twice, every store accounted for, each lease one claim on an unbarred current holder |
| `MachineSafety.StoredExactlyOnce` | crates/machine/src/lib.rs:263-275 | Along any run an id is stored once if it ends up held and was not before, otherwise never; the held and the rejected set only grow |
| `MachineSafety.PreloadConflictsIffLeased` | crates/machine/src/lib.rs:153-160 | The caller's duty on `preload` is exact: a later delivery can double up if and only if the fresh id was leased when preloaded |
| `MachineSafety.PreloadOverlapsIffRejected` | crates/machine/src/lib.rs:153-160 | Preloading a fresh id leaves held and rejected disjoint if and only if it was not rejected |
| `MachineForget.ForgetInvisible` | crates/machine/src/lib.rs:330-349 | In every configuration, a run with collections anywhere in it stores, rejects, leases and counts exactly what the same run without them does, and ends with the same enabled wants, resets and deficit |
| `MachineForget.StepRelated` | crates/machine/src/lib.rs:330-349 | In every configuration, states that differ only in the scheduling maps of settled ids stay so under every action, and every action answers alike on both, except an observation about a settled id |
| `MachineForget.QueriesAgree` | crates/machine/src/lib.rs:408-423 | Such states have equal enabled wants, equal deficit and the same resettable ids |
| `MachineForget.ForgetRelated` | crates/machine/src/lib.rs:339-349 | Collecting any id leads to a state related to the one before, in both directions |
| `MachineActions.ChecksAreExact` | crates/machine/src/lib.rs:428-450 | The checks look: no answer if and only if nothing was delivered twice, deliveries and preloads add up, ids are claimed once under dedup and every claim is on an unbarred holder; each name exactly when its own condition fails and those before it hold |
| `MachineActions.WantIs` | crates/machine/src/lib.rs:208-259 | A claim is given if and only if the id has arrived, is unfetched and held unbarred by the peer that asks, the dedup, single-source and live knobs allow it, and, under priority, no deeper id could still be started |
| `MachineActions.DeliverIs` | crates/machine/src/lib.rs:263-275 | What a delivery does to every id and lease, with and without the lease |
| `MachineActions.StallIs` | crates/machine/src/lib.rs:280-290 | What a stall releases and whom it bars, under each knob |
| `MachineActions.RejectIs` | crates/machine/src/lib.rs:293-303 | A rejected id is settled unless it was, and leaves arrivals and every lease |
| `MachineActions.ResetIs` | crates/machine/src/lib.rs:307-325 | Bars go exactly of an arrived, idle, unfetched id all of whose holders are barred |
| `MachineActions.ForgetIs` | crates/machine/src/lib.rs:339-349 | A settled id leaves arrivals, live marks, holders, bars and priorities; all else stays |
| `MachineActions.LoseIs` | crates/machine/src/lib.rs:180-184 | Holding and claim go together, and nobody is barred |
| `MachineActions.ArriveIs` | crates/machine/src/lib.rs:187-205 | Who arrives, and who is live |
| `MachineActions.ObserveIs` | crates/machine/src/lib.rs:173-176 | The holder is added, and nothing else changes |
| `MachineActions.PreloadIs` | crates/machine/src/lib.rs:153-160 | A fresh id is held and counted apart from deliveries; a held one changes nothing |
| `MachineActions.DeficitIs` | crates/machine/src/lib.rs:366-371 | The deficit and what is arrived and stored make up what has arrived |
| `Machine.PullState.Preload` | crates/machine/src/lib.rs:153-160 | The object's whole new state and answer, over which the safety results are stated |
| `Machine.PullState.ObserveHolder` | crates/machine/src/lib.rs:173-176 | Adds the holder and nothing else; answers whether it was new |
| `Machine.PullState.LoseHolder` | crates/machine/src/lib.rs:180-184 | Removes the holder with its claim and its bar; answers whether it held |
| `Machine.PullState.ArriveHist` | crates/machine/src/lib.rs:187-194 | Marks an unrejected id arrived and historical, once |
| `Machine.PullState.ArriveLive` | crates/machine/src/lib.rs:196-205 | Marks an unrejected id arrived and live, once |
| `Machine.PullState.Want` | crates/machine/src/lib.rs:253-259 | Leases exactly a claimable pair; otherwise changes nothing and answers false |
| `Machine.PullState.Deliver` | crates/machine/src/lib.rs:263-275 | Consumes the lease, stores the id, counts it and records a conflict if it was already held; without the lease nothing changes |
| `Machine.PullState.Stall` | crates/machine/src/lib.rs:280-290 | Releases the lease and bars the peer when the configuration says so |
| `Machine.PullState.Reject` | crates/machine/src/lib.rs:293-303 | Settles an unsettled id as rejected and drops it from arrivals and leases |
| `Machine.PullState.ResetExcluded` | crates/machine/src/lib.rs:307-325 | Clears the bars of an id all of whose holders are barred and which is unfetched and unleased |
| `Machine.PullState.Forget` | crates/machine/src/lib.rs:339-349 | Drops a settled id from every scheduling map, keeping the terminal record |
| `Machine.State.EnabledWantsAre` | crates/machine/src/lib.rs:408-423 | The enumeration of enabled wants is exactly the claimable pairs |
| `Termination.RunsTerminateComplete` | crates/machine/src/explore.rs:118-200 | For every peer set, chunk set, holdings, Byzantine set and budgets, with priority on or off: runs are bounded by a number fixed at the start, every world on the way passes the checks, and a run that cannot be extended has stored every chunk, live ones included, each once |
| `Termination.StepDecreases` | crates/machine/src/explore.rs:118-200 | Every enabled move strictly decreases the three-level measure (budgets, unarrived and unfetched; honest bars; twice the unbarred minus the leased pairs) |
| `Termination.RankDecreases` | crates/machine/src/explore.rs:118-200 | The same measure as one natural number, which every enabled move lowers |
| `Termination.TerminalIsComplete` | crates/machine/src/explore.rs:118-171 | A world with nothing enabled has every chunk stored: the weakened priority guard leaves the deepest unfetched chunk claimable |
| `Explorer.StepEnv` | crates/machine/src/explore.rs:118-200 | Every enabled move keeps the environment invariant (leases and bars within the scenario, honest supply, budgets) |
| `Explorer.EnvInvPassesChecks` | crates/machine/src/explore.rs:203-227 | That invariant implies that `check_env_invariants` answers Ok, and what that means: a sound machine, every chunk on an honest peer, no honest peer barred when no timeouts are to be had |
| `Cycle.HasCycle` | crates/machine/src/explore.rs:308-336 | The iterative three-colour search terminates and answers true exactly when the graph has a directed cycle |
| `Search.Explore` | crates/machine/src/explore.rs:230-305 | A violation is reported with a run that reaches it; otherwise the worlds counted are exactly the reachable ones, all pass, and the terminal counts and the cycle verdict are those of the reachable worlds |
| `Search.GraphCyclesAreLivelocks` | crates/machine/src/explore.rs:230-305 | The recorded graph is cyclic exactly when some reachable world can come back to itself |
| `Search.TraceTo` | crates/machine/src/explore.rs:230-305 | Following the parent links back and reversing yields a run from the start to the world |
| `Verdicts.ExploreAll` | crates/machine/src/explore.rs:230-305 | Exploring any scenario, ablated configurations included, ends. A violation comes with a run to a world whose first failed check it names; without one, the worlds counted are the reachable ones, all sound, the terminal, incomplete and stale counts are those of worlds with nothing enabled and a chunk or a live chunk missing, and a cycle is reported exactly if a reachable world can come back to itself |
| `Verdicts.EnvChecksAreExact` | crates/machine/src/explore.rs:203-227 | No answer if and only if the machine is sound, every chunk is on an honest peer and, with no timeouts to spend, no honest peer is barred; each name exactly when its own condition is the first to fail |
| `Verdicts.EnabledIs` | crates/machine/src/explore.rs:118-171 | Which moves are enabled, both ways |
| `Verdicts.BudgetsAddUp` | crates/machine/src/explore.rs:176-200 | Over every run, churn and spurious timeouts are spent move by move and never overspent |
| `Verdicts.InitIs` | crates/machine/src/explore.rs:93-116 | The start: holdings, arrivals, labels and budgets of the scenario |
| `Ablations.DedupIsSafe` | crates/machine/tests/parity.rs:185-291 | With dedup and every chunk on an honest peer to start with, no exploration reports a violation, whichever other mechanisms are off |
| `Ablations.NoDedupIsCaught` | crates/machine/tests/parity.rs:172-183 | Without dedup, if two honest peers may be asked for one chunk in a reachable world, every exploration reports a violation |
| `Ablations.NoExcludeLoops` | crates/machine/tests/parity.rs:204-217 | Without exclusion, if a Byzantine peer may take a claim in a reachable world, every exploration reports the cycle |
| `Ablations.NoLiveIsStale` | crates/machine/tests/parity.rs:277-291 | Without live fetching, every terminal is reported stale as soon as there is a live chunk |
| `Ablations.SingleSourceIsIncomplete` | crates/machine/tests/parity.rs:237-275 | With a single source, a chunk assigned to a peer that omits, or that can never hold it, makes every terminal be reported incomplete |
| `Spaces.StepBounded` | crates/machine/src/explore.rs:176-200 | What makes it end: in every configuration a move keeps tables, sets, budgets and the delivery count within bounds fixed by the scenario |
| `Spaces.SpaceIs` | crates/machine/src/explore.rs:59-65 | The worlds within those bounds are a finite set |
| `Explore.ExplorePositive` | crates/machine/src/explore.rs:230-305 | Exploring any scenario of the positive family reports no violation, no cycle and no incomplete or stale terminal |
| `Explore.NoLivelock` | crates/machine/src/explore.rs:230-305 | No reachable world of a positive scenario comes back to itself |
| `Settlement.AdvanceTakesLargestPrefix` | crates/settlement/src/lib.rs:111-132 | Advancing moves the interval to the largest covered position with everything at or below it settled, never back, and removes exactly that prefix from the window |
| `Settlement.AdvanceComposes` | crates/settlement/src/lib.rs:111-132 | Advancing under less and then under more is advancing under more |
| `Settlement.SettlementOrderIrrelevant` | crates/settlement/src/lib.rs:111-132 | Two sequences that settle the same triples leave a log in the same state |
| `Settlement.PeerBinLog.Observe` | crates/settlement/src/lib.rs:74-82 | Adds an entry beyond the interval, ignores one within it, and raises the covered position |
| `Settlement.PeerBinLog.Cover` | crates/settlement/src/lib.rs:84-90 | Raises the covered position, never lowers it |
| `Settlement.PeerBinLog.ForgetEntry` | crates/settlement/src/lib.rs:93-97 | Removes one entry and returns its triple |
| `Settlement.PeerBinLog.Advance` | crates/settlement/src/lib.rs:111-132 | The loop over the ordered window computes that largest settled prefix, and reports it if and only if the interval moved |
| `NodeWork.RoundConservesWork` | crates/node/src/lib.rs:382-449 | After a round, if any arrived, unsettled id has a holder some lease is outstanding; if no channel filled its window, every such id is leased |
| `NodeWork.RoundLeasesArePartitioned` | crates/node/src/lib.rs:393-449 | The batches of a round partition its new leases: each new lease is in one batch, that of its holder and bin, once, and no batch exceeds the window |
| `NodeWork.SchedulePartitions` | crates/node/src/lib.rs:402-445 | The scheduling loop keeps that partition and ends with no enabled want that has window budget |
| `NodeWork.RoundServesDeepestFirst` | crates/node/src/lib.rs:402-445 | With the priority guard, whatever a round newly leases, no deeper id that could be fetched is left unaddressed |
| `NodeWork.RoundTracksTheWindow` | crates/node/src/lib.rs:357-380 | After a round only unsettled ids and ids still in some window are tracked, and no unsettled id was dropped |
| `NodeRuns.RunsConserveWork` | crates/node/src/lib.rs:192-450 | Work conservation at every round of every run of events |
| `NodeRuns.HandleKeeps` | crates/node/src/lib.rs:192-450 | Every event, however hostile, keeps the node invariant: machine safety, valid logs, every arrived unsettled id has its bin |
| `NodeRuns.NoEventsTripChecks` | crates/node/src/lib.rs:487-489 | From a booted node with any preloaded reserve, no sequence of events makes `check_invariants` fail |
| `NodeLedger.SettledMeansSettled` | crates/node/src/lib.rs:328-344 | When a channel announces a position, every entry its log ever accepted at or below it, and not since churned out, is stored or rejected then and after any later events |
| `NodeLedger.AnnouncementsClimb` | crates/node/src/lib.rs:328-344 | Until the peer departs, the announced positions of a channel strictly increase, start beyond where it stood and end where it stands |
| `NodeLedger.HandleUptos` | crates/node/src/lib.rs:328-344 | An event announces a channel exactly when its interval moves, and announces the position it moves to |
| `NodeLedger.RunKept` | crates/node/src/lib.rs:238-283 | Over every run, each entry a channel ever accepted and did not lose to churn is still in the log's window, or at or below the interval and settled; the held and rejected sets only grow |
| `NodePacing.OffersArePaced` | crates/node/src/lib.rs:219-357 | If each answer belongs to the standing offer, at most one offer per channel is unanswered, and the offers made until the peer departs are at most the ticks and cursors received plus the interval reached |
| `NodePacing.RoundPaced` | crates/node/src/lib.rs:344-357 | A round opens a channel at most once, and only to ask from strictly beyond the last question |
| `NodeBalance.RoundBalances` | crates/node/src/lib.rs:402-445 | If all startable ids share one set of unbarred holders and no window withholds a want, a round leaves the spread of assignments over that set at most the larger of one and what it was |
| `NodeBalance.RunsBalance` | crates/node/src/lib.rs:402-445 | The same over a whole run of such rounds: the spread never widens beyond the larger of one and what it was at the start |
| `NodeBalance.RoundWithholdsNothing` | crates/node/src/lib.rs:393-415 | No window withholds a want if none is full at the end of the round, or if there was no more to start than one window holds |
| `NodeBalance.ChoiceIsLightest` | crates/node/src/lib.rs:416-440 | The peer picked has the fewest assignments among the whole set |
| `NodeModel.ChoiceUnique` | crates/node/src/lib.rs:416-440 | The pick (deepest, lowest triple; fewest assigned, least load, lowest peer) is deterministic |
| `NodeRound.ChoiceIs` | crates/node/src/lib.rs:416-440 | The pick: of the open wants one of the deepest bin, of those the lowest id; of its peers one assigned least (if routing is cumulative), of those one leased least, of those the lowest |
| `NodeRound.RoundCountsAssignments` | crates/node/src/lib.rs:440-444 | Each new lease of a round is one more assignment of its peer, and nothing else is |
| `NodeRound.RoundReoffers` | crates/node/src/lib.rs:344-357 | A round asks on exactly the drained channels of present peers with no offer standing, from just above all they cover, and opens those |
| `NodeRound.RoundTidies` | crates/node/src/lib.rs:359-387 | A round drops exactly the settled ids no window names, out of every map, and clears the bars of exactly the stuck ones; records, cursors and old leases stay |
| `NodeRound.RoundFetchesBatches` | crates/node/src/lib.rs:446-448 | The fetches of a round are its batches, each whole, and nothing else |
| `NodeRound.RoundEffectsInOrder` | crates/node/src/lib.rs:325-450 | Announcements and offers before fetches, each by peer and bin, settled before asked on one channel, none twice |
| `NodeRound.GoneIsGone` | crates/node/src/lib.rs:202-218 | After a departure and its round the peer has no log, open offer, holding or claim, and no effect names it |
| `NodeRound.DepartIs` | crates/node/src/lib.rs:202-218 | Departure takes what is the peer's and nothing of anyone else's, and bars nobody |
| `NodeEvents.TickReoffers` | crates/node/src/lib.rs:286-296 | A tick asks, from just above the interval, on every channel of a present peer with no offer standing, and opens it; on every other it does nothing, and nothing else changes |
| `NodeEvents.SeenAsksOnce` | crates/node/src/lib.rs:194-200 | A peer is asked for its cursors when first seen, and only then |
| `NodeEvents.CursorsOpen` | crates/node/src/lib.rs:219-236 | Cursors open, and ask once on, the channels they name from the radius on that have no offer standing, and set the last head named; the rest is left alone |
| `NodeEvents.OfferCloses` | crates/node/src/lib.rs:238-266 | An answer covers at least what was asked; entries it covers but no longer names leave the window with the peer's holding and claim; all else stays |
| `NodeEvents.RefsEnter` | crates/node/src/lib.rs:268-282 | Each entry beyond the interval enters the window, each triple named is held by the peer and tracked at the bin, arrives unless settled, and is live exactly if first named beyond the cursor |
| `NodeEvents.OutcomesAre` | crates/node/src/lib.rs:298-318 | What a fetch result that names each id once does to every id, lease and bar |
| `NodeEvents.RejectedIsSettled` | crates/node/src/lib.rs:311-313 | An id an answer rejects is settled, whatever else the answer says |
| `NodeCore.Discovery.TryOpen` | crates/node/src/discovery.rs:30-32 | Opens a channel and answers whether it was closed before; no other channel changes |
| `NodeCore.Discovery.Close` | crates/node/src/discovery.rs:35-37 | Closes exactly one channel |
| `NodeCore.Discovery.ForgetPeer` | crates/node/src/discovery.rs:40-42 | Closes exactly the channels of one peer |
| `NodeCore.Node.Handle` | crates/node/src/lib.rs:192-321 | The object handles each of the six events as the node function that the run theorems are about |
| `NodeCore.Node.RunRound` | crates/node/src/lib.rs:325-450 | Settle, prune, reset, schedule, emit: the object's round is the function the round theorems are about |
| `NodeCore.Node.Settle` | crates/node/src/lib.rs:328-357 | The loop over the logs, in key order, advances each, announces each move and re-offers the uncovered tail of an idle channel; one pass over the map |
| `NodeCore.Node.PruneDone` | crates/node/src/lib.rs:359-380 | The loop drops exactly the settled ids that left every window |
| `NodeCore.Node.ResetBars` | crates/node/src/lib.rs:382-387 | The loop clears the bars of exactly the ids all of whose holders are barred |
| `NodeCore.Node.ScheduleAll` | crates/node/src/lib.rs:389-445 | The greedy loop with its window counters computes the schedule the partition and balance theorems are about |
| `NodeCore.Node.PeerLeaves` | crates/node/src/lib.rs:202-218 | Releases every claim and holding of the peer, bars nobody, and drops its logs, cursors and open offers |
| `NodeCore.Node.OpenAnswer` | crates/node/src/lib.rs:238-275 | A re-offer drops the entries the peer no longer lists between start and topmost, with the peer's holding of them, and covers the answer |
| `SimTheorem.QuiescenceMeansReplication` | crates/sim/src/lib.rs:265-361 | For any number of nodes, omitting set, window of at least one, arrivals and delivery order: once everyone sees everyone and nothing is in flight, every node holds exactly what the run brought in, every channel is an offer parked beyond the peer's head, deliveries served equal deliveries counted, and each node counted exactly what it did not start with |
| `SimTheorem.RunsConserveDeliveries` | crates/sim/src/lib.rs:313-358 | At every moment of every run each lease is exactly one fetch or fetch result in flight, and the deliveries served are those counted plus those in flight |
| `SimTheorem.QuietHoldsAlong` | crates/sim/src/lib.rs:265-361 | On any topology, a quiet node holds everything held by anyone along a chain of peers |
| `SimTheorem.QuietParks` | crates/sim/src/lib.rs:304-312 | With nothing in flight, every channel of every peer is a parked offer asking for more than the peer has |
| `SimTheorem.StepGood` | crates/sim/src/lib.rs:265-361 | Delivering any one message in flight, with any luck, keeps the network invariant |
| `SimTheorem.MoveGood` | crates/sim/src/lib.rs:161-361 | So does any move (sighting, arrival, delivery), and the chunks of the network change only by what the move brings in |
| `SimTheorem.RunConserves` | crates/sim/src/lib.rs:161-361 | Over a run nothing appears but what is brought in, and nothing vanishes |
| `SimTheorem.NewChunksMayArrive` | crates/sim/src/lib.rs:161-172 | A chunk nobody holds may always arrive: no node has heard of it |
| `SimTokens.RoundOwes` | crates/node/src/lib.rs:325-450 | A round emits exactly the requests by which its claims (offers standing, leases) grow |
| `SimTokens.OutcomesRelease` | crates/node/src/lib.rs:298-320 | Applying a fetch result releases exactly the leases it answers, stores what was delivered and counts each delivery once |
| `SimHandle.EvOwes` | crates/node/src/lib.rs:192-321 | Handling an event settles the one claim it answers and emits exactly the requests of the new ones |
| `SimHandle.EvChan` | crates/node/src/lib.rs:238-283 | Handling an answer that is a true stretch of the serving reserve keeps every channel's account of its reserve: everything up to the interval is settled, everything from there to topmost is in the window under its own BinID |
| `SimStore.StoreInv` | crates/sim/src/lib.rs:207-235 | Storing a chunk, answering the offers it unblocks, keeps the invariant of the whole network |
| `SimStore.ResponseIsStretch` | crates/sim/src/lib.rs:242-262 | An answered offer is a complete, non-empty stretch of the bin from where it was asked, topmost being its last |
| `SimRuns.AnswerInv` | crates/sim/src/lib.rs:290-342 | Serving cursors, an offer or a fetch, Byzantine and spurious misses included, keeps the invariant |
| `SimRuns.HoldInv` | crates/sim/src/lib.rs:161-172 | A chunk brought in from outside, not yet heard of by the node, keeps it too |
| `SimStart.StartedGood` | crates/sim/src/lib.rs:175-183 | Starting keeps the invariant |
| `SimStart.StartedMeshes` | crates/sim/src/lib.rs:175-183 | After starting, everyone sees everyone |
| `SimAnswers.FetchAnswered` | crates/sim/src/lib.rs:313-340 | Of a fetch, want by want: delivered if and only if the peer is honest, holds it and no spurious miss was drawn; deliveries are counted as that peer's, spurious misses off the budget, and an omitting peer serves and spends nothing |
| `SimAnswers.OfferAnswered` | crates/sim/src/lib.rs:242-312 | An offer the bin reaches is answered with the page from its start, every entry under its BinID and topmost the last; one beyond it is parked and answered by nothing |
| `SimAnswers.CursorsAnswered` | crates/sim/src/lib.rs:291-303 | Cursors name every bin of the universe once, with the peer's head |
| `SimAnswers.StoreAppends` | crates/sim/src/lib.rs:207-217 | A new chunk goes to the end of its bin and into the index; a held one changes nothing |
| `SimAnswers.StoreAnswers` | crates/sim/src/lib.rs:218-235 | Exactly the parked offers the new head reaches are answered, one message each, from the grown bin; the others stay |
| `SimAnswers.HandshakeFirst` | crates/sim/src/lib.rs:275-286 | A message is passed over exactly when it is no handshake, one is in flight, and discovery is concurrent |
| `SimAnswers.TakenIsGone` | crates/sim/src/lib.rs:287-288 | Taking a message takes that one, and moves only the last |
| `SimAnswers.NewNetIs` | crates/sim/src/lib.rs:121-152 | A new network: empty nodes under the production configuration, the given ones omitting |
| `SimOmission.OmittersServeNothing` | crates/sim/src/lib.rs:317-318 | At every moment of every run, an omitting node has served nothing |
| `SimCore.Sim.Pool` | crates/sim/src/lib.rs:275-286 | The pool is exactly the messages that may be taken next |
| `SimCore.Sim.Step` | crates/sim/src/lib.rs:265-361 | The object delivers one message of the pool, discovery first when so configured, and is idle exactly when nothing is in flight |
| `SimCore.Sim.Store` | crates/sim/src/lib.rs:207-235 | The reserve, the index, the parked list and the queue after a store, whole |
| `SimCore.Sim.Answer` | crates/sim/src/lib.rs:290-342 | The serving side of a request: cursors, offer or parked, fetch outcomes |
| `SimCore.Sim.Receive` | crates/sim/src/lib.rs:343-358 | The requesting side of an answer: the node's reaction, then the stores |
| `SimCore.Sim.Hold` | crates/sim/src/lib.rs:161-172 | Preload and store a chunk from outside |
| `SimCore.Sim.Feed` | crates/sim/src/lib.rs:201-205 | The node handles the event; its effects are queued as requests in order |
| `SimCore.Sim.Start` | crates/sim/src/lib.rs:175-183 | The nested loops show every node every other |
| `Protobuf.VarintRoundTrip` | crates/protobuf/src/lib.rs:20-37 | Every 64-bit value is read back, with its exact length, whatever follows it |
| `Protobuf.PutUvarint` | crates/protobuf/src/lib.rs:20-26 | The loop writes the varint the round trip is about |
| `Protobuf.ReadUvarint` | crates/protobuf/src/lib.rs:28-37 | The loop with its shift and overflow tests reads exactly what the definition says, failures included |
| `Protobuf.VarintPrefix` | crates/protobuf/src/lib.rs:28-37 | No strict prefix of a varint reads as a value |
| `Protobuf.FrameRoundTrip` | crates/protobuf/src/lib.rs:42-60 | A frame within the cap is read back with its length, whatever follows |
| `Protobuf.FramePrefix` | crates/protobuf/src/lib.rs:50-60 | Every strict prefix of a frame asks for more |
| `Protobuf.FramesRoundTrip` | crates/protobuf/src/lib.rs:42-60 | Concatenated frames come apart in order, an incomplete rest left over |
| `Protobuf.DeframeStable` | crates/protobuf/src/lib.rs:50-60 | A complete frame stays what it is as bytes arrive behind it |
| `Protobuf.ReadVarintField` | crates/protobuf/src/lib.rs:63-115 | A varint field is read back as one field, the rest as it reads alone |
| `Protobuf.ReadBytesField` | crates/protobuf/src/lib.rs:72-115 | A length-delimited field likewise |
| `Protobuf.ReadFields` | crates/protobuf/src/lib.rs:83-115 | The loop over a message yields its fields in order, or none on any malformed field |
| `Messages.GetRoundTrip` | crates/wire/src/pb.rs:15-36 | Get survives the wire for every value |
| `Messages.ChunkRoundTrip` | crates/wire/src/pb.rs:39-63 | Chunk likewise |
| `Messages.OfferReads` | crates/wire/src/pb.rs:66-96 | An offer decodes to itself without the chunks that name nothing |
| `Messages.OfferRoundTrip` | crates/wire/src/pb.rs:66-96 | An offer survives the wire if and only if each of its chunks has a non-empty field |
| `Messages.EmptyChunkVanishes` | crates/wire/src/pb.rs:66-96 | The smallest offer that does not survive |
| `Messages.WantRoundTrip` | crates/wire/src/pb.rs:99-118 | Want survives the wire |
| `Messages.DeliveryRoundTrip` | crates/wire/src/pb.rs:121-145 | Delivery survives the wire |
| `Messages.AckRoundTrip` | crates/wire/src/pb.rs:160-199 | Ack survives the wire, packed cursors of any number included |
| `WireFormat.VarintSpells` | crates/protobuf/src/lib.rs:20-26 | A varint is base 128, least significant digit first, continued by the top bit, and has no superfluous last byte |
| `WireFormat.UvarintReads` | crates/protobuf/src/lib.rs:28-37 | What is read of any buffer: up to the first byte that ends a varint, if among the first ten, modulo 2^64; nothing otherwise |
| `WireFormat.FrameIs` | crates/protobuf/src/lib.rs:42-60 | A frame is the length and the message; one over 128 KiB is refused on sight |
| `WireFormat.TagsAre` | crates/protobuf/src/lib.rs:63-80 | A field's tag is eight times its number plus its wire type |
| `WireFormat.FixedPayloads` | crates/protobuf/src/lib.rs:83-115 | Fixed-width fields are skipped by their width; other wire types and cut payloads are refused |
| `WireFormat.GetIs` | crates/wire/src/pb.rs:15-25 | The fields of a Get on the wire: 1 the bin, 2 the start |
| `WireFormat.ChunkIs` | crates/wire/src/pb.rs:39-52 | Of a chunk: 1 the address, 2 the batch id, 3 the stamp hash |
| `WireFormat.OfferIs` | crates/wire/src/pb.rs:66-79 | Of an offer: 1 topmost, 2 each chunk in order |
| `WireFormat.WantIs` | crates/wire/src/pb.rs:99-108 | Of a want: 1 the bitvector |
| `WireFormat.DeliveryIs` | crates/wire/src/pb.rs:121-134 | Of a delivery: 1 the address, 2 the data, 3 the stamp |
| `WireFormat.AckIs` | crates/wire/src/pb.rs:160-178 | Of an ack: 1 the cursors packed, 2 the epoch |
| `WireFormat.GetReads` | crates/wire/src/pb.rs:27-36 | Any bytes: unknown fields are skipped, the last of a number counts, malformed ones are refused |
| `WireFormat.ChunkReads` | crates/wire/src/pb.rs:53-63 | Likewise for a chunk |
| `WireFormat.OfferReadsAll` | crates/wire/src/pb.rs:80-96 | Likewise for an offer, whose chunks are all those that come, in order, and which one bad chunk spoils |
| `WireFormat.WantReads` | crates/wire/src/pb.rs:109-118 | Likewise for a want |
| `WireFormat.DeliveryReads` | crates/wire/src/pb.rs:135-145 | Likewise for a delivery |
| `WireFormat.AckReads` | crates/wire/src/pb.rs:179-199 | Likewise for an ack, whose cursors may come packed or single |
| `WireFormat.SetAdds` | crates/wire/src/pb.rs:209-215 | Bit i is the i mod 8th of byte i / 8, least significant first; setting it adds its weight, if unset, and leaves all else |
| `Bitvector.SetsOne` | crates/wire/src/pb.rs:209-215 | Setting a bit sets that bit and no other |
| `Bitvector.EmptyHasNone` | crates/wire/src/pb.rs:205-215 | A new vector has no bit set |
| `Bitvector.SetInPlace` | crates/wire/src/pb.rs:209-211 | The write in place is the function those laws are about |
| `FetchTheorem.FetchEndToEnd` | crates/wire/src/adapter.rs:200-430 | Client against server over framed bytes, offer and deliveries in any fragments, any page up to the limit: a server with nothing to cover blocks, an empty page ends the fetch with every want missed, and otherwise the fetch ends with, for each wanted and offered triple, exactly its verdict (`validate`'s if still held, else Missed), and for any other wanted one a miss per time it was wanted |
| `Advertisement.AdvertisedEndToEnd` | crates/wire/src/adapter.rs:109-158 | The advertisement over bytes, the offer in any fragments with anything behind it: the client reports the page the reserve collected, each entry at start plus its place, and the topmost the reserve answered; what stands behind the offer is kept; a server with nothing to cover blocks |
| `Advertisement.AnyPieces` | crates/wire/src/adapter.rs:137-157 | Likewise for any offer that decodes: its identifiable chunks and its topmost, with the fragment that completes it |
| `Advertisement.PartAdvertised` | crates/wire/src/adapter.rs:137-157 | Until the frame is whole the answer is Need, and every byte is kept |
| `Advertisement.OfferCarries` | crates/wire/src/adapter.rs:378-388 | On the wire each chunk of an offer carries its triple's address, batch id and stamp hash, in the page's order |
| `Advertisement.DeliveryCarries` | crates/wire/src/adapter.rs:403-423 | And a delivery its triple's address, data and stamp if still held, else a zero address and nothing else |
| `Advertisement.DeliveryTaken` | crates/wire/src/adapter.rs:260-273 | Any delivery uses up one awaited; a zero address, an unknown triple or one not pending changes nothing else |
| `Advertisement.MalformedPanics` | crates/wire/src/adapter.rs:137-430 | A length over the cap, or a whole frame that is no message, is a panic of whoever reads it |
| `FetchTheorem.OneOutcomeEach` | crates/wire/src/adapter.rs:233-246 | Each wanted triple gets exactly one outcome if and only if none wanted twice is missing from the offer |
| `FetchWitness.WantedTwiceMissedTwice` | crates/wire/src/adapter.rs:233-246 | The case where it gets two: a whole fetch of 7 and 7 from a server that offers 8 |
| `FetchWitness.WordsAreServable` | crates/wire/src/adapter.rs:29-43 | The laws asked of a codec can be met: a concrete codec serves every page of 64-bit words |
| `FetchTheorem.AnyFragments` | crates/wire/src/adapter.rs:200-277 | Any fragmentation of the same bytes leads to the same answer and the same state |
| `FetchClose.CloseAccounts` | crates/wire/src/adapter.rs:252-299 | Closed where the server's stream breaks off, at any byte and in any fragments: each pick whose delivery came whole has its verdict, every other pick a miss, each other want its misses |
| `FetchClose.CloseBeforeOffer` | crates/wire/src/adapter.rs:288-299 | Closed before the offer is whole, however much of it came: no outcome at all |
| `FetchClose.ArrivedCounts` | crates/wire/src/adapter.rs:252-260 | What came whole: the frames that end at or before the byte where the stream breaks |
| `FetchProof.ServedArePicked` | crates/wire/src/adapter.rs:396-430 | The server sends one delivery for each triple the client picked, in the same order: bits, frames and picks agree |
| `FetchProof.BitsArePicks` | crates/wire/src/adapter.rs:216-240 | The bits the client sets are exactly the positions it picked |
| `FetchProof.PickedAre` | crates/wire/src/adapter.rs:216-240 | Picked are exactly the wanted triples the offer names |
| `FetchProof.PickedDistinct` | crates/wire/src/adapter.rs:216-240 | No triple is picked twice |
| `FetchProof.TakesAll` | crates/wire/src/adapter.rs:250-277 | With the awaited frames in its buffer the client takes each, in order, and finishes |
| `AdapterCore.FetchClient.Poll` | crates/wire/src/adapter.rs:200-277 | The object's buffer, state and answer are those of the client the theorems are about |
| `AdapterCore.FetchClient.Close` | crates/wire/src/adapter.rs:279-299 | Closing books a miss for each pick still pending, in ascending order |
| `AdapterCore.FetchClient.PickWants` | crates/wire/src/adapter.rs:216-240 | The matching loop sets, in place, exactly the bits of the picks |
| `AdapterCore.OfferClient.Poll` | crates/wire/src/adapter.rs:125-154 | First the Get; then the first complete frame, positioned from start, unidentifiable chunks skipped but counted |
| `AdapterCore.ServerStream.Poll` | crates/wire/src/adapter.rs:355-430 | The object's reaction in each state is the server's the theorems are about |
| `Resume.PositionsAreLow` | crates/wire/src/adapter.rs:138-152 | A made-up position never exceeds the true BinID |
| `Resume.PositionedAre` | crates/wire/src/adapter.rs:138-152 | What the offer client reports are exactly the decodable entries, each at start plus its index |
| `Resume.ResumeNeverSkips` | crates/settlement/src/lib.rs:111-132 | Over every run of the node, while an accepted entry is unsettled the next Get starts at or below its true BinID |
| `Resume.UntimedNeverSkips` | crates/node/src/lib.rs:350-355 | In any run without ticks, with every answer positioned by the adapter: for every decodable chunk of every page ever answered, its triple is settled or the interval is below its true BinID |
| `Resume.PositionedIsMadeUp` | crates/wire/src/adapter.rs:138-152 | The adapter's positions start at the answer's start and are each used once |
| `Resume.UntimedKeepsAll` | crates/node/src/lib.rs:238-283 | In such a run the ledger keeps every entry ever offered: no made-up position is used twice |
| `DnsAddr.ResolveWith` | crates/net/src/dnsaddr.rs:89-127 | On every zone, cyclic or infinite, the walk ends; if every lookup within sixteen names succeeds it lists exactly their concrete addresses, once each, or says there are none; if some lookup within sixteen names fails, so does the walk, with the error of such a lookup |
| `DnsNames.LooksUpDomain` | crates/net/src/dnsaddr.rs:68-111 | A dnsaddr looks up its domain, up to the next slash, under `_dnsaddr.`, whatever path follows |
| `DnsNames.NoDomainNoLookup` | crates/net/src/dnsaddr.rs:73-110 | Without a domain nothing is looked up and nothing is listed |
| `DnsNames.EveryDnsAddrSplits` | crates/net/src/dnsaddr.rs:73-83 | Every dnsaddr is one of the two |
| `DnsNames.RecordsList` | crates/net/src/dnsaddr.rs:112-121 | A record counts for what follows `dnsaddr=`, a name if that is a dnsaddr and else an address; every other record is ignored |
| `DnsNames.LinksAreRecords` | crates/net/src/dnsaddr.rs:112-121 | One name links to another exactly if its records say so |
| `DnsNames.ListedIsRecorded` | crates/net/src/dnsaddr.rs:112-121 | The addresses listed are exactly those recorded under the names |
| `DnsAddr.WalkFrom` | crates/net/src/dnsaddr.rs:94-121 | The breadth-first loop, for any cap |
| `DnsAddr.ResolveMultiaddr` | crates/net/src/dnsaddr.rs:132-142 | A concrete address passes through; a dnsaddr one resolves as above, failures included |
| `Levels.WithinIsChains` | crates/net/src/dnsaddr.rs:94-121 | Within d steps lies exactly what a chain of at most d + 1 names ends in |
| `Levels.DrainedIsReachable` | crates/net/src/dnsaddr.rs:94-121 | A drained queue has visited exactly what the cap allows: first visits are at minimal depth |
| `Levels.WalkExpands` | crates/net/src/dnsaddr.rs:94-121 | One visit keeps the breadth-first invariant |
| `Levels.FewerLeft` | crates/net/src/dnsaddr.rs:94-121 | Each new visit leaves fewer names reachable and unvisited, which bounds the walk on any zone |
| `Overlay.ProximityOf` | crates/overlay/src/lib.rs:33-45 | The byte scan with early return computes the index of the first differing bit within the common length, at most 255 |
| `Overlay.TopBitShifts` | crates/overlay/src/lib.rs:33-45 | Bits are numbered from the most significant |
| `Overlay.AtLeastIsAgreeing` | crates/overlay/src/lib.rs:33-45 | Proximity of at least d is agreement on the first d bits |
| `Overlay.ProximitySymmetric` | crates/overlay/src/lib.rs:33-45 | Proximity is symmetric |
| `Overlay.ProximityUltrametric` | crates/overlay/src/lib.rs:33-45 | Proximity is ultrametric |
| `Overlay.NeighboursShareReserve` | crates/overlay/src/lib.rs:87-106 | Two nodes of one radius keep the same reserve if and only if the peer is a neighbour |

## Left out

- Machine.PullState.EnabledWants: answers a set; the source lists the same pairs in ascending order, and its only callers choose by an order of their own. The explorer's move lists are sets for the same reason.
- NodeBalance.RoundBalances: asks for one choice set and for no window withholding a want; with several choice sets the source promises no bound.
- NodePacing.OffersArePaced: asks that each answer belong to the standing offer; a peer that answers unasked can make a node ask more often.
- SimTheorem.QuiescenceMeansReplication: asks that a chunk brought in be one the node has not heard of, as an arriving chunk nobody holds is (`SimTheorem.NewChunksMayArrive`); that the network does become quiet needs fairness and is not claimed.
- FetchTheorem.FetchEndToEnd: the server receives each of the client's two frames whole; only the server's streams are fragmented. The serving reserve answers at most a page whose offer fits a frame, and the codec inverts its projections on the triples of that page, as the source asks of an implementation.
- Widths: triples, peers, bins and BinIDs are unbounded integers under their order, so `next` cannot overflow and a peer is not one byte; bytes, varints (64-bit overflow included) and frame caps are exact.
- Protobuf.PayloadEnd: crates/protobuf/src/lib.rs:96 adds a field's length to its offset in a machine word, which overflows for a length near 2^64; the model adds without bound, so such a field is malformed here.
- Field numbers are those that fit the 32-bit shift of a tag.
- Panics and debug assertions: a panic of the adapter is an outcome of its own, debug assertions are proved invariants, the simulation's step limit is not modelled.
- The simulation's generator is replaced by arbitrary choices, and its assignment of chunks to bins by an arbitrary function into the same bins. A bin of a reserve is a sequence, since its BinIDs are 1 to head. `start_ring` is not modelled as a loop; its sightings are moves that the theorems cover.
- `Sim` keeps its nodes as values that `SimNet` updates, and calls the `Node` object to compute each update; aliasing between node objects is not captured.
- Of the explorer's ablated rows, the stuck claim without failover and the stranded chunk without reset: `Ablations` covers the others, and `Verdicts.ExploreAll` what is reported of any.
- DnsAddr.ResolveWith: says which addresses are listed, once each, not in which order; of several failing lookups it says one is reported, not which.
- `CursorsClient`, `CursorsServer`, the empty Syn and the closing frame of an offer: one message each way over the framing and the Ack already covered.
- Confluence of the whole node state over the order of events: assignments and the historical or live mark depend on it.
- Address derivation, signatures, stamps and chunk addressing: identification and validation are abstract functions with their inverse laws.
- Handshake, peer gossip, session, neighbourhood estimate, pricing, transport, DNS queries, pinned bootnode tables, the browser build: plumbing over libraries this model does not see.
