# A verified model of the gateway's flow store, guards, profiles, replay cache and debug socket

The project models four parts of an LLM gateway written in Rust and proves what
they promise over all inputs, runs and interleavings.

- **The flow store** (`FlowRecords`, `FlowStates`, `FlowStores`, `FlowHistories`,
  `FlowFields`, `FlowOctets`, `FlowQueue`, `LinkJoin`, `LinkEvictions`,
  `DashboardStore`, with `ScalarCap` and `PhaseClock`). One lock guards
  a record map, an insertion-order queue, a response-id index, a running byte total
  and a mutation cursor. The state is a value with specification functions; the two
  classes of `DashboardStore` update it in place with the program's loops, and each
  method equals its function. Run theorems are about the functions.
- **The finalisation protocol** (`GuardWorld`, `GuardInvariant`, `GuardSteps`,
  `GuardSafety`, `GuardTheorems`, `GuardCalls`, `GuardMetrics`, `GuardTargets`,
  `GuardObjects`, `GuardRuns`). A state machine in
  which every locked call and every compare-and-exchange is one step. An engine guard's finalize
  is six steps, so any other thread, and any eviction, can come in between.
  `GuardObjects` holds the guards and the kill registry as classes, `GuardRuns` a run
  that reaches what the theorems speak of.
- **Profiles** (`JsonMerge`, `Profiles`, `Templates`, `Flattening`,
  `Flatness`, `ModelProfiles`). The deep merge, the two in-place profile merges, the
  walk with its explicit stack, and what all of it means as a flat override.
- **The replay cache** (`ReplayCache`) and **the debug socket** (`MonitorSocket`,
  `MonitorChannel`).

`Base` holds shared vocabulary. `dafny verify dfyconfig.toml` checks everything.

## What is assumed

- Flow ids and claim cells are fresh when a flow opens, and response ids are not
  also flow ids, in the protocol theorems; store and join theorems say exactly which
  freshness they need. The clock is a parameter of every call and may go backwards.
- `GuardWorld` lets only guards finalize and record attempts, and a guard is never
  finalized with the status `Open`. A guard that has won its exchange takes its
  remaining steps whenever it likes.
- The digest of the replay cache is any injective function.
- Sequence numbers, byte counts and cursors stay below the machine's maximum, so
  saturating additions are plain ones. Saturating subtractions are written out.

## Findings

- **Updates can reach the debug channel out of number order.** The number is taken
  under the hub's lock (`src/monitor.rs:396-416`) and the update is published after
  the lock is released (`src/monitor.rs:429`). `SwappedPublishReachesTheClient` is a
  run in which a client is sent 2 before 1. Nothing is lost: the session moves its
  `last_sequence` only at a completed snapshot, and `NoGap` and `NoDuplicate` do not
  need the order. `DeliveredInOrderExactly` and `TranscriptConsecutiveExactly` say
  exactly when the order, and the run without holes, hold.
- **A reused response id breaks the either-id join.** `link` promises that a repeat
  link can never alias (`src/dashboard_flow.rs:1237-1240`); that holds per flow.
  `JoinKeptExactlyWhenFresh` and `CallKeepsJoinExactly` give the exact condition,
  before and after the caps, and `ReusedResponseIdLosesItsAlias` the failure.
- **`merge_json_maps` is not associative**, and neither is the merge of the effort
  fields. `MergeAssociative`, `KwargsGroupExactly` and `EffortGroupsExactly` give the
  exact conditions for three, `MergeAllExactly` and `JoinFoldsExactly` for a list.
  `SecondParentBreaksFlatness` is a profile on which nesting shows,
  `FlatThroughoutExactly` says when it shows nowhere along a walk, and
  `MixinsAreFlat` names a family on which it never does.
- **`abort` returning true does not mean the flow ends `Cancelled`**
  (`AbortDoesNotDecide`, `KilledFlowCompletes`); it means a token that was registered gets cancelled.
  `CancelledExactly` says when the flow does end `Cancelled`.
- The template stack compares names as written while lookup falls back to
  ignoring ASCII case. A cycle through case variants is still caught, one round
  later: the walk stays in the finite set of names as written
  (`CaseVariantCycleIsReported`).

## Model

| member | source | states |
|---|---|---|
| ScalarCap.CapScalarMeaning | src/dashboard_flow.rs:2216-2228 | on well-formed UTF-8 the capped scalar is the longest well-formed prefix within the cap: at most 3 bytes are given up, both halves of the cut are well formed, capping again changes nothing |
| ScalarCap.CapScalarLoop | src/dashboard_flow.rs:2216-2228 | the backward byte loop computes that prefix |
| ScalarCap.ValidPrefixEndsAtBoundary | src/dashboard_flow.rs:2221-2225 | a well-formed prefix is never followed by a tail octet, so no cut the loop skips was possible |
| PhaseClock.PhaseHoldsGreatestReading | src/dashboard_flow.rs:839-899 | under an arbitrary clock a phase holds the greatest clock reading among the first writes up to its own, whatever is stamped later |
| PhaseClock.StampOrderIsMonotone | src/dashboard_flow.rs:839-863 | values never run backwards along the order of first writes, each at least its own reading |
| PhaseClock.MeasuredPhaseIsFinal | src/dashboard_flow.rs:839-843 | a measured phase never changes |
| PhaseClock.SetWhenWritten | src/dashboard_flow.rs:866-899 | a phase is measured if and only if some stamp named it |
| PhaseClock.ChainIsSorted | src/dashboard_flow.rs:839-863 | when the seams first fire in phase order the whole chain from ingress to finalize is sorted |
| FlowRecords.ShedFreesBodies | src/dashboard_flow.rs:941-960 | dropping the bodies frees exactly the body bytes and shows nothing in the summary |
| FlowRecords.UncappedEditsAreFree | src/dashboard_flow.rs:1412-1421 | the mutators that skip the caps charge no byte, which is why skipping is sound |
| FlowRecords.EditsKeepIdentity | src/dashboard_flow.rs:1271-1526 | no mutator changes a flow's cell, id, route or age; only finalize writes the verdict, only the trace call the trace |
| FlowStates.RemoveConsistent | src/dashboard_flow.rs:2145-2158 | one removal keeps queue, keys, links, watermarks and the exact byte total, and frees exactly the record's bytes |
| FlowStates.InsertConsistent | src/dashboard_flow.rs:2011-2028 | insertion, over an existing key too, keeps them |
| FlowStates.UpdateConsistent | src/dashboard_flow.rs:2047-2068 | an update keeps them, the queue and the key set |
| FlowStates.PruneMeaning | src/dashboard_flow.rs:2072-2087 | pruning removes exactly the records older than the window, queue order and other links kept |
| FlowStates.QuotaIsMetMinimally | src/dashboard_flow.rs:2108-2141 | the quota is met by the least oldest-first action: an order-prefix loses its bodies, an order-prefix goes whole only after every body went, one step less of either stays over quota |
| FlowStates.DropToCountStops | src/dashboard_flow.rs:2092-2100 | the record cap removes exactly the oldest surplus |
| FlowStates.CapsBound | src/dashboard_flow.rs:2092-2141 | after the caps both bounds hold whatever the state was; the second phase always ends under quota |
| FlowStates.CapsKeepExactly | src/dashboard_flow.rs:2092-2141 | the caps evict a record if and only if it is of the surplus over the record cap or it and all younger records do not fit the quota without their bodies; a caller can tell before the call |
| FlowStates.CapsShedExactly | src/dashboard_flow.rs:2108-2141 | a record the caps keep has lost its bodies if and only if stripping every older record would not have met the quota |
| FlowOctets.EveryOctetIsCharged | src/dashboard_flow.rs:908-937 | the charge of a record is the sum of the lengths of every string and body it holds, listed one by one |
| FlowOctets.SettingCosts | src/dashboard_flow.rs:908-937 | setting any one body or optional string adds exactly its length |
| FlowOctets.AddingCosts | src/dashboard_flow.rs:908-937 | one header or one attempt more adds exactly its own strings |
| FlowOctets.NothingCostsNothing | src/dashboard_flow.rs:908-937 | a record that holds nothing is charged nothing |
| FlowStores.ApplyStep | src/dashboard_flow.rs:1173-1526 | every public operation keeps the four structures in agreement; it stamps its own target above every earlier watermark and leaves every other survivor alone but for shed bodies |
| FlowStores.ApplyInBounds | src/dashboard_flow.rs:1412-1421 | live bytes and live records stay within their bounds after every operation, those that skip the caps included |
| FlowStores.EveryRunIsConsistent | src/dashboard_flow.rs:1065-1076 | both hold over every run, so no saturating subtraction ever saturates |
| FlowStores.WatermarkNamesVersion | src/dashboard_flow.rs:1011-1038 | the same watermark at two moments of a run means the same summary and cell, even if the quota took the bodies in between |
| FlowStores.SnapshotBaselineIsSound | src/dashboard_flow.rs:1697-1711 | after a snapshot with its cursor, every later live record is above the cursor or already in the snapshot word for word |
| FlowStores.WatermarkRisesOnlyOnOwnMutation | src/dashboard_flow.rs:2047-2068 | a record's watermark rises if and only if an operation mutates that record |
| FlowStores.SummariesNewestFirst | src/dashboard_flow.rs:1671-1711 | a snapshot lists every live record once, newest first |
| LinkJoin.SnapshotShowsDetail | src/dashboard_flow.rs:1011-1038 | entry i of a snapshot names the i-th youngest flow of the queue and agrees, field by field, with the record a detail request for that very id answers with |
| FlowOctets.LiveOctetsFitTheQuota | src/dashboard_flow.rs:2092-2141 | over every run the octets of all strings and bodies the live records hold together, counted one by one, are the running total and never exceed the quota |
| FlowQueue.QueueIsOpeningOrder | src/dashboard_flow.rs:2011-2028 | after any run the queue is the live flows in the order of their last opening |
| FlowHistories.RecordsOnlyGrow | src/dashboard_flow.rs:1241-1526 | over any run that does not open the id again a surviving record has only grown: link, measured phases and first upstream byte are final, nothing else recorded is cleared |
| FlowHistories.OnlyALeafChangesTheTarget | src/dashboard_flow.rs:1396-1404 | an upstream target a leaf reported survives finalize and everything else until a leaf reports another |
| FlowHistories.IngressComesFirst | src/dashboard_flow.rs:1173-1235 | every live record of every run has its ingress measured and no phase before it, whatever the clock did |
| FlowHistories.PhasesAreHistory | src/dashboard_flow.rs:839-899 | the timestamps of a live record are the stamps the run's calls sent to it since it was opened, applied in order |
| FlowHistories.StoredPhaseHoldsGreatestReading | src/dashboard_flow.rs:839-863 | each measured phase of a live record is the greatest clock reading among the first stamps sent to it up to that phase's own |
| FlowHistories.StoredChainIsSorted | src/dashboard_flow.rs:839-863 | if the calls stamp a flow in phase order the waterfall its live record shows is sorted, whatever the clock did |
| FlowFields.CallAdds | src/dashboard_flow.rs:1271-1526 | a call adds to the record what its arguments report and leaves every field they do not speak of |
| FlowFields.CallLeaves | src/dashboard_flow.rs:1173-1526 | after a whole call a live record is the version the call wrote, or the one before it, without its bodies if and only if the caps of that call take them |
| FlowFields.FieldsAreReported | src/dashboard_flow.rs:1173-1526 | every field of every live record of every run, from the calls that reached it since it was opened alone: what the opening said; the last usage, models, trace, verdict and times reported; the first upstream byte and link; the last target a leaf named, else the first provider a finalize named; each body the last reported since the quota last took the bodies |
| LinkJoin.FreshRunsStayJoined | src/dashboard_flow.rs:1241-1264 | so the join is exact over every run with fresh ids, evictions included |
| LinkJoin.JoinKeptExactlyWhenFresh | src/dashboard_flow.rs:1241-1264 | the effect of an operation, before its caps, keeps "record carries r" equivalent to "index sends r to it" if and only if the id it introduces is fresh |
| LinkEvictions.CallKeepsJoinExactly | src/dashboard_flow.rs:1173-1264 | a whole call, caps included, keeps that equivalence if and only if its id is fresh or its own caps are bound to evict every record the used id leaves at odds, a condition on the pruned state, the call and the quota |
| LinkEvictions.OpenedStaysExactly | src/dashboard_flow.rs:1231-1235 | an opened flow is still live after the call if and only if its record without the body fits the quota by itself |
| LinkEvictions.CapsEvict | src/dashboard_flow.rs:2092-2158 | the caps leave a link exactly if its owner stays and no record that carried it goes |
| LinkJoin.EitherIdReachesTheRecord | src/dashboard_flow.rs:1627-1667 | detail, and any mutator, acts on the same record through either id if and only if no flow was opened under the response id |
| LinkEvictions.LostAliasStaysLost | src/dashboard_flow.rs:1249-1262 | a linked flow that has lost its alias never gets it back unless it is opened anew |
| LinkEvictions.ReusedResponseIdLosesItsAlias | src/dashboard_flow.rs:2145-2158 | a run of public calls from the empty store after which a live flow carries a response id that leads nowhere, for good |
| LinkJoin.FirstLinkWins | src/dashboard_flow.rs:1249-1255 | linking a linked flow does nothing but prune |
| LinkJoin.NoDanglingAlias | src/dashboard_flow.rs:2035-2040 | no lookup answers with an id that is not live |
| DashboardStore.DashboardFlowState.Insert | src/dashboard_flow.rs:2011-2028 | the in-place insertion is the specified one |
| DashboardStore.DashboardFlowState.ResolveId | src/dashboard_flow.rs:2035-2040 | own id first, then the link index |
| DashboardStore.DashboardFlowState.Update | src/dashboard_flow.rs:2047-2068 | copy, edit, byte delta, new watermark, in place |
| DashboardStore.DashboardFlowState.Remove | src/dashboard_flow.rs:2145-2158 | removes the record, its queue entry and every link to it |
| DashboardStore.DashboardFlowState.PruneExpired | src/dashboard_flow.rs:2072-2087 | the collect-then-remove loop is the specified prune |
| DashboardStore.DashboardFlowState.EnforceCaps | src/dashboard_flow.rs:2092-2100 | the count loop, then the quota |
| DashboardStore.DashboardFlowState.EnforceSummaryQuota | src/dashboard_flow.rs:2108-2141 | both loops, early returns included, are the specified quota step |
| DashboardStore.DashboardFlowStore.Open | src/dashboard_flow.rs:1173-1235 | the locked call is exactly one step of the run theorems; a disabled store never changes |
| DashboardStore.DashboardFlowStore.Link | src/dashboard_flow.rs:1241-1264 | one step; prune, checks, index and record in that order |
| DashboardStore.DashboardFlowStore.SetUpstream | src/dashboard_flow.rs:1271-1298 | one step |
| DashboardStore.DashboardFlowStore.SetUpstreamResponse | src/dashboard_flow.rs:1313-1329 | one step when capture is on and a body is given, none otherwise |
| DashboardStore.DashboardFlowStore.SetNormalized | src/dashboard_flow.rs:1333-1360 | one step |
| DashboardStore.DashboardFlowStore.Finalize | src/dashboard_flow.rs:1373-1407 | one step |
| DashboardStore.DashboardFlowStore.RecordUsage | src/dashboard_flow.rs:1412-1421 | one step that leaves the caps alone |
| DashboardStore.DashboardFlowStore.RecordAttempts | src/dashboard_flow.rs:1433-1460 | one step, or nothing when there is nothing to record |
| DashboardStore.DashboardFlowStore.StampRoutingDecision | src/dashboard_flow.rs:1472-1482 | one step that leaves the caps alone |
| DashboardStore.DashboardFlowStore.StampFirstContentDelta | src/dashboard_flow.rs:1497-1507 | one step that leaves the caps alone |
| DashboardStore.DashboardFlowStore.StampStreamEnd | src/dashboard_flow.rs:1516-1526 | one step that leaves the caps alone |
| DashboardStore.DashboardFlowStore.DetailWithSeq | src/dashboard_flow.rs:1653-1667 | prunes, then answers with the record either id reaches and its own watermark |
| DashboardStore.DashboardFlowStore.SnapshotSummariesWithSeq | src/dashboard_flow.rs:1697-1711 | prunes, then the live summaries and the cursor of that very state |
| GuardSafety.StepKeepsSafe | src/dashboard_flow.rs:1540-1606 | every step of every guard, killer and other caller keeps the protocol invariant |
| GuardSafety.EveryReachableWorldIsSafe | src/dashboard_flow.rs:1540-1606 | so it holds under every interleaving |
| GuardTheorems.FinalizedAtMostOnce | src/dashboard_flow.rs:1920-1930 | at most one exchange to Finalized ever wins on a cell, exactly one once the cell is Finalized |
| GuardTheorems.OneWinnerPerCell | src/dashboard_flow.rs:1579-1587 | the middleware and the engine outcome exclude each other and each has one winner |
| GuardTheorems.DropAlwaysFinalizes | src/dashboard_flow.rs:1994-2004 | dropping an unfinalized engine guard always wins, as Cancelled with reason dropped |
| GuardTheorems.TerminalIsFinal | src/dashboard_flow.rs:1920-1991 | a terminal status and reason are never overwritten by anything that follows |
| GuardTheorems.HubIsTheInFlightGuards | src/dashboard_flow.rs:148-182 | a registry entry exists for an id if and only if a guard of that flow has registered and not yet removed; that guard is unique and the entry is its token |
| GuardTheorems.NoOrphanStaysOpen | src/dashboard_flow.rs:1797-1820 | once the guards of one flow are gone and done its live record is not Open, whatever other flows do |
| GuardTheorems.NoOrphanIsListedOpen | src/dashboard_flow.rs:1697-1711 | nor does any snapshot taken from then on list it as Open |
| GuardCalls.StoreIsItsCalls | src/dashboard_flow.rs:1540-2004 | the store of every reachable state is what the calls its steps make on it, one after another, make of the empty store |
| GuardCalls.LiveRecordsAreReported | src/dashboard_flow.rs:1540-2004 | so under every interleaving of guards and other callers the fields of a live record are what those calls report |
| GuardTheorems.FoundExactly | src/dashboard_flow.rs:173-180 | the tokens aborts hold over a run are exactly those some abort found registered under its id |
| GuardTheorems.CancelledOnlyWhenRegistered | src/dashboard_flow.rs:173-182 | a cancelled token was found registered by some abort of the run, though its guard may remove it between lookup and cancel; a guard did register it |
| GuardTheorems.FirstCallDecides | src/dashboard_flow.rs:1920-2004 | from registration on, killed or not, the first finalize or drop of the guard wins over any run, and its status and reason are what the record shows once stamped |
| GuardTheorems.CancelledExactly | src/dashboard_flow.rs:165-182 | the flow ends Cancelled if and only if that first call is the drop or says Cancelled |
| GuardTheorems.AbortDoesNotDecide | src/dashboard_flow.rs:165-182 | every killed registered flow can still be finalized Completed |
| GuardRuns.KilledFlowCompletes | src/dashboard_flow.rs:165-182 | a run from the empty gateway at whose end a killed flow's token is cancelled and its live record shows Completed |
| GuardTheorems.MetricsIgnoreRetention | src/dashboard_flow.rs:1931-1954 | two winning finalizes with the same claim-time route and the same serving readings record equal metrics whatever either store evicted |
| GuardTheorems.RecordAgreesWithMetrics | src/dashboard_flow.rs:1955-1963 | a record still live carries the payload's own attempt trace and the winner's status |
| GuardMetrics.MetricsAreMeasured | src/dashboard_flow.rs:1931-1959 | in every reachable state a measured payload names the route its flow was opened with, the provider the serving state named and otherwise the configured route, and the model, usage and trace that state held |
| GuardTargets.RecordShowsUpstream | src/dashboard_flow.rs:1396-1404 | a live record to which no leaf reported an upstream shows none until its guard stamps the verdict, and from then on the capped upstream of the payload |
| GuardObjects.UninterruptedFinalize | src/dashboard_flow.rs:1920-1991 | the guard object's finalize is the protocol's six steps run without interruption |
| GuardObjects.UninterruptedMint | src/dashboard_flow.rs:1562-1607 | minting an engine guard is the protocol's read, claim and register run without interruption |
| GuardObjects.LosingMint | src/dashboard_flow.rs:1579-1587 | a mint that loses the exchange stops there and changes nothing shared |
| GuardObjects.UninterruptedOrphanDrop | src/dashboard_flow.rs:1797-1820 | dropping a middleware guard is the protocol's exchange and, if that wins, its stamp |
| GuardObjects.ClaimCells.CompareExchange | src/dashboard_flow.rs:1580-1587 | moves the cell if and only if it held the expected claim |
| GuardObjects.AbortHub.Register | src/dashboard_flow.rs:148-153 | adds the token, nothing on a disabled hub |
| GuardObjects.AbortHub.Remove | src/dashboard_flow.rs:158-163 | removes the entry, nothing on a disabled hub |
| GuardObjects.AbortHub.Abort | src/dashboard_flow.rs:173-182 | cancels and reports found if and only if the id is registered |
| GuardObjects.AbortHub.LiveLen | src/dashboard_flow.rs:188-193 | the number of registered tokens, none on a disabled hub |
| GuardObjects.OpenFlow | src/dashboard_flow.rs:1173-1235 | a fresh open cell and the record that shares it, nothing on a disabled store |
| GuardObjects.MiddlewareGuard.Drop | src/dashboard_flow.rs:1797-1820 | finalizes as unhandled if and only if the cell is still open |
| GuardObjects.TelemetryGuard.Finalize | src/dashboard_flow.rs:1920-1991 | cell, metrics, store, trace, response body and registry change together if the exchange wins, nothing changes otherwise |
| GuardObjects.TelemetryGuard.Drop | src/dashboard_flow.rs:1994-2004 | a finalize as dropped, or nothing after a finalize |
| GuardObjects.MintMiddlewareGuard | src/dashboard_flow.rs:1540-1550 | a guard if and only if the store is enabled and the record live |
| GuardObjects.MintEngineGuard | src/dashboard_flow.rs:1562-1607 | a guard if and only if it also wins the claim; then the token is registered |
| JsonMerge.MergeJsonMaps | src/config.rs:2512-2526 | the in-place loop computes the same merge for every key order |
| JsonMerge.MergeAt | src/config.rs:2512-2526 | what a merge shows at any path, in terms of the two walks |
| JsonMerge.SourceLeavesWin | src/config.rs:2521-2523 | every non-object leaf of the source sits at its path in the result |
| JsonMerge.DestinationLeafSurvives | src/config.rs:2512-2526 | a destination leaf survives if and only if the source's walk falls off at a missing key or holds that same leaf |
| JsonMerge.MergeWithSelf | src/config.rs:2512-2526 | merging a value into itself changes nothing |
| JsonMerge.MergeAgain | src/config.rs:2512-2526 | merging the same source twice is merging it once |
| JsonMerge.MergeAssociative | src/config.rs:2512-2526 | merging is associative exactly on the triples where no non-object stands between two objects the outer of which covers less |
| JsonMerge.MergeAllExactly | src/config.rs:2512-2526 | merging a list one by one is merging it as a whole exactly when, at every path, a non-object in the list is followed by enough to cover what came before |
| Profiles.Building.Merge | src/config.rs:2085-2126 | merging a resolved template in place is the specified merge |
| Profiles.Building.MergeWritten | src/config.rs:2128-2175 | merging a written profile is merging what it says on its own |
| Profiles.SimpleFieldsGroup | src/config.rs:2085-2126 | model, prefixes, roles, family, vision, capabilities and typed effort do not care how merges are grouped |
| Profiles.KwargsGroupExactly | src/config.rs:2115-2118 | the kwargs group exactly when no object is clobbered |
| Profiles.EffortGroupsExactly | src/config.rs:2106-2125 | the effort map and default group exactly when what a typed middle would wipe is overridden anyway |
| Templates.ResolvePersisted | src/config.rs:2051-2083 | the walk with its explicit stack terminates and computes the specified resolution; on success the stack is restored |
| Templates.LookupMeaning | src/config.rs:2067-2075 | a lookup answers if and only if some key is the name up to ASCII case; with the entry under the name itself where there is one, else the first in map order |
| Templates.NamesMeaning | src/config.rs:2057-2061 | the names followed are exactly the trimmed parents that are not blank |
| Templates.ResolvesExactlyWhenAcyclic | src/config.rs:2057-2078 | resolution succeeds if and only if every walk along names as written ends at a declared template without repeating a name |
| Templates.ErrorsAreReal | src/config.rs:2062-2075 | a reported unknown name is at the end of a walk and undeclared; a reported cycle is a walk that comes back |
| Templates.CaseVariantCycleIsReported | src/config.rs:2062-2075 | a template that extends itself in other case is reported as a cycle, one round later |
| Flattening.FlatIsReachable | src/config.rs:2057-2080 | the flat list holds the profile and exactly the templates reachable from it |
| Flattening.ResolvedIsFlatOverride | src/config.rs:2057-2082 | model, family, vision, roles, capabilities and the effort decision are the last set along the list, the prefixes its in-order concatenation |
| Base.LastSetMeaning | src/config.rs:2085-2103 | the last set value is that of an entry after which no entry sets one |
| Flattening.ConflictExactly | src/config.rs:2038-2045 | the effort conflict arises exactly when the last listed entry that speaks about effort uses both syntaxes |
| Flattening.OneSyntaxEachNeverConflicts | src/config.rs:2038-2045 | entries that each keep to one syntax never conflict |
| Flatness.JoinFoldsExactly | src/config.rs:2079-2080 | merging a parent with all it inherits as one layer is merging its entries one by one, in every field, exactly when the entries keep the kwargs and effort settings built before |
| Flatness.FlatThroughoutExactly | src/config.rs:2056-2082 | every profile under construction along the walk, at every depth, is the fold of the entries merged so far if and only if each join keeps what came before it |
| Flatness.ResolvedIsFold | src/config.rs:2051-2083 | when each join keeps, the whole resolved profile is the fold of its flat list |
| Flatness.MixinsAreFlat | src/config.rs:2051-2083 | so it is, for every profile, where only first parents extend anything: chains, plain mixins, and both together |
| Flatness.SecondParentBreaksFlatness | src/config.rs:2079-2080 | a concrete profile with two parents whose kwargs and effort map differ from the fold |
| ModelProfiles.ResolveModelProfiles | src/config.rs:2020-2049 | succeeds if and only if every named profile is acceptable; serves the last profile of each trimmed name; otherwise reports the first unacceptable one |
| ModelProfiles.AcceptedExactly | src/config.rs:2028-2045 | a profile is acceptable if and only if its walks are fine, the last roles set validate and the last effort entry uses one syntax |
| ModelProfiles.ServedPrompt | src/config.rs:2177-2188 | the served prompt is everything reached, in order, blank line between; joining drops nothing |
| ModelProfiles.JoinedMeaning | src/config.rs:2177-2188 | every part stands in the joined text, in order, a blank line to each neighbour |
| ModelProfiles.ServedFields | src/config.rs:1889-1902 | the served model, vision, roles and capabilities are the last set along the flat list, kwargs and effort settings those resolved, the family the last named one where it is one of the two known up to case |
| ModelProfiles.TrimMeaning | src/config.rs:2248-2253 | trimming cuts a middle part out, white space on both sides of it and none at its ends |
| ModelProfiles.WhiteSpaceIs | src/config.rs:2248-2253 | white space is the twenty-five characters of the Unicode property, listed |
| ModelProfiles.TrimAgain | src/config.rs:2248-2253 | trimming is idempotent |
| ReplayCache.ReplayStore.Insert | src/replay.rs:41-58 | map and queue together do what the simple list does: rewrite in place, or evict the oldest if full and append |
| ReplayCache.ReplayStore.LongestPrefixMatch | src/replay.rs:60-74 | the downward loop returns the one match longer than every other match, or none when nothing matches |
| ReplayCache.ReplayStore.Len | src/replay.rs:80-82 | the number of retained records |
| ReplayCache.CacheIsWindow | src/replay.rs:41-58 | over any run the cache is the sliding window of the newest admissions, free of duplicates, in admission order, each with the last record inserted for it |
| ReplayCache.SearchAfterRun | src/replay.rs:60-74 | a search after any run answers with the last record inserted for the longest identity still in the window that is a prefix of the input |
| ReplayCache.PositionOfKey | src/replay.rs:41-51 | the digest finds the record the list search finds |
| ReplayCache.HitIsLongest | src/replay.rs:69-74 | the first hit of the downward loop is the longest match |
| MonitorSocket.Wire.SendOrExpire | src/debug_ui.rs:246-252 | a frame goes out exactly if the poll finds the expiry not ready and the peer there; ready together, the expiry wins |
| MonitorSocket.ReplaySnapshot | src/debug_ui.rs:240-257 | sends frames up to the first send that does not pass, and says whether the expiry or the peer stopped it |
| MonitorSocket.DebugSocket | src/debug_ui.rs:122-205 | the session loop serves the socket: every wake-up in turn, of every batch exactly the frames the line lets out, until the session ends; Close is sent if and only if it ended by expiry |
| MonitorSocket.ServedOneWay | src/debug_ui.rs:122-205 | the line, the waits and what is received leave one way to serve a socket |
| MonitorSocket.StopsForAReason | src/debug_ui.rs:150-203 | a socket stops before its subscription only by expiry, a closed channel or a send that found the peer gone |
| MonitorSocket.PatientPeerIsSentEverything | src/debug_ui.rs:122-205 | a peer that stays, with the deadline out of reach and the channel open, is sent every batch whole and no Close |
| MonitorSocket.PlayKeepsTranscript | src/debug_ui.rs:146-205 | since its last completed snapshot the client was sent that snapshot and then the delivered updates, cut short only by the end of the session |
| MonitorChannel.EveryReachableWorldIsSound | src/monitor.rs:387-430 | in every interleaving of emitters and session, what was delivered since the snapshot is exactly what the receiver went past less what the snapshot covers |
| MonitorChannel.SessionIsPlayed | src/debug_ui.rs:122-205 | every session of every reachable world is the loop's session steps on the subscription the run delivers, none after its end, each with no more frames than its batch has |
| MonitorChannel.SessionIsServed | src/debug_ui.rs:122-205 | some line and waits serve exactly that session, so exactly its frames are what the loop puts on the wire there |
| MonitorChannel.RefusalIsServed | src/debug_ui.rs:137-148 | so is a session that did not get past its first snapshot |
| MonitorChannel.NoGap | src/debug_ui.rs:159-196 | every number above the snapshot is delivered, unread or unpublished, exactly one of the three, across any number of lags |
| MonitorChannel.NoDuplicate | src/debug_ui.rs:159-160 | no number is delivered twice, none the snapshot covers |
| MonitorChannel.CaughtUp | src/debug_ui.rs:155-196 | a client that has read everything holds every update above its snapshot |
| MonitorChannel.DeliveredInOrderExactly | src/debug_ui.rs:159-172 | updates reach the client in number order if and only if those its receiver went past, snapshot-covered ones aside, were published in number order |
| MonitorChannel.TranscriptConsecutiveExactly | src/debug_ui.rs:159-172 | the transcript runs on from the snapshot without a hole if and only if no fresh update was passed before a lower-numbered fresh one |
| MonitorChannel.OrderedTranscript | src/debug_ui.rs:155-196 | so when emitters publish in number order the transcript is the snapshot and the consecutive updates after it |
| MonitorChannel.SwappedPublishReachesTheClient | src/monitor.rs:396-429 | for any snapshot and any two updates, a reachable session that is sent the snapshot, then update 2, then update 1 |

## Left out

- Redaction, body capture and hashing of client labels: a captured body is its bytes
  and arrives as a parameter; the serializer is not part of this model.
- `ServingToken`, `MetricsLayer`, the engine and upstream routing: what a winning
  finalize reads off the shared token is an arbitrary parameter of that step.
- `list`, `detail`, `snapshot_summaries` and `with_summaries_under_lock`: under the
  lock they do what `DetailWithSeq` and `SnapshotSummariesWithSeq` do, and add nothing.
- Memory orderings of the atomics: a compare-and-exchange is one atomic step.
- `Instant`: the elapsed time stored at finalize is a parameter.
- A panic between two steps of a winning finalize: such a guard simply takes no
  further step, and `NoOrphanStaysOpen` speaks of guards that are done.
- The allocated capacity of a capped scalar, and copy-on-write sharing of records
  between readers: records are values; the claim cell they share is an object.
- Roles, capabilities and typed reasoning configurations are opaque values; whether
  roles validate is part of the value.
- The hash map's and channel's memory behaviour; a lag moves the receiver forward by
  any amount rather than by what the channel's capacity implies, which is more runs.
- The content of a monitor snapshot: its frames are arbitrary, only its number is
  tied to the hub. `apply_event` and retention in the monitor are not modelled.
- A send that is cancelled by the expiry counts as not sent; bytes already buffered
  by the socket are not modelled.
- `ClientAttribution`, the dashboard API, authentication, globbing, environment
  overrides, file loading, log rotation and the command line: wiring, policy or
  finite case analysis with no property across operations.
- Flatness.ResolvedIsFold: is one way, because a later entry can overwrite what an
  earlier join got differently; the exact statement is about every point of the walk
  (`FlatThroughoutExactly`), and about each single join (`JoinFoldsExactly`).
