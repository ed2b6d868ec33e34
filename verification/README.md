# Verified model of the v2 diagnosis pipeline

The deterministic core of the diagnosis pipeline, in Dafny: netlink topology, socket identities, the event bus,
route attribution, incidents, root-cause hypotheses, the metric cache and the netlink attribute codec. Each component
is given as a specification on values, with its invariants and run-level theorems, and as the source writes it:
classes whose methods update their fields in place and loops with invariants, proved against the specification.

| files | component |
|---|---|
| `Entities`, `IdOrder`, `KeyOrder`, `BoundedList` | shared identities, orders of keys, maps and lists with a bound |
| `SocketTable`, `SocketTableProofs`, `SocketTableRuns`, `SocketLifecycleTable` | the transactional socket identity table |
| `BusModel`, `BusProofs`, `BusRuns`, `BusDrops`, `EventBus` | the event bus as a transition system over atomic steps |
| `IncidentModel`, `IncidentProofs`, `IncidentHistory`, `IncidentEngine` | the incident engine |
| `RootCauseModel`, `RootCauseRules`, `RootCauseConfidence`, `RootCauseBuilder` | candidates from cached facts |
| `Reconciliation`, `ReconciliationProofs`, `ReconciliationRuns` | live hypotheses against desired candidates |
| `WifiHysteresis`, `RootCauseEvents`, `RootCauseHistory`, `RootCauseEngine` | events, caches and histories of the root-cause engine |
| `MetricModel`, `MetricProofs`, `MetricStore` | the metric cache |
| `TopologyModel`, `TopologyProofs`, `Collector`, `UplinkPolicy`, `NetlinkCollector` | topology, batches, dumps, uplink |
| `Attribution`, `AttributionProofs`, `SocketRouteAttributor` | route attribution |
| `AttributeCodec` | netlink attributes (section 2.2 of RFC 3549) |
| `Pipeline` | what the components guarantee each other |

`dafny verify dfyconfig.toml` checks the whole project.

## Conventions

- Times are integers, counters natural numbers and ratios reals. What a clock or a kernel would supply is a parameter.
- Each block the source runs under a mutex is one atomic step. Candidate building takes one clock reading.
- Condition, provenance and reason texts are constructors of a datatype. Printed route identities are the tuple they
  print, compared by an arbitrary strict total order; results that use this order hold for every such order.
- Metric keys are compared by an arbitrary total order; results that use it hold for every such order.
- A sample that a full incident table turns away leaves no trace, so it is no part of the history of its key.
- Sets of reason bits are sets. Traversals of ordered maps are in key order where the outcome depends on it; theorems
  about reconciliation hold for every order.

## Where the code does not do what one might expect

- A path with both TCP incidents, a reachable gateway and a slow remote is not always rated high: with the default
  evidence bound of eight, nine supporting items push one of the incidents out of the list before it is looked for
  (`RootCauseConfidence.CrowdedOut`). `RootCauseConfidence.PathIsHighIff` gives the exact condition.
- Candidate building fails on an incident whose scope is of the wrong kind. The incident engine never emits one
  (`Pipeline.PipelineIsSound`).
- An identity superseded in a snapshot that is then aborted stays active (`SocketTableRuns.SupersededThenAborted`).
  `SocketTableRuns.SupersededFate` gives the exact condition.
- Above the cap a repeated reconciliation may still admit candidates the first one had no room for
  (`ReconciliationRuns.SecondSpeaks`). `ReconciliationProofs.SecondIsSilentIff` gives the exact condition.
- A batch without a reported change is dropped even if it carried a new link type (`Collector.NewTypeIsDropped`).
  `Collector.BatchEqualsFoldIff` gives the exact condition.
- The stored uplink selection ignores the degraded mark (`Netlink.SelectionOutlivesMark`).
  `UplinkPolicy.DegradedMattersIff` gives the exact condition.
- The degraded mark does not last until the next dump: any change committed after it clears it
  (`Collector.MarkIsForgotten`). `Collector.DegradedIff` says when it is up.
- A socket on a local route is reported as conflicting although its route names the interface the kernel named, because
  only forwarding routes are considered (`AttributionProofs.LocalRouteConflicts`). `AttributionProofs.ConflictIff` and
  `AttributionProofs.ConflictMeansUnusedIff` give the exact conditions.
- The incident engine does not look at whether the bus took its events: an incident whose resolution a full queue
  refuses lingers in the root-cause engine (`Pipeline.RefusedResolutionLingers`). `Pipeline.DeliveredAreEmittedIff` and
  `Pipeline.ConsumerAgreesIff` give the exact conditions.
- The metric store can report a sample as accepted and have evicted it (`MetricProofs.AcceptedAndGone`).
  `MetricProofs.AcceptedIsHeldIff` gives the exact condition.

## Model

| member | source | states |
|---|---|---|
| SocketTableProofs.FindOk | server/src/socket_tracker.cpp:662-731 | whatever identity a lookup settles on carries the record's namespace, cookie and tuple, and after a miss nothing left in the candidate could have answered for the record |
| SocketTableProofs.ObserveKeepsValid | server/src/socket_tracker.cpp:654-745 | observing keeps both indexes of the active and of the pending side exact inverses of their maps, with no cookie key or cookie-less tuple shared |
| SocketTableProofs.ObserveKeepsBounded | server/src/socket_tracker.cpp:733-741 | counting active plus pending only when an identity is created is enough to keep the eventual active map within the cap |
| SocketTableProofs.MergedIsPending | server/src/socket_tracker.cpp:754-767 | closing, erasing and overlaying leaves exactly the pending map |
| SocketTableProofs.CommitExact | server/src/socket_tracker.cpp:747-777 | an authoritative commit makes the active side equal to the pending side and closes exactly the identities that are gone; any other commit only discards the candidate |
| SocketTableProofs.ReindexedInverse | server/src/socket_tracker.cpp:769-774 | rebuilding the indexes from a map without shared keys yields exact inverses |
| SocketTableProofs.CommitKeepsBounded | server/src/socket_tracker.cpp:747-777 | the committed map respects the cap and the closed list its own |
| SocketTableRuns.StepKeepsSound | server/src/socket_tracker.cpp:601-804 | every operation, legal or refused, keeps the table invariant |
| SocketTableRuns.RunKeepsSound | server/src/socket_tracker.cpp:601-804 | so does every run from the empty table |
| SocketTableRuns.RunFollows | server/src/socket_tracker.cpp:38-48 | over every run generations never fall, surviving identities keep their tuple, and every other identity has a generation issued later |
| SocketTableRuns.RetiredForGood | server/src/socket_tracker.cpp:640-644 | an identity that is neither active nor pending never comes back |
| SocketTableRuns.ClosedForGood | server/src/socket_tracker.cpp:754-764 | what a commit closes is never active again in any continuation |
| SocketTableRuns.CloseIsForGood | server/src/socket_tracker.cpp:791-804 | a socket closed one at a time is never active again in any continuation |
| SocketTableRuns.SupersededForGood | server/src/socket_tracker.cpp:640-644 | an identity superseded anywhere in an authoritative snapshot is never active again once it is committed, whatever is observed in between and whatever follows |
| SocketTableRuns.SupersededFate | server/src/socket_tracker.cpp:640-644 | a superseded identity remains active after the snapshot exactly when the snapshot is not committed as authoritative |
| SocketTableRuns.SupersededThenAborted | server/src/socket_tracker.cpp:779-789 | a reachable run in which an active identity is superseded and, the snapshot being aborted, stays active |
| SocketTableRuns.CookieReuseSupersedes | server/src/socket_tracker.cpp:670-684 | a known cookie seen with another tuple supersedes the active identity that carried it |
| SocketTableRuns.AbandonedSnapshotChangesNothing | server/src/socket_tracker.cpp:747-752 | a failed, partial or aborted snapshot leaves active, closed and index state as they were and spends generation numbers only |
| SocketTableRuns.SnapshotLearnsAll | server/src/socket_tracker.cpp:654-745 | after observing pairwise distinguishable records the pending side knows exactly those records |
| SocketTableRuns.KnownSnapshotIsStable | server/src/socket_tracker.cpp:654-777 | a snapshot of exactly the known records keeps every identity, spends no generation and closes nothing |
| SocketTableRuns.ReplayedSnapshotIsStable | server/src/socket_tracker.cpp:654-777 | the same for the records of the last committed snapshot, in any order and with repetitions |
| SocketLifecycle.SocketLifecycleTable.BeginSnapshot | server/src/socket_tracker.cpp:601-611 | in-place form of the specification; refused while a snapshot is open |
| SocketLifecycle.SocketLifecycleTable.SupersedeIdentity | server/src/socket_tracker.cpp:627-644 | erases every trace of the identity from the candidate and remembers it only if it was active |
| SocketLifecycle.SocketLifecycleTable.ResolveOrSupersede | server/src/socket_tracker.cpp:664-684 | an index hit with the same tuple resolves, any other hit supersedes |
| SocketLifecycle.SocketLifecycleTable.FindByCookie | server/src/socket_tracker.cpp:662-697 | lookup by cookie, pending before active, then conservative reset of weak identities |
| SocketLifecycle.SocketLifecycleTable.ResetCookieless | server/src/socket_tracker.cpp:685-697 | the weak identity of the tuple is superseded, pending before active |
| SocketLifecycle.SocketLifecycleTable.FindByTuple | server/src/socket_tracker.cpp:698-731 | lookup by tuple, or reset of at most one pending and one active cookie-backed identity |
| SocketLifecycle.SocketLifecycleTable.StoreObservation | server/src/socket_tracker.cpp:733-744 | stores the observation, creating an identity only within the cap |
| SocketLifecycle.SocketLifecycleTable.ObserveSocket | server/src/socket_tracker.cpp:654-745 | new state and answer are those of the specification, and the invariant holds |
| SocketLifecycle.SocketLifecycleTable.CommitSnapshot | server/src/socket_tracker.cpp:747-777 | new state is that of the specification, and the invariant holds |
| SocketLifecycle.SocketLifecycleTable.TakeOver | server/src/socket_tracker.cpp:754-774 | the erase, overlay and rebuild loops together produce the reindexed merge and append the closed notes in key order |
| SocketLifecycle.SocketLifecycleTable.CloseAll | server/src/socket_tracker.cpp:759-764 | closes a list of identities one by one, keeping the latest closed notes |
| SocketLifecycle.SocketLifecycleTable.RememberClosed | server/src/socket_tracker.cpp:646-652 | appends a closed note and trims the list from its front |
| SocketLifecycle.SocketLifecycleTable.Overlay | server/src/socket_tracker.cpp:765-767 | overlays every pending identity that was not superseded |
| SocketLifecycle.SocketLifecycleTable.AbortSnapshot | server/src/socket_tracker.cpp:779-789 | drops the candidate and nothing else |
| SocketLifecycle.SocketLifecycleTable.CloseSocket | server/src/socket_tracker.cpp:791-804 | closes one socket outside snapshots and rebuilds the indexes |
| SocketLifecycle.SocketLifecycleTable.LookupCookie | server/src/socket_tracker.cpp:620-625 | an indexed lookup finds exactly what a scan of the active sockets would find |
| SocketLifecycle.SocketLifecycleTable.LookupTuple | server/src/socket_tracker.cpp:613-618 | the same for cookie-less sockets and their tuple |
| SocketLifecycle.CollectClosing | server/src/socket_tracker.cpp:754-758 | the ordered scan collects exactly the identities to close, in key order |
| SocketLifecycle.RebuildIndexes | server/src/socket_tracker.cpp:769-774 | the loop computes the reindexed side |
| SocketLifecycle.EraseValue | server/src/socket_tracker.cpp:630-637 | erase-while-iterating removes exactly the entries with that value |
| SocketLifecycle.FirstMatch | server/src/socket_tracker.cpp:709-728 | the scan stops at the first cookie-backed match in key order |
| BusModel.FirstCoalescing | server/src/event_bus.cpp:82-84 | the first queued event that may be replaced, and none before it |
| BusProofs.PublishKeepsCore | server/src/event_bus.cpp:68-106 | publishing keeps the conservation law of the counters, the per-kind and per-source sums and the depth bounds |
| BusProofs.PublishKeepsLog | server/src/event_bus.cpp:78-105 | coalescing removes only a replaceable event and puts a newer one with the same key in its place |
| BusProofs.StepKeepsBusOk | server/src/event_bus.cpp:39-204 | every enabled atomic step of any thread keeps the bus invariant |
| BusProofs.StepKeepsHandles | server/src/event_bus.cpp:223-245 | every step keeps each id in one handle or one call at most, and every id held by a handle registered |
| BusRuns.ReachableOk | server/src/event_bus.cpp:39-204 | hence every reachable state satisfies it |
| BusRuns.TelemetryAddsUp | server/src/event_bus.cpp:98-103 | accepted = dispatched + in dispatch + queued + coalesced, sums agree with totals, depth and high-water mark are bounded, stopped implies empty |
| BusRuns.NothingEssentialIsLost | server/src/event_bus.cpp:154-197 | delivery is in strictly increasing sequence order; non-replaceable events are delivered or queued, all of them and in order; a replaced event is covered by a later one with its key |
| BusRuns.DeactivatedNeverStarts | server/src/event_bus.cpp:174-180 | after deactivation, in every continuation and interleaving, no call of that subscriber starts |
| BusRuns.ReleasedForGood | server/src/event_bus.cpp:119-134 | once unsubscribe of a handle that held an id has returned, on any thread but the one executing the callback, that callback is not running and cannot be started in any later state of any continuation |
| BusRuns.HandleFindsRegistration | server/src/event_bus.cpp:239-245 | in every reachable state a call made through a handle that still held its id finds the registration and removes it |
| BusRuns.ReturnsAre | server/src/event_bus.cpp:119-134 | a call of unsubscribe returns in three ways only: without an id, released, or from inside the very callback it ends |
| BusRuns.DeactivateWaitsUnlessExecuting | server/src/event_bus.cpp:129-134 | the caller waits unless it is the thread executing that very callback |
| BusRuns.DispatcherNeverWaits | server/src/event_bus.cpp:131-133 | a callback that unsubscribes is never blocked on itself |
| BusRuns.StopDrains | server/src/event_bus.cpp:48-66 | when stop returns the queue is empty, every accepted event is accounted for and nothing is accepted any more |
| BusRuns.StopClosesIntake | server/src/event_bus.cpp:68-76 | after the stop signal no continuation accepts an event |
| BusDrops.ReachableCounts | server/src/event_bus.cpp:68-106 | in every reachable state the drop counter of a kind is the number of published events of that kind that were not accepted |
| BusDrops.AllDeliveredIff | server/src/event_bus.cpp:79-96 | once the bus has drained, the events of a non-replaceable kind were all delivered in the order they were published exactly when the drop counter of that kind is zero |
| BusDrops.RefusedAreMissing | server/src/event_bus.cpp:79-96 | and otherwise exactly as many are missing as were counted |
| EventBus.EventQueue.Start | server/src/event_bus.cpp:39-46 | starts once, and never after a stop |
| EventBus.EventQueue.EraseCoalescing | server/src/event_bus.cpp:80-90 | erases the first replaceable event with the key, if any |
| EventBus.EventQueue.Publish | server/src/event_bus.cpp:68-106 | new state and result are those of the specification, and the queue invariant holds |
| EventBus.EventQueue.SignalStop | server/src/event_bus.cpp:48-61 | the guarded part of stop, for every thread and phase |
| EventBus.EventQueue.PopFront | server/src/event_bus.cpp:157-163 | is the dispatcher's Pop step on every waiting bus with this queue, and takes the queue invariant from waiting to holding the event |
| EventBus.SubscriberRecord.Enter | server/src/event_bus.cpp:175-180 | is the BeginCall or SkipCall step on every bus about to call this subscriber; the callback then runs exactly when the answer is yes |
| EventBus.SubscriberRecord.Leave | server/src/event_bus.cpp:187-192 | is the LeaveCall step on every bus whose call of this subscriber has returned; no callback runs afterwards |
| EventBus.SubscriberRecord.Deactivate | server/src/event_bus.cpp:129-134 | is the UnsubDeactivate step on every bus where the caller has found this subscriber; the answer says whether the caller then waits or is done |
| EventBus.Subscription.TakeId | server/src/event_bus.cpp:239-242 | is the UnsubTake step on every bus where the id is this handle's; no handle holds the id afterwards |
| IncidentProofs.JudgeOk | server/src/incident_engine.cpp:141-224 | every evaluation is quiet, opens with a new id, updates or closes, and leaves a well-formed record |
| IncidentProofs.PutTracked | server/src/incident_engine.cpp:93-108 | each of these keeps the emission log in step with the records |
| IncidentProofs.RetireTracked | server/src/incident_engine.cpp:110-123 | giving up a socket leaves none of its records behind, pending or active |
| IncidentProofs.SupersedeTracked | server/src/incident_engine.cpp:125-139 | superseding leaves at most one generation per namespace and cookie |
| IncidentProofs.ProcessTracked | server/src/incident_engine.cpp:226-422 | so does every event |
| IncidentProofs.FoldedEmissionsAreActiveIncidents | server/src/incident_engine.cpp:226-422 | for every event sequence, folding the emissions gives exactly the active incidents; a resolution is the last emission of its id; first emissions carry ever larger ids |
| IncidentProofs.RouteRecordsBelongToKnownSockets | server/src/incident_engine.cpp:330-388 | in every reachable state route records, pending or active, belong to authoritative sockets, of which there is one per namespace and cookie |
| IncidentProofs.EvidenceIsBounded | server/src/incident_engine.cpp:77-91 | evidence is never empty, within its bound, and starts with what opened the incident when the bound is at least two |
| IncidentHistory.IsOpenSnoc | server/src/incident_engine.cpp:141-224 | one more sample opens a history when the trailing run of bad verdicts is long enough, and closes it when the run of good ones is |
| IncidentHistory.JudgeKeepsStreak | server/src/incident_engine.cpp:148-207 | the counters are the trailing runs of the history; opening and resolving happen at exactly the sample that completes the run |
| IncidentHistory.ProcessEffect | server/src/incident_engine.cpp:226-422 | an event acts on any key at most once: it gives the key up, judges it with one verdict and one item of evidence, or leaves it alone |
| IncidentHistory.SupersedeEffect | server/src/incident_engine.cpp:125-139 | superseding erases the records of exactly the other generations and touches no other |
| IncidentHistory.CollectedIsFirstAndLatest | server/src/incident_engine.cpp:77-91 | appending items one at a time keeps the first and the latest of the distinct ones |
| IncidentHistory.StreaksRefineHistory | server/src/incident_engine.cpp:141-224 | after any event sequence a key is active exactly when the verdicts taken on it say so: opened by a long enough trailing run of bad ones and not yet ended by one of good ones; its counters are these runs |
| IncidentHistory.EvidenceIsFirstAndLatest | server/src/incident_engine.cpp:77-91 | after any event sequence the evidence of an active incident is the item that opened it and the latest of those bad samples offered since, within the bound and without immediate repetitions |
| Incidents.IncidentEngine.ResolveRecord | server/src/incident_engine.cpp:93-108 | resolves, remembers and erases one record |
| Incidents.IncidentEngine.EvaluateSample | server/src/incident_engine.cpp:141-224 | in-place form of one evaluation, including the refusal of new keys by a full table |
| Incidents.IncidentEngine.ResolveSocketRecords | server/src/incident_engine.cpp:110-123 | one pass over the whole record map in key order does what giving up each type in turn does |
| Incidents.IncidentEngine.ResolveSuperseded | server/src/incident_engine.cpp:125-139 | collects the other generations in order and retires each |
| Incidents.IncidentEngine.OnSocketSeen | server/src/incident_engine.cpp:233-247 | a socket observation retires, supersedes or admits exactly as specified, with the same emissions |
| Incidents.IncidentEngine.OnTcpInfoSeen | server/src/incident_engine.cpp:248-283 | a round-trip sample: state and emissions are those specified for the verdict of the threshold band |
| Incidents.IncidentEngine.OnTcpIntervalSeen | server/src/incident_engine.cpp:284-329 | a retransmission sample: the same, with no verdict on too few segments or after a counter reset |
| Incidents.IncidentEngine.OnRouteSeen | server/src/incident_engine.cpp:330-388 | one route observation is judged by the route and by the conflict rule, in this order, with the specified outcome |
| Incidents.IncidentEngine.OnUplinkSeen | server/src/incident_engine.cpp:389-414 | an uplink observation has the specified outcome |
| Incidents.IncidentEngine.ProcessEvent | server/src/incident_engine.cpp:226-422 | new state, emissions and answer are those of the specification, and the engine stays in step with its log |
| Incidents.IncidentEngine.ListActive | server/src/incident_engine.cpp:456-464 | lists exactly the incidents held by a consumer that folded all emissions, each once |
| Incidents.CollectSuperseded | server/src/incident_engine.cpp:129-133 | the ordered scan collects exactly the other generations |
| BoundedList.MakeRoomKeeps | server/src/root_cause_engine.cpp:146-159 | making room keeps the first item and the latest ones |
| RootCauseRules.AddOk | server/src/root_cause_engine.cpp:146-159 | adding evidence keeps a list bounded, free of repetitions and of one role |
| RootCauseRules.OpenedByIncidents | server/src/root_cause_engine.cpp:494-534 | a candidate is opened exactly by the incidents of its kind and scope |
| RootCauseRules.ProbeUnknownIsUnobserved | server/src/root_cause_engine.cpp:267-334 | a probe that says nothing is never presented as observed |
| RootCauseRules.CandidatesAreSound | server/src/root_cause_engine.cpp:220-993 | every candidate is about an active incident's scope; its lists are bounded, without repetitions and hold their own role only; missing evidence is never presented as observed |
| RootCauseRules.RemoteExcludesLocalAndInsufficient | server/src/root_cause_engine.cpp:917-991 | blaming the remote side excludes, for the same socket, blaming the local link and lack of evidence |
| RootCauseRules.LocalLinkIsNeverHigh | server/src/root_cause_engine.cpp:806-861 | the local-link hypothesis is at most medium |
| RootCauseConfidence.AddAllKeeps | server/src/root_cause_engine.cpp:146-159 | what a bounded list keeps of distinct evidence: the first item and the latest ones |
| RootCauseConfidence.BothSurvive | server/src/root_cause_engine.cpp:773-782 | both TCP incidents are still in the list exactly while nothing had to make room |
| RootCauseConfidence.PathIsHighIff | server/src/root_cause_engine.cpp:769-793 | a path is rated high exactly when both TCP incidents are active, the gateway is reachable, the remote is slow and the supporting evidence fits the bound |
| RootCauseConfidence.HighPathImpliesBoth | server/src/root_cause_engine.cpp:769-793 | whatever is cached, high implies both incidents, a reachable gateway and a slow remote |
| RootCauseConfidence.CrowdedOut | server/src/root_cause_engine.cpp:146-159 | with the default bound of eight there are facts with all four ingredients that are not rated high |
| RootCauseBuilder.OpenCandidates | server/src/root_cause_engine.cpp:494-534 | visiting the incidents in id order yields exactly the specified openings |
| RootCauseBuilder.UpgradePaths | server/src/root_cause_engine.cpp:536-550 | upgrades exactly the paths with both TCP incidents |
| RootCauseBuilder.AddContext | server/src/root_cause_engine.cpp:554-892 | the context pass, which also enters local-link candidates and queues those short of evidence, or fails on a scope of the wrong kind |
| RootCauseBuilder.Enter | server/src/root_cause_engine.cpp:893-896 | entering a queue adds exactly the derived candidates of its type |
| RootCauseBuilder.CheckUplinks | server/src/root_cause_engine.cpp:898-915 | adds the uplink context to exactly the uplink candidates, or fails on a scope of the wrong kind |
| RootCauseBuilder.CollectRemote | server/src/root_cause_engine.cpp:917-991 | queues exactly the remote candidates the facts call for |
| RootCauseBuilder.BuildCandidates | server/src/root_cause_engine.cpp:220-993 | the five passes together build exactly the candidate of every key; they fail exactly when an incident has a scope of the wrong kind |
| Reconciliation.ActiveKeysAreDesired | server/src/root_cause_engine.cpp:1022-1062 | for every visiting order: active keys are desired keys within the cap, survivors stay, and all desired keys are active exactly when old and desired keys together fit the cap |
| ReconciliationProofs.SurvivorsKeepIdentity | server/src/root_cause_engine.cpp:1035-1046 | survivors keep occurrence and opening time, newcomers get new occurrences, and content is the desired one |
| ReconciliationProofs.SecondIsSilentIff | server/src/root_cause_engine.cpp:1022-1062 | a second reconciliation with the same candidates emits and changes nothing exactly when old and desired keys fit the cap or nothing was resolved |
| ReconciliationRuns.SecondSpeaks | server/src/root_cause_engine.cpp:1022-1062 | with a cap of one, a run whose second reconciliation with the same candidates still admits one |
| ReconciliationRuns.FoldedEmissionsAreActiveHypotheses | server/src/root_cause_engine.cpp:1022-1062 | over every run, folding the emissions gives the active hypotheses, an end is final, occurrence numbers are never reused and the cap holds |
| RootCauses.RootCauseEngine.EnterOne | server/src/root_cause_engine.cpp:1025-1047 | one desired key: admitted, continued or turned away as specified |
| RootCauses.RootCauseEngine.LeaveOne | server/src/root_cause_engine.cpp:1053-1060 | one key that is no longer desired ends and is remembered |
| RootCauses.RootCauseEngine.EnterDesired | server/src/root_cause_engine.cpp:1025-1047 | the first pass equals the specification for the order in which it happened to visit the keys, each once |
| RootCauses.RootCauseEngine.LeaveUndesired | server/src/root_cause_engine.cpp:1048-1061 | erasing while iterating equals the specification for some order of exactly the undesired keys |
| RootCauses.RootCauseEngine.ReconcileNow | server/src/root_cause_engine.cpp:1022-1062 | builds and reconciles, or leaves the hypotheses alone when building fails |
| RootCauses.RootCauseEngine.TakeIncident | server/src/root_cause_engine.cpp:1075-1081 | the mirror of incidents after an event, with the smallest ids dropped to the bound; no other cache changes |
| RootCauses.RootCauseEngine.TakeRoute | server/src/root_cause_engine.cpp:1086-1092 | the route cache after an event, trimmed in key order; no other cache changes |
| RootCauses.RootCauseEngine.TakeUplink | server/src/root_cause_engine.cpp:1097-1101 | the uplink cache after an event, trimmed in key order; no other cache changes |
| RootCauses.RootCauseEngine.TakeProbe | server/src/root_cause_engine.cpp:1105-1114 | a probe older than the one held for its target is passed over; otherwise it replaces it, and only the probe cache changes |
| RootCauses.RootCauseEngine.TakeWifi | server/src/root_cause_engine.cpp:1118-1169 | a late observation is passed over, one without an interface clears its namespace, any other is stored with its category; only the Wi-Fi cache changes |
| RootCauses.RootCauseEngine.ProcessEvent | server/src/root_cause_engine.cpp:1064-1180 | one event for caches, hypotheses, emissions and answer together: the caches absorb it, and the hypotheses are the reconciliation of the old ones with the candidates of the new caches, or unchanged when it came late or building failed |
| KeyOrder.TrimmedIff | server/src/root_cause_engine.cpp:1080-1081 | erasing the first entry while there are too many leaves exactly the last entries up to the bound, unchanged; there is only one such map |
| KeyOrder.Trim | server/src/root_cause_engine.cpp:1080-1081 | the loop, for any map and order of keys |
| RootCauseHistory.HistoryIsSound | server/src/root_cause_engine.cpp:1064-1180 | after any event sequence all caches and hypotheses are within their bounds and folding the emissions gives the active hypotheses |
| RootCauseHistory.ReconciledEventLeavesCandidates | server/src/root_cause_engine.cpp:1022-1180 | after every reconciled event of any sequence only candidates of the cached facts are active, and all of them exactly when they and what was active before fit the cap together |
| RootCauseHistory.ActiveAreCandidates | server/src/root_cause_engine.cpp:1022-1180 | at every moment the active hypotheses are candidates of what is cached at that moment, read with the clock of the last event that had an effect |
| RootCauseHistory.HypothesesHaveIncidents | server/src/root_cause_engine.cpp:220-993 | at every moment each active hypothesis is about the scope of a mirrored incident |
| WifiHysteresis.ChangesRaiseRank | server/src/root_cause_engine.cpp:1143-1166 | in a window that spans neither gap every change goes up one fixed order of the categories |
| WifiHysteresis.CalmNeverReturns | server/src/root_cause_engine.cpp:1143-1166 | in such a window a category that was left is never entered again, and there are at most two changes |
| WifiHysteresis.NarrowNeverReturns | server/src/root_cause_engine.cpp:65-71 | in particular in every window narrower than both gaps |
| RootCauseHistory.EntryStep | server/src/root_cause_engine.cpp:1118-1169 | for as long as an interface is cached, its entry changes with its own observations only, and then by the hysteresis rule |
| RootCauseHistory.CachedCategoryNeverReturns | server/src/root_cause_engine.cpp:1143-1169 | over any event sequence, while an interface stays cached and associated and its signal in such a window, its cached category never returns to one it has left |
| WifiHysteresis.OnlyCalmNeverReturns | server/src/root_cause_engine.cpp:1143-1166 | in every other window two signals suffice to come back |
| RootCauseRules.ProbeCountsIff | server/src/root_cause_engine.cpp:267-334 | a probe counts exactly when it is cached, on target, fresh, usable and answered or timed out; its meaning follows the limits |
| RootCauseRules.WifiCountsOnlyIf | server/src/root_cause_engine.cpp:352-443 | a Wi-Fi conclusion is only drawn from a fresh, usable observation of the station interface in use and of its generation |
| RootCauseConfidence.RoutingRating | server/src/root_cause_engine.cpp:555-602 | a routing problem is rated by whether a route is reported missing and whether a usable one is on record |
| RootCauseConfidence.UplinkRating | server/src/root_cause_engine.cpp:898-915 | an uplink problem is high until the uplink is selected again, then medium |
| MetricModel.TotalWithout | server/src/metric_store.cpp:125-135 | the total sample count changes by the size of the series taken out, whichever it is |
| MetricModel.FrontIsEnough | server/src/metric_store.cpp:112-123 | in a sorted series, dropping expired fronts is filtering by age |
| MetricProofs.PrunedOk | server/src/metric_store.cpp:112-123 | pruning keeps every series well formed |
| MetricProofs.AcceptedOk | server/src/metric_store.cpp:30-51 | an accepted sample costs at most one further front, and then all three bounds hold |
| MetricProofs.AcceptedIsHeldIff | server/src/metric_store.cpp:30-51 | an accepted sample is gone again at once exactly when it is the first of its series, the store is full without it, and it comes before every front |
| MetricProofs.AcceptedAndGone | server/src/metric_store.cpp:47-51 | an input on which that happens |
| MetricProofs.OneOutcome | server/src/metric_store.cpp:125-152 | age and key order settle both choices, so an insertion has one outcome |
| MetricProofs.OldestFrontIsOldest | server/src/metric_store.cpp:137-152 | the sample evicted is as old as any in the store |
| MetricProofs.OldestSeriesIsOldest | server/src/metric_store.cpp:125-135 | the series evicted has no sample newer than the newest of any other |
| MetricProofs.LatestEndsTheWindow | server/src/metric_store.cpp:53-83 | the latest sample is the last one of a window that covers the series and is not cut short |
| MetricProofs.WindowIsWhatPruningKeeps | server/src/metric_store.cpp:64-83 | a window without time limits shows what pruning would keep |
| Metrics.MetricStore.PruneSeries | server/src/metric_store.cpp:113-122 | popping expired fronts leaves exactly the unexpired samples of one series, and erases it when none are left |
| Metrics.MetricStore.PruneExpired | server/src/metric_store.cpp:112-123 | leaves exactly the unexpired samples and moves the difference from the count to the evictions |
| Metrics.MetricStore.EvictOldestSeries | server/src/metric_store.cpp:125-135 | evicts the series that was updated least recently, the first in key order among several |
| Metrics.MetricStore.EvictOldestSample | server/src/metric_store.cpp:137-152 | evicts the front of the series with the oldest front, the first in key order among several |
| Metrics.MetricStore.Append | server/src/metric_store.cpp:40-47 | appends and keeps the series within its bound |
| Metrics.MetricStore.Accept | server/src/metric_store.cpp:30-51 | the accepted path, with the choices it made |
| Metrics.MetricStore.Insert | server/src/metric_store.cpp:19-51 | accepts exactly well-formed samples that are not late, keeps the bounds, the count and accepted = stored + evicted, and still holds an accepted sample exactly unless it was the first of its series and older than a full store |
| Metrics.MetricStore.Latest | server/src/metric_store.cpp:53-62 | the latest unexpired sample, marked stale when it is |
| Metrics.MetricStore.Window | server/src/metric_store.cpp:64-83 | the first samples of the full window, up to the limit |
| TopologyProofs.SortedUnique | server/src/netlink_topology.cpp:24-26 | a sorted list of nexthops is determined by what it contains |
| TopologyProofs.IdentityIgnoresOrder | server/src/netlink_topology.cpp:24-51 | two nexthop lists give the same identity exactly when one is a permutation of the other |
| TopologyProofs.ApplyKeepsOk | server/src/netlink_collector.cpp:41-130 | every message keeps identities and address keys unique, nexthops sorted, and facts present and in the namespace; flags and generation are untouched |
| TopologyProofs.DeleteRemovesTheOne | server/src/netlink_collector.cpp:86-117 | a delete changes something exactly when it names one stored route, which is then the only one removed |
| TopologyProofs.CompleteDeleteIsNeverAmbiguous | server/src/netlink_collector.cpp:90-116 | a delete that carries every attribute is never ambiguous |
| Collector.BatchIsFoldOrNothing | server/src/netlink_collector.cpp:386-435 | a batch is the left fold of its messages or nothing; without a reported change the fold could differ in link types only |
| Collector.BatchEqualsFoldIff | server/src/netlink_collector.cpp:386-435 | a batch that succeeds has the effect of its fold exactly when a change is reported or its messages leave every link its type |
| Collector.NewTypeIsDropped | server/src/netlink_collector.cpp:386-435 | a reachable topology and a batch that would only change a link's type: it succeeds and is dropped |
| Collector.DegradedIff | server/src/netlink_collector.cpp:355-435 | over every run the degraded mark is up exactly when some step set it and no later step committed anything |
| Collector.MarkIsForgotten | server/src/netlink_collector.cpp:418-425 | a run in which a lost message is marked and the mark is gone with the next unrelated change, without a new dump |
| Collector.CommitIsTheDump | server/src/netlink_collector.cpp:600-635 | what a dump commits is the fold of its own messages, from nothing, and only of complete, undisturbed dumps |
| Collector.FactsChangeWithGeneration | server/src/netlink_collector.cpp:355-458 | over every run the topology is well formed, the generation never falls, and facts differ only if the generation does |
| Netlink.TopologyState.ApplyLinkFact | server/src/netlink_collector.cpp:43-66 | link messages edited in place, with everything that depends on a link that goes away |
| Netlink.TopologyState.ApplyAddressFact | server/src/netlink_collector.cpp:67-84 | address messages edited in place |
| Netlink.TopologyState.ApplyRouteFact | server/src/netlink_collector.cpp:85-128 | route messages edited in place |
| Netlink.TopologyState.FindMatching | server/src/netlink_collector.cpp:94-112 | collects the positions of all routes a delete names |
| Netlink.TopologyState.ApplyChecked | server/src/netlink_collector.cpp:41-130 | new state and result are those of the specification |
| Netlink.NetlinkCollector.ProcessBatch | server/src/netlink_collector.cpp:386-435 | the whole batch or nothing; the selection always belongs to the current facts |
| Netlink.NetlinkCollector.MarkDegraded | server/src/netlink_collector.cpp:355-384 | marks an authoritative topology, and nothing else |
| Netlink.NetlinkCollector.ReconcileDump | server/src/netlink_collector.cpp:600-635 | replaces the topology only by a complete, undisturbed dump without errors |
| Netlink.NetlinkCollector.Commit | server/src/netlink_collector.cpp:437-445 | stores the topology and the selection of exactly that topology |
| UplinkPolicy.ChosenAgree | server/src/netlink_topology.cpp:86-95 | candidates ranked first agree in interface, kind and route identity |
| UplinkPolicy.SelectionUnique | server/src/netlink_topology.cpp:53-106 | a topology has one selection |
| UplinkPolicy.SelectionIgnoresRouteOrder | server/src/netlink_topology.cpp:53-106 | which does not depend on the order of the routes |
| UplinkPolicy.DegradedMattersIff | server/src/netlink_topology.cpp:79-85 | the selection computed without the degraded mark is right with it, except where nothing can be selected from an authoritative, complete topology |
| Netlink.SelectionOutlivesMark | server/src/netlink_collector.cpp:355-384 | a reachable topology on which it is not |
| UplinkPolicy.CollectCandidates | server/src/netlink_topology.cpp:63-77 | collects exactly the usable candidates |
| UplinkPolicy.FirstRanked | server/src/netlink_topology.cpp:86-95 | finds a candidate that none ranks before |
| UplinkPolicy.Select | server/src/netlink_topology.cpp:53-106 | the scan returns the selection the specification determines |
| UplinkPolicy.ChosenIsPreferred | server/src/netlink_topology.cpp:86-95 | the choice is preferred by table, metric, family, kind and interface, each among those that tie before |
| Attribution.MaskComparesBits | server/src/socket_route_attributor.cpp:56-59 | comparing under the mask compares the leading bits |
| Attribution.PrefixIsBytesAndBits | server/src/socket_route_attributor.cpp:50-59 | bitwise prefix equality is equality of whole bytes and leading bits of the next |
| Attribution.PrefixMatches | server/src/socket_route_attributor.cpp:47-63 | the byte and mask comparison is bitwise prefix equality, for supported families and lengths only |
| AttributionProofs.AttributionUnique | server/src/socket_route_attributor.cpp:79-233 | a socket has one attribution |
| AttributionProofs.AttributionIgnoresRouteOrder | server/src/socket_route_attributor.cpp:79-233 | which does not depend on the order of the routes |
| AttributionProofs.BestIsPreferred | server/src/socket_route_attributor.cpp:122-137 | no applicable route has a longer prefix; of those as long none is in the main table unless the best one is, nor in the default table unless the best one is in the main or default table; of those ranked alike none has a lower priority |
| AttributionProofs.StatusMeans | server/src/socket_route_attributor.cpp:200-232 | when the status is unavailable or ambiguous, and how the selected interface decides the relationship to the uplink |
| AttributionProofs.AvailableMeans | server/src/socket_route_attributor.cpp:218-226 | available implies a trusted, complete topology, a route no other beats, and exactly one interface, selected and agreeing with the kernel's |
| AttributionProofs.MissingRouteIff | server/src/socket_route_attributor.cpp:105-120 | an explicitly missing route means exactly that an authoritative topology of the namespace that is neither partial nor marked degraded holds no applicable route |
| AttributionProofs.ConflictIff | server/src/socket_route_attributor.cpp:180-183 | a conflict is reported exactly when the topology is trusted, some route applies, the kernel named an interface and no best route forwards through it |
| AttributionProofs.ConflictMeansUnusedIff | server/src/socket_route_attributor.cpp:159-183 | such a report means that no best route uses the interface exactly unless the interface is used by best routes that do not forward, such as local ones |
| AttributionProofs.LocalRouteConflicts | server/src/socket_route_attributor.cpp:159-183 | on every topology with one local route, a socket the kernel sees on that route's interface is reported as conflicting |
| AttributionProofs.PossibleAreForwardOutputs | server/src/socket_route_attributor.cpp:159-171 | the interfaces considered are those through which some best route forwards, ambiguous or not |
| AttributionProofs.ListingUnique | server/src/socket_route_attributor.cpp:159-172 | there is one way to list the possible interfaces, each once |
| SocketRouteAttributor.CollectApplicable | server/src/socket_route_attributor.cpp:105-115 | collects exactly the routes that apply |
| SocketRouteAttributor.BestRoutes | server/src/socket_route_attributor.cpp:122-137 | two filters leave exactly the routes no other beats by prefix, table and priority |
| SocketRouteAttributor.CheckAmbiguous | server/src/socket_route_attributor.cpp:139-145 | comparing with the first candidate finds any disagreement among all |
| SocketRouteAttributor.FirstIdentity | server/src/socket_route_attributor.cpp:148-149 | finds the least identity |
| SocketRouteAttributor.Attribute | server/src/socket_route_attributor.cpp:85-233 | the passes return the attribution the specification determines, and the possible interfaces in ascending order with the names of their links |
| AttributeCodec.Message.AppendAttribute | server/src/wifi_collector.cpp:55-66 | grows the message by exactly the encoding of the attribute; however the message was built up, reading it gives the attributes appended |
| AttributeCodec.Message.AppendScalar | server/src/wifi_collector.cpp:68-71 | the last attribute read back carries the value |
| AttributeCodec.EncodeSnoc | server/src/wifi_collector.cpp:55-66 | appending at the end writes what writing the longer list would |
| AttributeCodec.ReadAttributes | server/src/wifi_nl80211_parser.cpp:24-45 | the cursor loop computes the parse, terminating on every input |
| AttributeCodec.RoundTrip | server/src/wifi_nl80211_parser.cpp:24-45 | reading any concatenation of written attributes gives back exactly that list |
| AttributeCodec.ReaderIsSafe | server/src/wifi_nl80211_parser.cpp:24-45 | on arbitrary bytes every attribute reported lies inside the buffer, aligned and apart from the others |
| AttributeCodec.WritingBackIff | server/src/wifi_collector.cpp:55-66 | writing back what was read restores the bytes exactly when they are well formed and zero padded |
| AttributeCodec.ScalarRoundTrip | server/src/wifi_nl80211_parser.cpp:53-59 | scalars of any width survive writing and reading |
| AttributeCodec.FindsTheFirst | server/src/wifi_nl80211_parser.cpp:47-51 | looking up a type finds the first attribute written with it |
| Pipeline.RouteCountsAsMissingIff | server/src/incident_engine.cpp:336-374 | a route observation counts against the socket exactly when the socket is known and its attribution found no route in a topology that is neither partial nor marked degraded, or found no best route forwarding through the interface the kernel named; never both |
| Pipeline.MirrorIsPartOfFold | server/src/root_cause_engine.cpp:1072-1084 | the trimmed mirror is always part of the fold of the emissions |
| Pipeline.UntrimmedMirrorIsFold | server/src/root_cause_engine.cpp:1072-1084 | and all of it as long as the bound is not exceeded |
| Pipeline.PipelineIsSound | server/src/root_cause_engine.cpp:220-993 | fed by the incident engine, building candidates never fails, high ratings follow the stated condition, and routing is blamed only for known sockets |
| Pipeline.DeliveredIncidentsFold | server/src/event_bus.cpp:154-197 | once the bus has drained with no incident refused, folding the delivered incidents gives the active incidents of the engine that published them, whatever else was published, coalesced or dropped |
| Pipeline.DeliveredAreEmittedIff | server/src/incident_engine.cpp:420-454 | the delivered incidents are the emitted ones, all and in order, exactly when the drop counter of incidents is zero |
| Pipeline.ConsumerAgreesIff | server/src/root_cause_engine.cpp:1072-1084 | whatever was delivered, the consumer agrees with the engine exactly when for every incident the last emission delivered and the last emission made say the same |
| Pipeline.RefusedResolutionLingers | server/src/event_bus.cpp:79-96 | a reachable run on a full queue in which a resolution is refused and the consumer keeps the incident |
| Pipeline.CachedIncidentsAreTheMirror | server/src/root_cause_engine.cpp:1072-1084 | whatever other events come in between, the cached incidents are the mirror of the incidents given |
| Pipeline.EveryHypothesisHasAnIncident | server/src/root_cause_engine.cpp:220-1180 | once the root-cause engine was given all the incident engine emitted, its candidates can be built and every hypothesis it holds is about something the incident engine holds an active incident for |

## Left out

- AttributeCodec.Message.AppendAttribute: payloads that with their header exceed 65535 bytes are excluded; their length does not fit the 16 bits the source gives it, and the source defines no message for them.
- Collector telemetry, publication of topology differences and per-message events: counters and formatting.
- Decoding of kernel structures into topology messages and socket records: the model starts from decoded values.
- Sockets, polling, deadlines, retries and worker threads of the collectors and probes: input and output.
- Publishing of hypotheses: the source keeps back one whose namespace it cannot tell; emissions here are what it sets out to publish.
- Callback failures and their counter: a callback that throws ends like any other.
- Incident severity, which is always the same, and lookups by id.
- Interval metrics, serialisation, the D-Bus service, client tools, the v1 monitors, scoring heuristics and the Python runtime.
- Exhaustion of 64-bit counters.
