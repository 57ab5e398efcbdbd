# Verified model of the control loop

The platform keeps hosts in the state that architecture manifests ask for. Four services form the
loop: the parser turns manifests into desired hosts, the inventory collects what runs on each host,
the drift detector compares the two and sends reconcile commands, and the reconciler queues and runs
them. This project models the loop's logic in Dafny and proves what it is relied on for.
`dafny verify dfyconfig.toml` checks everything.

- **Task queue** (`TaskQueue`, `PutOrder`, `TaskQueueObject`, `EventLoop`, `LateJobs`). A transition system whose
  events are the code between two suspension points, with the queue's wake-ups, timeouts and the
  shutdown protocol. The object's methods are proved to make exactly those transitions. `EventLoop`
  adds the order in which asyncio runs callbacks and proves that it stays within the transition system.
- **Detection** (`DriftDomain`, `Cooldown`, `DetectionCycle`, `DetectionService`,
  `DetectionTheorems`, `DetectorConfig`, `DetectorLaws`, `ReportLaws`). The cycle as a loop is proved
  to refine a fold that records everything that happens; the theorems are about the fold. A separate
  protocol model covers any number of concurrent callers and any clock.
- **Convergence** (`Convergence`, `PartialRounds`). Detection rounds alternate with an environment
  that installs what was commanded, or, with sends that fail, what was accepted.
- **Manifests** (`Manifest`, `ManifestMapper`, `Numerals`, `DesiredStateLoader`, `ManifestLaws`). The
  recursive walk against a preorder, and the merge of many files against its unique result.
- **Inventory** (`InventoryDomain`, `InventoryStore`, `InventorySync`, `SyncLaws`,
  `CadvisorMapper`, `CadvisorLaws`, `SensorAgreement`). The store on the heap, with maps, slices and
  time pointers as objects that may be shared; the sync; and the way from containers to a detector's
  verdict.
- The `Laws` modules say what the specifications mean without using them: in terms of the inputs, of what
  happened outside, and of order.
- `Text`, `Counting` and `Wrappers` hold what the others share.

## Assumptions

- Reconciler: Python 3.12, a single `stop` caller, no task cancellation, handlers that end or raise an
  ordinary exception. A handler suspends while its command runs in a thread
  (ReconcilerSvc/app/ansible/runner_adapter.py:62-63), for longer than the event loop needs to run the
  puts that have been woken, be it by a `get` or by the timeout of another woken put. In order of
  readiness they have all run, then, by the time the last unfinished item is reported done
  (`EventLoop.EndsArePrompt`), which is what `TaskQueue` builds on.
- Drift detector: the steps of concurrent callers interleave in any order. Reading and writing the
  cooldown store are single steps, as its locks make them.
- Fetches, sends, collections, clocks and cancellation are arbitrary inputs. The clock may run
  backwards. Convergence in two rounds alone assumes accepted sends, elapsed cooldowns, an environment that
  installs what it is told to, and desired hosts that are matched, differ in FQDN and require both
  components. Other actual hosts, and any order of them, are allowed.

## Findings

- `stop` delivers everything only because of that assumption about handlers; nothing in the queue
  itself enforces it. `LateJobs.DeliveryHoldsExactlyWhen` is the exact condition under asyncio's order of
  callbacks. A handler that does not suspend is enough to lose a job, even if nothing times out: a
  worker then empties the queue in one turn, and a `stop` called in that turn's wake finds the counter
  at zero before the woken put has had its turn. The service's own handler always awaits a thread.
- The spacing of sends rests on the running flag: `CanSend` and `MarkSent` take separate locks with a
  network call in between, and `CooldownProtocol.SpacingHoldsExactlyWhen` proves that without the
  flag two callers are enough to break it.
- With the registered detectors the cycle's error branches for a missing detector and for a drift
  without command are never taken (`DetectionErrors.ErrorsAreFailedSends`).
- `LastSuccessfulSyncAt` is set by every completed sync that has hosts, even if all of them failed
  (InventorySvc/internal/service/inventory/service.go:145-149). The model follows the code.

## Model

Methods that only set a field or only repeat an event of the same name have no row.

| member | source | states |
|---|---|---|
| `TaskQueue.ReachableInv` | ReconcilerSvc/app/execution/task_queue.py:50-108 | In every reachable state the counter, the life-cycle phases and the record of every call agree: each call is in exactly one place, and each started job is finished or held by one worker |
| `TaskQueue.EventKeepsInv` | ReconcilerSvc/app/execution/task_queue.py:50-108 | Every step of `start`, `stop`, `enqueue` or a worker keeps that invariant |
| `TaskQueue.EventKeepsShape` | ReconcilerSvc/app/execution/task_queue.py:65-108 | Every step keeps the counter exact, the queue within its capacity, and the contents allowed in each phase of a shutdown |
| `TaskQueue.EventKeepsRecord` | ReconcilerSvc/app/execution/task_queue.py:81-108 | Every step keeps each call in one place: committed, waiting, woken, saturated or refused |
| `TaskQueue.CommitOrderKept` | ReconcilerSvc/app/execution/task_queue.py:81-108 | What has been committed is always what has started followed by what is queued, in order |
| `TaskQueue.LoadIsBounded` | ReconcilerSvc/app/execution/task_queue.py:32-108 | The unfinished counter equals queue length plus busy workers, `task_done` never underflows, at most `max_workers` handlers run, the queue stays within capacity, and accepted unfinished jobs stay within capacity plus workers |
| `TaskQueue.NoPutIsForgotten` | ReconcilerSvc/app/execution/task_queue.py:81-97 | No wake-up is lost: puts wait with none woken only while the queue is full |
| `PutOrder.EventMovesLine` | ReconcilerSvc/app/execution/task_queue.py:81-108 | Every step moves the line of parked puts by at most one leaving and one arriving: a put parks at the end and only if the queue is full, the one woken is the first and finds room, the rest keep their order; and each call is refused or saturated exactly for its own reason |
| `PutOrder.NoOvertaking` | ReconcilerSvc/app/execution/task_queue.py:85-88 | Of two calls parked in this order, over any run in which the earlier one neither times out nor runs again, the later one is not woken before it |
| `TaskQueue.StartsOnceInCommitOrder` | ReconcilerSvc/app/execution/task_queue.py:81-108 | Jobs start in commit order and at most once; a job rejected as saturated or not running is never started; a started job is finished or held, never both |
| `TaskQueue.FailedCallIsNeverHandled` | ReconcilerSvc/app/execution/task_queue.py:81-88 | A call that failed with either error is never committed or started later, whatever happens next |
| `TaskQueue.HistoryGrows` | ReconcilerSvc/app/execution/task_queue.py:50-108 | Commits, starts and rejections are final over every run, and capacity and pool size never change |
| `TaskQueue.StopDeliversEverything` | ReconcilerSvc/app/execution/task_queue.py:65-77 | When `stop` returns, every committed job has been started exactly once in commit order and has finished, every call is accounted for, and what is left equals a fresh queue |
| `TaskQueue.InsideEventLowersMeasure` | ReconcilerSvc/app/execution/task_queue.py:65-108 | During a shutdown every step of the queue's own lowers a measure over sentinels still to put, parked and queued items and busy workers |
| `TaskQueue.ShutdownIsBounded` | ReconcilerSvc/app/execution/task_queue.py:65-108 | However callers keep calling, a shutdown takes at most that many steps of its own |
| `TaskQueue.ShutdownIsNeverStuck` | ReconcilerSvc/app/execution/task_queue.py:65-108 | With at least one worker some step other than a timeout is always possible until `stop` has returned, at any capacity, also one below the number of workers |
| `TaskQueue.ShutdownCompletes` | ReconcilerSvc/app/execution/task_queue.py:65-108 | From every stopping state with a worker the queue can finish by its own steps alone, within the bound, ending with the return of `stop` |
| `EventLoop.EventsKeepInv` | ReconcilerSvc/app/execution/task_queue.py:50-108 | With callbacks run in the order in which they became ready, and handlers that outlast the puts they wake, every step keeps: each put still to run is covered by a handler that has not ended, and `join` is woken at most once, at counter zero |
| `EventLoop.CallbacksKeepTheirTurns` | ReconcilerSvc/app/execution/task_queue.py:50-108 | Callbacks are taken from the front and become ready at the back; the timeout of a woken put only marks it |
| `EventLoop.WorkersKeepTheirTurns` | ReconcilerSvc/app/execution/task_queue.py:96-97 | Idle workers wait in line: a new item wakes the one that has waited longest, and one that finds nothing goes to the end |
| `EventLoop.LoopMovesQueue` | ReconcilerSvc/app/execution/task_queue.py:50-108 | What a callback does to the queue is one event of the transition system or nothing, except that `join` goes on whatever the counter is by then |
| `EventLoop.EndsArePrompt` | ReconcilerSvc/app/execution/task_queue.py:104-108 | When such a handler's item is reported done and the counter falls to zero, no woken put is still to run |
| `EventLoop.OrderRefinesPrompt` | ReconcilerSvc/app/execution/task_queue.py:50-108 | Every state the queue is in under the event loop with such handlers is one that its transition system reaches, so all results about those hold |
| `LateJobs.DeliveryHoldsExactlyWhen` | ReconcilerSvc/app/execution/task_queue.py:65-77 | Under the event loop, `stop` leaves no committed job behind for any bound and pool if and only if handlers are still suspended when the puts woken so far have run, or suspend at all and no put times out between its wake-up and its turn |
| `LateJobs.ImmediateHandlersLoseJobs` | ReconcilerSvc/app/execution/task_queue.py:65-108 | For every pool no larger than the bound, a run without any timeout in which a handler that does not suspend lets `stop` leave a committed job behind |
| `LateJobs.CancelledPutsLoseJobs` | ReconcilerSvc/app/execution/task_queue.py:85-108 | A run with a handler that suspends once, in which a woken put times out, passes its wake-up on, and `stop` leaves a committed job behind |
| `TaskQueueObject.OutcomeShows` | ReconcilerSvc/app/execution/task_queue.py:81-88 | After its first step a call is refused exactly when the queue does not run or accept, committed exactly when there is room, and parked otherwise |
| `TaskQueueObject.ReconcileTaskQueue.Enqueue` | ReconcilerSvc/app/execution/task_queue.py:81-88 | The accepting check and the first put attempt are one step; the outcome tells where the call ended up, and a call that parks or commits stands behind those before it |
| `TaskQueueObject.ReconcileTaskQueue.WokenPutTimesOut` | ReconcilerSvc/app/execution/task_queue.py:85-88 | A woken put that times out passes its wake-up on |
| `TaskQueueObject.ReconcileTaskQueue.WorkerGets` | ReconcilerSvc/app/execution/task_queue.py:96-104 | A worker takes the head of the queue and wakes one put; a sentinel ends it and is counted done |
| `TaskQueueObject.ReconcileTaskQueue.HandlerEnds` | ReconcilerSvc/app/execution/task_queue.py:104-108 | Success and a raised exception alike free the worker and count the item done |
| `Cooldown.KeysAgree` | DriftDetectorSvc/internal/cooldown/store.go:22-24 | Two commands share a key exactly when their components agree up to case and their FQDNs up to case and surrounding space |
| `Cooldown.Store.CanSend` | DriftDetectorSvc/internal/cooldown/store.go:26-45 | Whether a key may be sent now, and otherwise exactly how long it stays blocked |
| `Cooldown.WindowBound` | DriftDetectorSvc/internal/cooldown/store.go:26-52 | Times spaced by the cooldown fit at most W / cooldown + 1 times into a closed window of length W |
| `CooldownProtocol.EventKeepsInv` | DriftDetectorSvc/internal/service/detection/service.go:76-118 | For any number of callers every step keeps: one caller inside, store and log agree, and a check once passed still holds when its mark comes |
| `CooldownProtocol.MarksAreSpaced` | DriftDetectorSvc/internal/service/detection/service.go:76-118 | For any number of callers, any interleaving and any clock, the times marked for one key increase by at least the cooldown |
| `CooldownProtocol.SpacingHoldsExactlyWhen` | DriftDetectorSvc/internal/service/detection/service.go:103-118 | That guarantee holds if and only if the cooldown is positive and no two callers can be inside at once, which is what the running flag provides |
| `CooldownProtocol.SendRateIsBounded` | DriftDetectorSvc/internal/service/detection/service.go:256-292 | Over any run, a closed window of length W holds at most W / cooldown + 1 accepted sends for one key |
| `DriftDomain.ParseComponent` | DriftDetectorSvc/internal/domain/model.go:16-25 | Accepts exactly the spellings of the two components up to case and space |
| `DriftDomain.FindWorkload` | DriftDetectorSvc/internal/domain/model.go:58-66 | The first workload with the component's name up to case and space, or none if there is none |
| `DetectorLaws.RequirementMeans` | DriftDetectorSvc/internal/detectors/cadvisor_detector.go:22-28 | A component is required exactly where the first workload with its name is enabled and deployed as a container |
| `DetectorLaws.SightMeans` | DriftDetectorSvc/internal/domain/model.go:100-120 | A component is seen exactly where the enabled source cadvisor is ok and some reported workload has its name, up to case and space |
| `DetectorLaws.CommandCarriesWorkload` | DriftDetectorSvc/internal/detectors/cadvisor_detector.go:31-79 | A drift's command carries the trimmed image of the workload unless that is blank, its port if it has one and nothing else, and goes to the desired host or, where its address is blank, the actual one |
| `DetectorLaws.ReasonsMean` | DriftDetectorSvc/internal/detectors/node_exporter_detector.go:31-70 | The reasons given with a drift tell an unhealthy source from a missing component, and missing data and skips carry theirs |
| `Detectors.JudgeByCases` | DriftDetectorSvc/internal/detectors/cadvisor_detector.go:19-87 | Both detectors by cases: not applicable, in sync, no data and drifted each hold exactly when said; an unhealthy host is asked for cadvisor only |
| `Detectors.CadvisorIsCoherent` | DriftDetectorSvc/internal/detectors/cadvisor_detector.go:19-87 | Finding and command come exactly with a drift, name the same component and host, and prefer the desired host's id and FQDN |
| `Detectors.NodeExporterIsCoherent` | DriftDetectorSvc/internal/detectors/node_exporter_detector.go:20-73 | The same for node_exporter; a drift and missing data exclude each other |
| `DetectionService.IndexActualHosts` | DriftDetectorSvc/internal/service/detection/service.go:333-350 | The two maps hold the last host with each non-empty normalised id and FQDN |
| `DetectionService.LookupIsSearch` | DriftDetectorSvc/internal/service/detection/service.go:352-370 | Looking up in the two maps agrees with the simple search over the list |
| `DetectorLaws.FoundHostMeans` | DriftDetectorSvc/internal/service/detection/service.go:333-370 | A desired host is matched with the last actual host with its id, or if there is none with its FQDN, up to case and space; blank text matches nothing |
| `DetectionService.ReportExtends` | DriftDetectorSvc/internal/service/detection/service.go:193-292 | The report counted off the history of a cycle changes with each further event as the loop's counters and messages do |
| `DetectionService.Service.RunCycle` | DriftDetectorSvc/internal/service/detection/service.go:76-85 | A caller that finds a cycle running changes nothing; one that is let in leaves the flag clear, the result stored, and the cooldown map, the commands sent and the report of the fold |
| `DetectionService.Service.BeginCycle` | DriftDetectorSvc/internal/service/detection/service.go:103-112 | Lets a caller in exactly when the flag was clear, and leaves it set |
| `DetectionService.Service.RunCycleBody` | DriftDetectorSvc/internal/service/detection/service.go:131-326 | The cycle refines the fold: same sends in the same order, same cooldown map, same report, also where a fetch fails |
| `DetectionService.Service.CompareHosts` | DriftDetectorSvc/internal/service/detection/service.go:185-301 | The loop over desired hosts refines the fold over them |
| `DetectionService.Service.CompareHost` | DriftDetectorSvc/internal/service/detection/service.go:202-300 | The loop over components refines the fold over one host's verdicts, and counts a host without data once |
| `DetectionService.Service.CompareComponent` | DriftDetectorSvc/internal/service/detection/service.go:205-300 | One turn with its five early exits has the effect of the component's verdict |
| `DetectionService.Service.SendCommand` | DriftDetectorSvc/internal/service/detection/service.go:256-292 | A drift is suppressed, fails or is accepted, and only an accepted send is marked |
| `DetectionCycle.CountersAreExact` | DriftDetectorSvc/internal/service/detection/service.go:191-301 | Over the cycle each unmatched host, each drifted pair and each compared host without data is counted exactly once |
| `DetectionCycle.CountersConserve` | DriftDetectorSvc/internal/service/detection/service.go:170-301 | Desired = compared + skipped; drifts = sent + suppressed + failed + without command; errors = messages; and when exactly a cycle is partial |
| `DetectionCycle.DriftEntriesAddUp` | DriftDetectorSvc/internal/service/detection/service.go:243-292 | Every drift ends in exactly one of four ways, and every error leaves one message |
| `DetectionCycle.UnmatchedIfAny` | DriftDetectorSvc/internal/service/detection/service.go:191-200 | Hosts are skipped exactly when some desired host matches no actual host |
| `ReportLaws.JudgeMeans` | DriftDetectorSvc/internal/service/detection/service.go:205-254 | What the cycle makes of a detector's result, branch by branch |
| `ReportLaws.CountersMean` | DriftDetectorSvc/internal/service/detection/service.go:170-301 | Every counter in terms of what the cycle did outside: sent are the calls the world accepted, one mark each; suppressed the commands that led to no call; errors the other calls and the pairs without detector or command |
| `ReportLaws.WarningsMean` | DriftDetectorSvc/internal/service/detection/service.go:172-228 | A warning is in the report exactly if its reason is there: partial inventory, parser not ready, unmatched host, or missing data with a reason |
| `ReportLaws.ErrorsMean` | DriftDetectorSvc/internal/service/detection/service.go:205-290 | An error message is in the report exactly if a pair of a compared host and a component has no detector or no command, or a call for that command failed |
| `ReportLaws.FailedReportMeans` | DriftDetectorSvc/internal/service/detection/service.go:149-168 | A cycle whose fetch fails reports that one error and nothing else |
| `ReportLaws.VisitsInOrder` | DriftDetectorSvc/internal/service/detection/service.go:191-301 | Hosts are visited in order, each starting from what the earlier ones left |
| `ReportLaws.ComponentsInOrder` | DriftDetectorSvc/internal/service/detection/service.go:205-300 | So are the components of a host |
| `DetectionErrors.ErrorsAreFailedSends` | DriftDetectorSvc/internal/service/detection/service.go:205-292 | With the two detectors registered and only their components enabled, every error of a cycle past its fetches is a failed send |
| `DetectionSpacing.CycleIsProtocolRun` | DriftDetectorSvc/internal/service/detection/service.go:191-301 | A whole cycle is a run of the concurrent protocol's steps by one caller |
| `DetectionSpacing.CyclesSpaceTheirSends` | DriftDetectorSvc/internal/service/detection/service.go:256-292 | Over any cycles, fetched data, clock and outcomes, accepted sends for one key are spaced by the cooldown and bounded in rate |
| `DetectionSpacing.EarlierEntriesDoNotMatter` | DriftDetectorSvc/internal/service/detection/service.go:131-141 | A cycle that starts from an empty record is the same cycle as one that continues an earlier record |
| `DetectionAttempts.OneAttemptPerComponent` | DriftDetectorSvc/internal/service/detection/service.go:205-292 | With de-duplicated components a cycle makes at most one attempt, suppressed, failed or accepted, and sends at most one command per component for one desired host |
| `DetectorConfig.NormalizeComponents` | DriftDetectorSvc/internal/config/config.go:147-160 | The loop yields the distinct non-blank values |
| `DetectorConfig.FirstAppearancesMeaning` | DriftDetectorSvc/internal/config/config.go:147-160 | The result has no duplicates, contains exactly the non-blank normalised values, and keeps the order of first appearance |
| `DetectorConfig.ValidateComponents` | DriftDetectorSvc/internal/config/config.go:200-208 | Reports exactly the unsupported values or the empty list; no error exactly when the list is non-empty and every value is a known component |
| `DetectorConfig.ConfiguredComponents` | DriftDetectorSvc/internal/config/config.go:147-208 | What passes gives the service one or both components, each once |
| `Convergence.HostCommands` | DriftDetectorSvc/internal/service/detection/service.go:205-300 | A matched host is sent a command for each component that can be acted on, and nothing else |
| `Convergence.RoundSends` | DriftDetectorSvc/internal/service/detection/service.go:191-301 | With cooldowns elapsed and sends accepted, a round sends every command of every drifted pair, in order |
| `Convergence.FleetIsCommandedExactly` | DriftDetectorSvc/internal/service/detection/service.go:191-301 | Over the whole fleet every desired host is commanded what it wants, and an FQDN that no desired host has is commanded nothing |
| `Convergence.FleetIsKept` | DriftDetectorSvc/internal/service/detection/service.go:352-370 | Whatever the environment installs, desired hosts stay matched with their actual hosts, in whatever order these come and whichever others there are |
| `Convergence.RoundsCanHappen` | DriftDetectorSvc/internal/service/detection/service.go:191-301 | The assumptions of the convergence theorems can be met: whatever a round commands, some environment obeys |
| `Convergence.RoundMakesProgress` | DriftDetectorSvc/internal/detectors/cadvisor_detector.go:45-86 | One round commands exactly what is wanted; afterwards every desired host runs cadvisor, and node_exporter too where the source was healthy |
| `Convergence.RoundLowersMissing` | DriftDetectorSvc/internal/service/detection/service.go:191-301 | Every round with drift strictly lowers the number of missing (host, component) pairs |
| `Convergence.TwoRoundsSuffice` | DriftDetectorSvc/internal/detectors/node_exporter_detector.go:31-72 | After two rounds nothing is missing; a host without healthy data is commanded cadvisor alone in the first round, and in the second node_exporter exactly if it still lacks it |
| `Convergence.NoDriftSendsNothing` | DriftDetectorSvc/internal/service/detection/service.go:239-241 | A fleet without missing pairs is left alone, whatever the cooldowns, clock and outcomes |
| `PartialRounds.AnyRoundMakesProgress` | DriftDetectorSvc/internal/service/detection/service.go:191-301 | In any round, whatever is suppressed or fails, the number of missing pairs never grows, a wanted component whose command was accepted runs afterwards, and if any command was accepted fewer pairs are missing |
| `PartialRounds.AcceptedIsWanted` | DriftDetectorSvc/internal/service/detection/service.go:256-292 | Every accepted command is for a desired host that wants its component |
| `PartialRounds.TwoRoundsCanHappen` | DriftDetectorSvc/internal/service/detection/service.go:191-301 | From any fleet and a fresh store two calm rounds can follow each other, so the theorems about two rounds and about fleets without drift are about something |
| `Manifest.PreorderByChildNodes` | ParserSvc/internal/parser/structurizr.go:60-73 | `ChildNodes` continues the preorder: children, then deployment nodes |
| `Manifest.PreorderVisitsAll` | ParserSvc/internal/parser/structurizr.go:60-73 | The preorder visits every node once |
| `ManifestLaws.ChildNodesInOrder` | ParserSvc/internal/parser/structurizr.go:60-73 | Children first, then deployment nodes, each in order |
| `Text.TrimMeans` | ParserSvc/internal/mapper/mapper.go:272-272 | Trimming cuts off exactly the space at both ends |
| `Text.LowerMeans` | ParserSvc/internal/mapper/mapper.go:299-299 | Lower-casing turns exactly the capitals into small letters, each into its own |
| `Numerals.AtoiMeans` | ParserSvc/internal/mapper/mapper.go:345-345 | Text reads as a number exactly if it is an optional sign and decimal digits with that value, within 64 bits |
| `Numerals.FormatIntWrites` | ParserSvc/internal/mapper/mapper.go:275-275 | A number is written as its decimal digits without leading zeros, with a minus sign if negative |
| `ManifestMapper.NormalizeStringMeans` | ParserSvc/internal/mapper/mapper.go:269-292 | Exactly which text each decoded value has, and that only unsupported types have none |
| `ManifestMapper.NormalizeBoolMeans` | ParserSvc/internal/mapper/mapper.go:294-327 | True are exactly `true`, 1 and the four positive words up to case and space; false likewise; everything else is an error |
| `ManifestMapper.NormalizeIntMeans` | ParserSvc/internal/mapper/mapper.go:329-353 | A value is an integer exactly if it is one or is trimmed text that reads as one |
| `ManifestMapper.ExtractLabels` | ParserSvc/internal/mapper/mapper.go:192-222 | Whatever the order of map iteration, the labels are the same |
| `ManifestMapper.BuildContainerMap` | ParserSvc/internal/mapper/mapper.go:74-87 | The last container with each non-blank trimmed id gives the name |
| `ManifestLaws.AllContainersInOrder` | ParserSvc/internal/mapper/mapper.go:76-78 | The containers of every system are gone through, system by system, each in order |
| `ManifestLaws.InstancesInOrder` | ParserSvc/internal/mapper/mapper.go:50-64 | Workloads and their warnings follow the order of the instances |
| `ManifestMapper.HostCarriesItsProperties` | ParserSvc/internal/mapper/mapper.go:89-133 | A node is a host exactly when its five required properties have text; every field and label is the normalised property of its own name, and no other labels exist |
| `ManifestLaws.HostErrorIsFirst` | ParserSvc/internal/mapper/mapper.go:90-130 | A node that is no host fails at the first of the five properties that is missing, of a wrong type or empty, or else names exactly those that are blank |
| `ManifestMapper.WorkloadCarriesItsProperties` | ParserSvc/internal/mapper/mapper.go:135-190 | Exactly when an instance maps to a workload; the workload has the container's name and the normalised properties, and container mode comes with an image |
| `ManifestLaws.WorkloadErrorIsFirst` | ParserSvc/internal/mapper/mapper.go:136-187 | An instance that does not map fails at the first of container, `enabled`, `deployment_mode`, `port`, `version` and blank text |
| `ManifestLaws.BlankWorkloadFields` | ParserSvc/internal/mapper/mapper.go:185-187 | Blank text is reported for the deployment mode, and for the image of a container, exactly where it is blank |
| `ManifestLaws.WarningsNameTheirNodes` | ParserSvc/internal/mapper/mapper.go:41-72 | The warnings are exactly those of nodes that are no hosts and of instances that do not map, each with its file, ids and error |
| `ManifestMapper.PortAsTextIsPortAsNumber` | ParserSvc/internal/mapper/mapper.go:154-162 | A port written as a number or as its decimal text, with any space around it, maps to the same workload, over all 64-bit integers |
| `ManifestMapper.WalkDeploymentNode` | ParserSvc/internal/mapper/mapper.go:41-72 | The recursive walk appends what the preorder below the node yields, also below invalid nodes |
| `ManifestMapper.MapNode` | ParserSvc/internal/mapper/mapper.go:42-67 | One node appends its host with the workloads that map, in order, or one warning |
| `ManifestMapper.MapManifest` | ParserSvc/internal/mapper/mapper.go:27-39 | The result is the mapping of the preorder of the whole forest, and `Workloads` is the sum over the hosts |
| `ManifestMapper.NamesAreUnique` | ParserSvc/internal/mapper/mapper.go:74-87 | There is only one container map for a manifest, so the result is a function of the manifest |
| `ManifestMapper.NothingIsLost` | ParserSvc/internal/mapper/mapper.go:41-72 | Hosts plus node warnings are the nodes, workloads plus workload warnings the instances on valid nodes, and everything emitted is valid |
| `ManifestMapper.TreeIsAccountedFor` | ParserSvc/internal/mapper/mapper.go:41-72 | Over a whole forest, hosts and skipped nodes make up all its nodes |
| `DesiredStateLoader.LoadDesiredState` | ParserSvc/internal/app/app.go:96-181 | The hosts are the merge of everything mapped, the file counts add up, and ready holds exactly when some file loaded |
| `DesiredStateLoader.ReadFiles` | ParserSvc/internal/app/app.go:104-146 | Over the files in order, the map holds the last host mapped for each id, and every file is loaded or broken |
| `DesiredStateLoader.SortedHosts` | ParserSvc/internal/app/app.go:148-152 | The values of the map in strictly ascending order, whatever order the map yields them in |
| `Text.LessIsLexicographic` | ParserSvc/internal/app/app.go:152-152 | The order sorted by is that of strings: a proper prefix comes first, otherwise the first character that differs decides |
| `ManifestLaws.MergedIdsAscend` | ParserSvc/internal/app/app.go:148-152 | The ids of the merged hosts ascend character by character |
| `ManifestLaws.FilesInOrder` | ParserSvc/internal/app/app.go:104-146 | What is mapped follows the order of the files, and bad files yield nothing |
| `DesiredStateLoader.MergeIsUnique` | ParserSvc/internal/app/app.go:148-152 | Only one list is the merge, so the order of map iteration cannot show |
| `DesiredStateLoader.MergedHostsAreMapped` | ParserSvc/internal/app/app.go:133-152 | Every merged host was mapped from a good file and is valid |
| `InventoryDomain.CloneSnapshot` | InventorySvc/internal/domain/model.go:77-93 | The copy is worth the same and consists of fresh objects only |
| `InventoryDomain.CloneHost` | InventorySvc/internal/domain/model.go:95-127 | The same for one host with its maps, slices and time pointers |
| `InventoryDomain.CloneTime` | InventorySvc/internal/domain/model.go:129-135 | The same for a time pointer, which may be nil |
| `InventoryDomain.SnapshotWorthIsUnique` | InventorySvc/internal/domain/model.go:72-93 | Objects are worth one value only, so equal worth means an equal snapshot |
| `InventoryStore.Store.Replace` | InventorySvc/internal/store/memory/store.go:22-34 | The store holds the value passed in, in fresh objects, with an index that agrees with it |
| `InventoryStore.Store.GetSnapshot` | InventorySvc/internal/store/memory/store.go:36-40 | Hands out the stored value in fresh objects |
| `InventoryStore.Store.GetHost` | InventorySvc/internal/store/memory/store.go:42-52 | Finds exactly the ids in the snapshot, and hands out the last such host in fresh objects |
| `InventoryStore.BuildIndex` | InventorySvc/internal/store/memory/store.go:29-33 | The index holds a fresh copy of the last host for each id, and nothing else |
| `StoreIsolation.RunClient` | InventorySvc/internal/store/memory/store.go:22-52 | Puts, takes and arbitrary changes by the caller to all objects passed in or handed out, and puts of snapshots changed and shared that way, in any order: the store holds the worth of what was last put |
| `SelfProvisioning.Validate` | InventorySvc/internal/bootstrap/selfprovisioning/loader.go:34-83 | Reports exactly what is wrong, with the host it is wrong for; passes exactly the non-empty lists whose trimmed ids and FQDNs are non-empty and pairwise distinct and whose required labels are not blank |
| `InventorySync.SyncHost` | InventorySvc/internal/service/inventory/service.go:56-131 | A host has its seed's id, FQDN and labels, the workloads of its successful sources in order, their latest observation, and the status, errors and source states that follow |
| `InventorySync.Service.CollectHosts` | InventorySvc/internal/service/inventory/service.go:45-134 | Host i is that of seed i, failed hosts are counted, and a cancelled context ends the loop |
| `InventorySync.Service.Sync` | InventorySvc/internal/service/inventory/service.go:41-174 | A cancelled sync leaves the store untouched; a completed one stores one host per seed and the metadata that follows from them and the previous metadata |
| `SyncLaws.StatusMeans` | InventorySvc/internal/service/inventory/service.go:119-131 | Bootstrap-only exactly if no source is enabled, ok if some are and none failed, partial if some but not all failed, error if all failed |
| `SyncLaws.HostCarriesItsSeed` | InventorySvc/internal/service/inventory/service.go:23-29 | A host has the trimmed id and FQDN of its seed, and its labels |
| `SyncLaws.SourceStatusMeans` | InventorySvc/internal/service/inventory/service.go:72-112 | Under each source's name stands what the last source with that name gave: disabled, its error, or ok with the time of observation |
| `SyncLaws.WorkloadsInOrder` | InventorySvc/internal/service/inventory/service.go:72-117 | Workloads follow the order of the sources |
| `SyncLaws.ErrorsInOrder` | InventorySvc/internal/service/inventory/service.go:72-101 | So do error messages |
| `SyncLaws.OneSource` | InventorySvc/internal/service/inventory/service.go:72-117 | One source gives its workloads if it succeeds, one message if it fails, nothing if it is disabled |
| `SyncLaws.MetadataMeans` | InventorySvc/internal/service/inventory/service.go:136-142 | Every seed counts as a host, failed are the hosts with an enabled source that failed, and a sync is partial if there is one |
| `SyncLaws.CountsAreOfLastSync` | InventorySvc/internal/service/inventory/service.go:136-142 | Over any history the stored counts are those of the last completed sync |
| `InventorySync.StatusesPartitionHosts` | InventorySvc/internal/service/inventory/service.go:119-131 | Ok, failed and bootstrap-only hosts make up all hosts, failed being partial plus error |
| `InventorySync.RunSyncs` | InventorySvc/internal/service/inventory/service.go:41-174 | Syncs in a row from a fresh store leave the metadata of their history |
| `InventorySync.SyncTimesAreExact` | InventorySvc/internal/service/inventory/service.go:136-157 | Over any history the full and the partial time are the finish of the last completed sync of each kind, nil if none, and the last sync time is one of them as `IsPartial` says |
| `InventorySync.LookupAgreesWithSearch` | InventorySvc/internal/store/memory/store.go:22-52 | After a sync of a validated list, looking up an id is linear search over the snapshot, every seed is found, and the index has one entry per host |
| `CadvisorMapper.NameIsLastSegment` | InventorySvc/internal/sources/cadvisor/mapper.go:100-121 | A picked name is the last path segment of the first alias that is more than slashes, otherwise of the key, otherwise `unknown` |
| `CadvisorMapper.PickedNamesAreClean` | InventorySvc/internal/sources/cadvisor/mapper.go:100-121 | Picked names are never empty and never contain a slash |
| `CadvisorMapper.LastSegmentIsUnique` | InventorySvc/internal/sources/cadvisor/mapper.go:100-121 | A path has at most one last segment |
| `CadvisorMapper.IdIsFirstAlias` | InventorySvc/internal/sources/cadvisor/mapper.go:85-98 | A picked id is the first alias that is not blank, otherwise the key, and never empty |
| `CadvisorLaws.RootMeans` | InventorySvc/internal/sources/cadvisor/mapper.go:31-37 | The root container is the one with a blank name or a single slash |
| `CadvisorLaws.WorkloadCarriesItsContainer` | InventorySvc/internal/sources/cadvisor/mapper.go:47-54 | A workload has the trimmed image, the trimmed namespace or `unknown`, and the last timestamp unless that is missing |
| `CadvisorLaws.SurvivorsMean` | InventorySvc/internal/sources/cadvisor/mapper.go:60-83 | Filtered out are exactly the containers without an image whose namespace is blank or reads `unknown`; the root always falls out |
| `CadvisorLaws.LatestSightingMeans` | InventorySvc/internal/sources/cadvisor/mapper.go:42-45 | The latest sighting is one of a container other than the root and none of those was seen later |
| `CadvisorMapper.NormalizeContainers` | InventorySvc/internal/sources/cadvisor/mapper.go:14-58 | The workloads are those of the containers other than the root, ordered by trimmed name, and the timestamp is their latest sighting |
| `CadvisorLaws.NamesAscend` | InventorySvc/internal/sources/cadvisor/mapper.go:23-25 | Sorted means that trimmed names ascend character by character |
| `CadvisorLaws.ContainersInOrder` | InventorySvc/internal/sources/cadvisor/mapper.go:30-55 | Workloads follow the order of the containers |
| `CadvisorMapper.FilterWorkloads` | InventorySvc/internal/sources/cadvisor/mapper.go:60-83 | Keeps, in order, everything or everything but the likely system workloads |
| `CadvisorLaws.KeptInOrder` | InventorySvc/internal/sources/cadvisor/mapper.go:65-71 | Filtering keeps the order |
| `CadvisorMapper.Collect` | InventorySvc/internal/sources/cadvisor/source.go:50-51 | One collection yields the workloads of the containers that survive |
| `CadvisorMapper.CollectedMembers` | InventorySvc/internal/sources/cadvisor/mapper.go:14-83 | A workload is collected exactly when it comes from a surviving container, whatever order sorting came to |
| `SensorAgreement.SensorMeetsDetector` | DriftDetectorSvc/internal/domain/model.go:100-120 | After a successful collection the source is healthy, and the detector sees a component exactly when a surviving container has it as its picked name up to case and space |
| `SensorAgreement.VerdictFollowsContainers` | DriftDetectorSvc/internal/detectors/node_exporter_detector.go:31-72 | A required component is in sync exactly where such a container runs; after a failed collection cadvisor drifts and node_exporter has no data |

## Left out

- HTTP handlers, routers, DTO conversion, logging, schedulers, configuration loading and the HTTP clients with their retries: plumbing; each call is one arbitrary outcome.
- Ansible execution: it appears as the outcome of a handler and as the environment step of the convergence theorems.
- `drain` of the task queue: a second waiter on `join` that changes nothing.
- Several concurrent `stop` callers and cancelled tasks: not modelled.
- LateJobs.ImmediateHandlersLoseJobs: which pools larger than the bound can lose a job to handlers that do not suspend is not settled.
- LateJobs.CancelledPutsLoseJobs: one run, for one worker and one place; for which other bounds and pools a timeout of a woken put can lose a job is not settled.
- DetectionService.Service.RunCycle: does not model start and finish times, durations and stage timings, nor the text of errors and warnings, which are values of a datatype; the cycle's identifier is an input; the copy made of the stored result is by value, so its aliasing is not modelled.
- DetectionService.Service.RunCycleBody: the same holds for stage timings and for the text around a fetch error.
- DesiredStateLoader.SortedHosts: `sort.Slice` works in place on a slice; here an insertion sort on values gives the same list, and sorting in place is not modelled.
- CadvisorMapper.NormalizeContainers: the sort is on values too; it may leave containers with equal names in any order, as the original's unstable sort may.
- ManifestMapper.MapManifest: starts from decoded values. A number is an integer or a fraction with the text Go prints for it; the conversion of floats beyond 64 bits is not modelled.
- InventoryStore.Store.Replace: its lock is not modelled, since each method of the store runs under it as a whole. Its readiness flag, which the application sets once after the first sync, is not modelled. Nil maps are empty maps, and a slice is an object that holds a sequence.
- InventorySync.Service.Sync: hosts and metadata are built as values and turned into objects when they are stored; sharing between the service's own intermediate objects is not modelled, and sync durations are inputs.
- Syncs run one after another, as the application's start and its one scheduler run them; overlapping syncs are not modelled.
- The parser's own store, label and FQDN filters: the same clone-and-index pattern and simple order-preserving filters.
- Text is ASCII: Unicode spaces and case folding are not modelled. Integers are unbounded except where decimal text is read, which is limited to 64 bits; saturation of Go durations is not modelled.
