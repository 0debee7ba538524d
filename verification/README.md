# Verified models of the downloader's core

This project models, in Dafny, the parts of the repository where the behaviour of a whole loop, a state machine or all
interleavings matters, and proves what they are relied upon for. `dafny verify dfyconfig.toml` checks everything.

## What is modelled

| modules | source | what it is |
|---|---|---|
| `DependencyGraph` | `rte/reconciler.go`, `rte/rte.go`, `application/forward.rules/rules.go` | the depth-first ordering shared by the reconciler, the registry and the rule check |
| `LifecycleHistory`, `ReconcileLoops`, `ReconcileOutcome`, `ReconcileRefusal`, `ResourceReconciler` | `rte/reconciler.go` | the resource reconciler: a class whose callbacks are recorded in a ghost history and may fail in any pattern |
| `PortWiring`, `HostState`, `ComponentRuntime` | `rte/rte.go`, `rte/reconcile_components.go` | the component registry, start, exchange and stop of components, and their captured ports |
| `ChunkPlan`, `ParallelStream`, `SourceRegistry` | `app/http/session.go`, `app/http/telegram_source.go` | the chunk planner, the sequential and the parallel stream, the shared sources |
| `DeliveryCoverage` | `app/http/delivery_status.go` | the normal form of delivered ranges and the accumulating record |
| `RangeHeader`, `Decimal`, `Text` | `application/proxy.range/handler.go` | parsing of the Range header, down to its characters |
| `MessageClaims` | `application/forwarder/message_router.go` | the claim-or-wait protocol of the default route, and the draining gate |
| `ForwardQueue`, `ForwardQueueRuns` | `application/forwarder/queue.go` | the persistent job queue and its concurrent life |
| `ForwardRules` | `application/forward.rules/rules.go` | checking and compiling forwarding rules |
| `DownloadPipeline` | `application/download.control/pipeline.go`, `router.go` | batch submission with fallback across executors |
| `WakeQueue`, `LocalWorker` | `application/downloader.local` | the worker's wake-up queue, its attempts and the records they share with users |
| `UniqueNames`, `TargetPaths` | `application/naming.rules/unique.go`, `rte/targetpath/path.go` | numbering of colliding names, down to the joined and cleaned paths |

Concurrent code is modelled as a state machine whose actions are the critical sections, channel operations and store
updates of the source; a run is any list of enabled actions, so the lemmas about runs hold for every interleaving.
Sequential code that updates state is a class or a method with loops, proved against a specification; calls into code
outside the model (callbacks, adapters, drains, the network) may answer anything, and ghost histories or counters record
what they answered. Where the numbers of a source type could overflow, the contracts bound them.

## What the proofs brought to light

* `application/forwarder/queue.go:569-572` - the limit on attempts does not bound the number of runs: a transport that
  returns `context.Canceled` without a deletion or a shutdown has the job queued again with no attempt counted
  (`ForwardQueueRuns.LimitNeedsVerdicts`). The bound holds exactly when every run gets a verdict
  (`RunsCounted`, `RunsBounded`).
* `application/downloader.local/worker.go:263-271` - a `queueID` that was between its two critical sections while the
  worker was stopped and started again can remove the ID that the new run has queued, so the new channel can hold an ID
  twice (`WakeQueue.LateSenderSpoils`). This is the only step that can do so (`SpoiledExactly`). The second copy is
  dropped exactly when an attempt for the ID is in progress as it is received; otherwise it begins another attempt
  (`CopyDropped`, `SecondCopy`), which runs the record again if it is queued or in error.
* `application/downloader.local/worker.go:489-497` - a record without a start stamp - never started, or restarted since
  its last start - has only its creation stamp, so an attempt that loaded it while it had none cannot tell that it has
  been paused and restarted since, and may claim or conclude it
  (`LocalWorker.RestartOverlooked`). `OverlooksExactly` gives the exact condition; in every other case an attempt leaves
  a restarted or re-created record alone.
* `application/proxy.range/handler.go:375-378` - a first position past the end is accepted as unsatisfiable before the
  last position is read, so `bytes=900-x` on a file of 100 bytes is answered 416 although section 14.1.2 of RFC 9110 has
  no such form (`RangeHeader.LenientExample`, `LenientPart`; the exact condition is in `PartMeans`). `strconv.ParseInt`
  also accepts a plus sign.
* `rte/reconciler.go:116-126` - a removed unit that is inactive still takes part in the second ordering, so a removal can
  be refused for a cycle through old requirements (`ReconcileRefusal.FirstRun`, `SecondRun`, `RemovalRefused`); this happens exactly when the
  removed units' recorded requirements are cyclic (`RefusedExactly`), and never if all of them are live
  (`LiveRemovalAccepted`). The third ordering, at lines 134-137, can never fail (`ReconcileOutcome.StopGraphIsFine`).
* `app/http/session.go:355-358` - the final length check of the parallel stream can never fail
  (`ParallelStream.OutputInOrder`); with a pool of size zero it would wait for ever (`NoWorkersStall`).

## Model

| member | source | states |
|---|---|---|
| `DependencyGraph.OrderUnits` | rte/reconciler.go:54-90 | An order is returned exactly when every requirement is declared and no unit needs itself; it lists each unit once, after everything it requires. A reported cycle or unknown requirement really is one. |
| `DependencyGraph.DepthFirst.Visit` | rte/reconciler.go:63-83 | One search step: terminates on the unvisited nodes; whatever it finishes is ordered after its requirements; the chain of calls in progress is a walk, so a node met again closes a real cycle. |
| `DependencyGraph.OrderingRefutesCycles` | rte/reconciler.go:84-89 | An order with every requirement before its user exists only for graphs with known requirements and no cycle. |
| `DependencyGraph.FindCycle` | application/forward.rules/rules.go:104-126 | The same search where targets need not be sources themselves: it stops at a cycle exactly when there is one. |
| `DependencyGraph.SplitAcyclic` | rte/reconciler.go:127-137 | A graph that splits into a closed part and a rest is acyclic when both parts are; this is why the stop graph cannot be cyclic. |
| `ResourceReconciler.Reconciler.Reconcile` | rte/reconciler.go:94-274 | A refusal changes nothing and is due exactly to an ended context, malformed or repeated declarations, or an unknown or cyclic graph, removed units included. Otherwise the returned failures are exactly those of the callbacks in order, and the outcome is the `Report`: legal calls only, convergence without failures, rest once settled, exactly the observable units asked, local failures, and each unit's published state and calls. A live unit is stopped, or kept by a failed stop, exactly when it has, or requires a unit that has, a cause: disabled, pending a stop, reported exited, another revision or other requirements; beyond that a Stop only undoes a failed Start. |
| `ResourceReconciler.Reconciler.Drive` | rte/reconciler.go:149-273 | The callback part keeps the invariant (safe history, records in agreement with it, declared requirements, acyclic live units) for every pattern of callback failures. |
| `ResourceReconciler.Reconciler.Declare` | rte/reconciler.go:100-110 | Declarations are accepted exactly when all are named and complete and no ID repeats, and then map each ID to its unit. |
| `ResourceReconciler.Reconciler.Observe` | rte/reconciler.go:149-182 | Exactly the observable units not pending a stop are asked; nothing of a known unit changes but that an exited live one is marked; a unit is marked for restart exactly when it must restart itself or requires a marked one. |
| `ResourceReconciler.Reconciler.CloseRestart` | rte/reconciler.go:183-187 | The restart set is closed over the stop graph's requirements; it is unchanged when it was closed already. |
| `ResourceReconciler.Reconciler.StopPhase` | rte/reconciler.go:188-219 | The stop loop over any subset of failing stops: restarting units are stopped or kept pending, others untouched, and every Stop is legal when made. |
| `ResourceReconciler.Reconciler.StopUnit` | rte/reconciler.go:190-219 | One unit: blocked by a consumer that did not stop, left live and pending after a failed stop, or stopped. |
| `ResourceReconciler.Reconciler.StartPhase` | rte/reconciler.go:220-272 | The start loop: each unit whose stop did not fail settles as disabled, waiting, running at its desired revision, or troubled by its own callback. |
| `ResourceReconciler.Reconciler.StartUnit` | rte/reconciler.go:220-272 | One unit of the start loop ends in one of eight outcomes, each with its exact calls, record and published state. |
| `ResourceReconciler.Reconciler.StartFresh` | rte/reconciler.go:254-268 | A start marks the unit live and pending, and is undone by a Stop when it fails; if that fails too the unit stays live and pending. |
| `ResourceReconciler.Reconciler.InvokeStop` | rte/reconciler.go:210-218 | Stop is called only on a live unit that no live unit requires. |
| `ResourceReconciler.Reconciler.InvokeStart` | rte/reconciler.go:254-258 | Start is called only on an inactive unit whose requirements were all published Running in this reconciliation. |
| `LifecycleHistory.SafeHistoryIsClosed` | rte/reconciler.go:149-273 | A history of legal calls never leaves a live unit without a live requirement. |
| `LifecycleHistory.SafeAtEveryCall` | rte/reconciler.go:188-272 | In a safe history every single Start, Stop and Update was legal when it was made. |
| `LifecycleHistory.NoFailures` | rte/reconciler.go:188-273 | The joined error is nil exactly when every callback succeeded and the context stayed live. |
| `LifecycleHistory.SettledIsEligible` | rte/reconciler.go:220-272 | A set holding exactly the enabled units whose requirements it holds is the set of units whose transitive requirements are all enabled. |
| `ReconcileLoops.ConsumersStopped` | rte/reconciler.go:183-207 | When no consumer in the stop graph failed to stop, no live unit requires the unit whose turn it is: this needs the restart set closed upwards over the new and the recorded requirements. |
| `ReconcileLoops.StopIsLegal` | rte/reconciler.go:209-216 | Hence the Stop call at that point is legal, whatever subset of earlier stops failed. |
| `ReconcileLoops.StartIsLegal` | rte/reconciler.go:231-257 | Requirements shown Running make Update and Start legal. |
| `ReconcileLoops.StartedConsistent` | rte/reconciler.go:226-271 | Every outcome of the start loop leaves the records in agreement with the history, and publishes exactly the units it reports. |
| `ReconcileOutcome.StopGraphIsFine` | rte/reconciler.go:127-137 | The mix of recorded and desired requirements used for stopping is known and acyclic, so the error return at line 136 cannot be reached. |
| `ReconcileOutcome.RestartCoversRecorded` | rte/reconciler.go:173-187 | The restart set closed over the desired requirements is closed over the recorded ones as well. |
| `ReconcileOutcome.Converges` | rte/reconciler.go:220-273 | Without failures exactly the eligible units end up live, each with its desired declaration and revision. |
| `ReconcileOutcome.SettledStays` | rte/reconciler.go:149-219 | When the live units are the eligible ones at the desired requirements and revisions and no owner has exited, nothing needs stopping or starting. |
| `ReconcileOutcome.RestsOnceConverged` | rte/reconciler.go:94-274 | After a successful reconciliation a second one with the same requirements, enablement and revisions calls no Start and no Stop, whatever callbacks its declarations carry. |
| `ReconcileOutcome.RestartIsCaused` | rte/reconciler.go:173-187 | Every unit marked for restart requires, directly or not, one that is disabled, was pending a stop, was reported exited, or is live with another revision or other requirements - or is such a unit itself. Other callbacks are no cause. |
| `ReconcileOutcome.CausesTakeEffect` | rte/reconciler.go:151-219 | Conversely every live unit with such a cause, or requiring one that has it, is stopped, or kept because its own Stop or that of a consumer failed. |
| `ReconcileOutcome.OwnerLeaves` | rte/reconciler.go:209-218 | A unit ceases to be live only by a successful Stop of its own. |
| `ReconcileOutcome.DeclaredRun` | rte/reconciler.go:115-122 | Without failures exactly those declared units run that are enabled with all their transitive requirements, each as declared, and nothing that is no longer declared. |
| `ReconcileOutcome.UnitsOfMeans` | rte/reconciler.go:100-110 | A well-formed list declares each of its units under its own ID, and nothing else. |
| `ReconcileOutcome.ShownAll` | rte/reconciler.go:192-271 | The state published for each unit and the calls made for it: Running only after all its callbacks succeeded; Stopped when disabled and Blocked while a requirement does not run, unless a failed stop keeps it; Failed or Stopping after its own failures, and no call for a unit that may not run. |
| `ReconcileOutcome.PlacedAll` | rte/reconciler.go:220-272 | Failures stay local: an enabled unit whose requirements run is running too, unless its own callback failed, the context ended, or a consumer would not stop. |
| `ReconcileOutcome.InvariantSurvives` | rte/reconciler.go:115-137 | Across any sequence of reconciliations the recorded requirements stay declared and the live units acyclic. |
| `ReconcileRefusal.RefusedExactly` | rte/reconciler.go:115-126 | Declarations that are in order themselves are refused by the second ordering exactly when the removed units, under their last recorded requirements, require each other in a cycle. |
| `ReconcileRefusal.LiveRemovalAccepted` | rte/reconciler.go:115-126 | Removing units that are all live is never refused: such a cycle needs a unit that is not running. |
| `ReconcileRefusal.FirstRun` | rte/reconciler.go:149-272 | A reconciliation a new reconciler can go through, step by step: A requires B, the update of B fails, A waits, and both stay recorded. |
| `ReconcileRefusal.SecondRun` | rte/reconciler.go:149-272 | One it can go through next: A, declared without requirements, fails to update and keeps its old record; B, disabled, comes to require A. |
| `ReconcileRefusal.RemovalRefused` | rte/reconciler.go:115-126 | After these two all that the reconciler keeps holds, neither unit is live, and yet the removal of both is refused for a cycle. |
| `PortWiring.BuildWiring` | rte/rte.go:205-278 | A build succeeds exactly when every configuration is accepted, every offered port is valid and unique, every requirement is valid, not repeated, and met by a compatible offer or optional, and no component needs itself; the order then puts providers before users. |
| `PortWiring.Gather` | rte/rte.go:211-228 | The provider map is built exactly when every configuration is accepted and no port is offered twice, and lists exactly the offered ports. |
| `PortWiring.CheckDemands` | rte/rte.go:230-252 | A component's requirements pass exactly when each is served. |
| `PortWiring.ServedBy` | rte/rte.go:239-250 | Looking up the one provider decides whether any offer is compatible. |
| `ComponentRuntime.Runtime.StartAll` | rte/rte.go:314-429 | Afterwards every component runs, has failed, or is blocked by a required provider that does not run; what already ran is unchanged; every running component's captured ports equal the live bindings. When nothing fails, every component runs. |
| `ComponentRuntime.Runtime.Launch` | rte/rte.go:334-426 | A component captures its ports before Init; it runs with all offered ports bound, or has failed and lost them all, and its clean-up Stop is made only while nothing that uses it holds resources. |
| `ComponentRuntime.Runtime.Start` | rte/rte.go:305-312 | Start works once, and not after a stop. |
| `ComponentRuntime.Runtime.Affected` | rte/reconcile_components.go:24-48 | The closure loop computes the least set that contains what disappears or does not run and everything whose provider, optional ones included, changes or is affected. |
| `ComponentRuntime.Runtime.Drain` | rte/reconcile_components.go:56-79 | Affected components are stopped users first; a failing drain or Stop ends the attempt with everything else intact. |
| `ComponentRuntime.Runtime.ReconcileComponents` | rte/reconcile_components.go:15-98 | Whether the exchange completes or a drain cuts it short: only the least affected set was touched, and every running component sees the live bindings of all it requires while its non-optional providers run. It is refused, without effect, exactly when the context has ended, the runtime is stopping, or the build is missing, started already or of another account. |
| `ComponentRuntime.Runtime.Resolve` | rte/rte.go:439-449 | Looking a port up over the published components answers the live binding of its running provider, and nothing exactly when there is none (or another component was asked for). |
| `ComponentRuntime.Runtime.Stop` | rte/rte.go:481-541 | Over any number of failed attempts a component's Stop is made only when nothing that uses it holds resources, and once the runtime is stopped each component that held resources at the first attempt has had exactly one successful Stop. |
| `ComponentRuntime.Runtime.InvokeStop` | rte/rte.go:522-531 | The condition under which a component's Stop may be called. |
| `HostState.StartStep` | rte/rte.go:320-427 | One round of the start loop keeps every running component in agreement with the live bindings, because what it uses has had its turn. |
| `HostState.DrainStarts` | rte/reconcile_components.go:49-55 | No component outside the closed set uses one inside it, so marking the set keeps all others in agreement. |
| `HostState.DrainStep` | rte/reconcile_components.go:61-78 | Deleting one drained component's ports is not seen by any running component. |
| `HostState.SwapIsReady` | rte/reconcile_components.go:80-91 | After a complete drain and the swap of instances, providers and order, kept components still agree with the bindings under the new providers. |
| `HostState.NoUserYet` | rte/rte.go:410-421 | When a component has its turn to start, nothing that uses it holds resources. |
| `ChunkPlan.BuildJobs` | app/http/session.go:187-216 | The plan in closed form: one job per 1 MiB window the range touches, from and to exactly the positions of the range in it, each aligned to 1 KiB and admissible to the server. |
| `ChunkPlan.JobStep` | app/http/session.go:195-213 | One round of the planning loop yields the planned, admissible job; every number stays within one alignment of the end of the range. |
| `ChunkPlan.PlanIsContiguous` | app/http/session.go:187-216 | The jobs cover the range from its first to its last byte, each beginning where the one before ended. |
| `ChunkPlan.AlignedNeighbours` | app/http/telegram_source.go:273-288 | Rounding down gives the largest multiple not above a position, rounding up the next one above it. |
| `ChunkPlan.SliceIsPlanned` | app/http/telegram_source.go:262-271 | Slicing any (possibly short) answer to a planned request yields exactly the planned bytes of the file, or nothing. |
| `ChunkPlan.WriteFull` | app/http/session.go:362-375 | Everything is taken, or a prefix and an error; an error comes exactly from a call that failed or took nothing. |
| `ChunkPlan.StreamSequentially` | app/http/session.go:222-257 | Success means that exactly bytes start..end of the file were written, any error that a prefix of them was; with a faithful server and sink it succeeds on every range inside the file. |
| `ParallelStream.StepKeeps` | app/http/session.go:263-360 | Every step of dispatcher, workers and writer, failures and cancellation included, keeps the invariant of the pool. |
| `ParallelStream.OutputInOrder` | app/http/session.go:324-359 | Over all interleavings the output is the in-order concatenation of the chunks before `next` (plus a part of one after a failed write); success means all of them, and the unexpected-EOF return is unreachable. |
| `ParallelStream.OutputGrows` | app/http/session.go:324-348 | Only the writer adds to the output: the next chunk of the plan, or exactly the part of it that a failing write still took. |
| `ParallelStream.UnwrittenBounded` | app/http/session.go:258-322 | The unwritten jobs are exactly next..dispatched-1, each held by exactly one worker, so never more than the pool. |
| `ParallelStream.AllWritten` | app/http/session.go:349-359 | When all workers are gone without an error every job has been written. |
| `ParallelStream.SomeStepEnabled` | app/http/session.go:271-345 | No deadlock: until the stream returns, some step other than a failure or a cancellation is possible. |
| `ParallelStream.RunIsBounded` | app/http/session.go:271-345 | Every run ends: it has at most 5 * jobs + workers + 4 steps. |
| `ParallelStream.CompletesInOrder` | app/http/session.go:263-360 | Without failures every maximal run returns nil with the whole content written in order. |
| `ParallelStream.NoWorkersStall` | app/http/session.go:271-285 | With an empty pool nothing but a cancellation can happen: the pool must hold a worker. |
| `ParallelStream.StreamsTheRange` | app/http/session.go:263-360 | For a download plan, a successful run has written exactly the requested range of the file. |
| `SourceRegistry.Registry.Acquire` | app/http/session.go:117-133 | A request shares the registered source of its task, or registers a new one; counts stay equal to the number of unreleased handles. |
| `SourceRegistry.Registry.Release` | app/http/session.go:142-156 | Only the first release of a handle counts, and it always finds the entry it was taken from. |
| `SourceRegistry.Registry.CleanupIdle` | app/http/session.go:158-173 | Removes exactly the sources without handles that have been idle long enough, and counts them. |
| `DeliveryCoverage.NormalFormUnique` | app/http/delivery_status.go:128-168 | Two sorted, gap-separated lists of ranges that cover the same bytes are equal. |
| `DeliveryCoverage.Compact` | app/http/delivery_status.go:155-167 | The in-place compaction never overwrites a range it has yet to read, and leaves the normal form of what was covered. |
| `DeliveryCoverage.Normalize` | app/http/delivery_status.go:133-145 | Clipping drops exactly what lies outside the file. |
| `DeliveryCoverage.SortSorts` | app/http/delivery_status.go:148-153 | Sorting by start and end keeps the ranges and their multiplicity. |
| `DeliveryCoverage.MergeRanges` | app/http/delivery_status.go:128-168 | For every list of ranges and every size the result is the normal form of the covered part of the file. |
| `DeliveryCoverage.FullCoverage` | app/http/delivery_status.go:104-105 | A normal form is one range from 0 to the last byte, or the file empty, exactly when the whole file is covered. |
| `DeliveryCoverage.TaskRecord.RecordDelivery` | app/http/delivery_status.go:67-126 | One report: a negative size is refused, a new size forgets the old file, a completed record stays, and otherwise the record holds the union and completes exactly at full coverage. |
| `DeliveryCoverage.TotalIsCount` | app/http/delivery_status.go:59-61 | The lengths of a normal form add up to the number of distinct bytes covered. |
| `DeliveryCoverage.ParseStatus` | app/http/delivery_status.go:40-63 | The delivered count equals the number of distinct bytes delivered, whatever ranges are stored. |
| `DeliveryCoverage.RecordHoldsUnion` | app/http/delivery_status.go:94-112 | After any sequence of reports for one size the record holds exactly their union. |
| `DeliveryCoverage.OrderDoesNotMatter` | app/http/delivery_status.go:64-66 | Reports in any order and grouping leave the same ranges and the same completion. |
| `DeliveryCoverage.DeliveredNeverFalls` | app/http/delivery_status.go:94-112 | A report for the same size never loses delivered bytes, so the count never falls. |
| `DeliveryCoverage.ReportCounts` | app/http/delivery_status.go:88-112 | After a report with another file size only the bytes of that report count as delivered; with the same size they come on top of those before, and a completed record stays as it is. |
| `RangeHeader.ParseRanges` | application/proxy.range/handler.go:330-395 | Each answer under its exact condition: bad length, no header, bad unit, a malformed part, no part that selects a byte (416), or the ranges of the satisfiable parts in order. |
| `RangeHeader.PartMeans` | application/proxy.range/handler.go:344-390 | A part denotes its form of RFC 9110, section 14.1.2, clipped to the file; it is malformed exactly when it has no form and its first position is not past the end (where the code is more lenient). |
| `RangeHeader.BytesInAnyCase` | application/proxy.range/handler.go:336-340 | The unit is `bytes` in any mixture of ASCII cases - or with the long s, which case folding identifies with the letter s. |
| `RangeHeader.LenientPart` | application/proxy.range/handler.go:371-385 | A part whose last position is no number has no form, and yet counts as unsatisfiable exactly when its first position is not inside the file. |
| `RangeHeader.RangesAreSelected` | application/proxy.range/handler.go:359-390 | Every resulting range lies inside the file and is exactly what some part of the header selects. |
| `RangeHeader.RoundTrip` | application/proxy.range/handler.go:330-395 | Rendering any ranges inside the file as a header and parsing it gives the same ranges back. |
| `RangeHeader.SizeExceeds` | application/proxy.range/handler.go:397-407 | True exactly when the lengths sum to more than the size; the running total never exceeds the size. |
| `Decimal.ParseOfFormat` | application/forward.rules/rules.go:139-140 | Parsing a printed int64 gives it back. |
| `MessageClaims.StepKeeps` | application/forwarder/message_router.go:256-304 | Every step of every caller keeps the protocol's invariant under a monotone clock. |
| `MessageClaims.SingleHolder` | application/forwarder/message_router.go:264-293 | At most one call per key is between its claim and its release. |
| `MessageClaims.PendingNeverEvicted` | application/forwarder/message_router.go:270-274 | A pending claim is taken back only by its own call. |
| `MessageClaims.DoneClosedOnce` | application/forwarder/message_router.go:295-302 | Each `done` channel is closed once, by the call that made it. |
| `MessageClaims.SuccessesApart` | application/forwarder/message_router.go:295-301 | Two successful enqueues of one key are at least the earlier one's time to live apart. |
| `MessageClaims.NilMeansAccepted` | application/forwarder/message_router.go:275-303 | A call returns nil only if it persisted the message itself or met a claim that had been released as accepted by then and had not expired. |
| `MessageClaims.AttemptIsAnswered` | application/forwarder/message_router.go:264-293 | In every run an attempt returns nil exactly when its key holds an accepted, unexpired claim, sleeps on the owner of a pending one, and otherwise makes the claim its own; it disturbs no other call and no claim but expired ones. |
| `MessageClaims.ReleaseIsSeen` | application/forwarder/message_router.go:295-302 | In every run a release after a success accepts the claim for the call's time to live, one after a failure frees the key, and either way the sleeping calls can go on. |
| `MessageClaims.ResultsAreAccounted` | application/forwarder/message_router.go:260-303 | In every run a call ends cancelled only if its own context ended, failed only if its own enqueueing failed, and persisted only if that succeeded. |
| `MessageClaims.SomeCallCanMove` | application/forwarder/message_router.go:281-288 | No lost wake-up: a call that has not returned can move itself, or it sleeps and the busy owner of its key, whose release wakes it, can. |
| `MessageClaims.ClaimTable.EvictExpired` | application/forwarder/message_router.go:270-274 | The eviction loop removes exactly the expired accepted claims. |
| `MessageClaims.ClaimTable.Attempt` | application/forwarder/message_router.go:268-293 | One critical section does to the claims and the call what the protocol's step does; `AttemptIsAnswered` says what that is. |
| `MessageClaims.Gate.Done` | application/forwarder/message_router.go:75-86 | The last admission to end after a stop closes `drained`, once. |
| `MessageClaims.Gate.Stop` | application/forwarder/message_router.go:89-105 | After a stop `drained` is closed exactly when nothing is active; stopping again is harmless. |
| `ForwardQueue.JobStore.Update` | application/forwarder/queue.go:312-334 | The change reaches exactly the named jobs it applies to, once each, and the counts are exact. |
| `ForwardQueue.JobStore.Recover` | application/forwarder/queue.go:414-434 | Every job left Running is queued again, nothing else changes. |
| `ForwardQueue.JobStore.PickNext` | application/forwarder/queue.go:447-466 | The oldest eligible job, the first listed among equals; none exactly when none is eligible. |
| `ForwardQueue.JobStore.Prune` | application/forwarder/queue.go:468-495 | A finished job stays exactly when it is not expired and among the newest `history`, ordered by time and then by the store's order; unfinished jobs stay. |
| `ForwardQueue.RanksAre` | application/forwarder/queue.go:470-482 | Collecting and stable sorting list each finished job once, at the place that counts the finished jobs before it. |
| `ForwardQueue.BackoffDelay` | application/forwarder/config.go:106-118 | The delay doubles up to the maximum without ever exceeding it on the way. |
| `ForwardQueue.BackoffGrows` | application/forwarder/config.go:106-118 | Attempts are spaced ever wider, between base and maximum. |
| `ForwardQueue.RetryWaits` | application/forwarder/queue.go:577-591 | A failed job that is to be retried can be picked again exactly when its delay has passed, and a later attempt never waits less. |
| `ForwardQueue.UniqueIds` | application/forwarder/queue.go:649-664 | Each non-empty ID once and nothing else, in order of first appearance. |
| `ForwardQueueRuns.StepKeeps` | application/forwarder/queue.go:364-611 | Every action of users, worker and process keeps the queue's invariant. |
| `ForwardQueueRuns.SingleFlight` | application/forwarder/queue.go:504-525 | At most one job is Running, and only for the worker's current run or for a process that is gone. |
| `ForwardQueueRuns.StaleRunIsHarmless` | application/forwarder/queue.go:527-598 | A progress report or a conclusion writes only to the very record that was claimed, never to one stored since, and stores or removes nothing. |
| `ForwardQueueRuns.RemovedStaysRemoved` | application/forwarder/queue.go:554-598 | No action brings a removed record back; only enqueueing stores a new one. |
| `ForwardQueueRuns.SettledStatus` | application/forwarder/queue.go:250-279 | A done job stays as it is; a paused or failed one is left only by Resume. |
| `ForwardQueueRuns.FinishRecords` | application/forwarder/queue.go:560-598 | In every run the end of a job's run writes its record alone, if still Running: Done with all progress exactly if the transport had succeeded, queued again uncounted exactly if it had been cancelled, and with one failure more exactly if it had failed - in error exactly when that reaches the limit, otherwise due again after the delay. |
| `ForwardQueueRuns.ActionsMean` | application/forwarder/queue.go:250-310 | What every other action makes of every record: pausing, resuming, deleting, enqueueing, recovering, claiming and reporting reach exactly the records they apply to and change what they should. |
| `ForwardQueueRuns.StatusIsEarned` | application/forwarder/queue.go:504-586 | A record becomes Done only at the end of a run that succeeded, Error or Retrying only after one that failed, Running only by a claim, Paused only by a pause, Queued only by enqueueing, resuming, recovery or a cancelled run. |
| `ForwardQueueRuns.VerdictIsReturned` | application/forwarder/queue.go:527-560 | The verdict a run is concluded with is what the transport returned last. |
| `ForwardQueueRuns.RemovedOnlyOnPurpose` | application/forwarder/queue.go:283-310 | Only deletion removes an unfinished job; pruning removes finished ones. |
| `ForwardQueueRuns.RunsCounted` | application/forwarder/queue.go:560-586 | Since it was stored or resumed, a job's runs are its counted failures plus the runs without a verdict plus the one under way or done; a job in error was run no more often than the limit exactly when every run got a verdict. |
| `ForwardQueueRuns.RunsBounded` | application/forwarder/queue.go:560-586 | When every run gets a verdict, a job is run at most `attempts` times. |
| `ForwardQueueRuns.LimitNeedsVerdicts` | application/forwarder/queue.go:569-572 | A run in which the limit is exceeded: a transport that returns `context.Canceled` of its own accord has the job claimed again without a counted attempt. |
| `ForwardRules.PrepareConfig` | application/forward.rules/rules.go:55-129 | Rules are malformed exactly when a limit, ID, mode or reference is wrong; accepted rules compile to the routes they describe, without a cycle; a reported cycle is one. |
| `ForwardRules.CheckRule` | application/forward.rules/rules.go:68-84 | The checks on one rule decide exactly whether it is fine and its ID new. |
| `ForwardRules.ValidRefMeans` | application/forward.rules/rules.go:131-141 | Exactly the references kind:number with a positive int64 in its shortest form, or the account itself as a target. |
| `ForwardRules.AddRule` | application/forward.rules/rules.go:80-101 | The nested loops add each new destination once, for every source of the rule. |
| `ForwardRules.MergedAreFirsts` | application/forward.rules/rules.go:91-100 | The compiled list holds the first destination for each target, in order of first appearance. |
| `ForwardRules.DestinationsMean` | application/forward.rules/rules.go:143-149 | The destinations of a source are, once each, exactly the targets of the enabled rules naming it, with ID, mode and silence of the first such rule. |
| `DownloadPipeline.Submission.SubmitPrepared` | application/download.control/pipeline.go:211-294 | Whatever adapters answer or panic: every executor but the last one entered has definitely rejected the item; its class is the one that executor's answer makes of it, failed only if that one has rejected it too and uncertain only if it has not. Executors are tried fairly in the order of the route; the target file is compared exactly if the settings say so, and an equal one is exactly what makes an item skipped without an adapter; without trouble only rejection by all executors fails an item. |
| `DownloadPipeline.Submission.Route` | application/download.control/router.go:51-88 | Only a definite rejection without an ID lets the next executor be tried; the final rejection means that all of them rejected. |
| `DownloadPipeline.Submission.Link` | application/download.control/router.go:25-33 | The link executor answers the registered source itself, and otherwise nothing. |
| `DownloadPipeline.Submission.Offer` | application/download.control/pipeline.go:241-285 | One executor: entered, or passed over for a reason that is stated. |
| `DownloadPipeline.Service.PrepareBatch` | application/download.control/pipeline.go:140-209 | An item is planned exactly if the context was live, the filter allowed it, it is submittable and some rendered name is not empty; an item the settings exclude is skipped, every other one failed, each counted once. Names are rendered exactly for the executors of the route, and the k-th unique name goes to the k-th plan with a local target. |
| `DownloadPipeline.Service.Plans` | application/download.control/pipeline.go:141-181 | The first loop: exactly the wanted items are planned, in order, under the name rendered for them, and exactly the items excluded by the settings are skipped. |
| `DownloadPipeline.Service.Rename` | application/download.control/pipeline.go:196-208 | The last loop: the k-th plan with a local target takes the k-th unique name, or all of them are marked failed; nothing else of a plan changes. |
| `DownloadPipeline.Service.SubmitAll` | application/download.control/pipeline.go:77-93 | Each plan is submitted once, in whatever order, and dealt with honestly. |
| `DownloadPipeline.Service.Tally` | application/download.control/pipeline.go:94-105 | Each outcome lands in exactly one of the four counters. |
| `DownloadPipeline.Service.SubmitBatch` | application/download.control/pipeline.go:65-113 | Total = queued + skipped + failed + uncertain, also without a registration and for an empty batch; exactly the wanted items are submitted, in their order, and the skipped ones are those excluded by the settings and those submitted and skipped. |
| `WakeQueue.StepKeeps` | application/downloader.local/worker.go:180-292 | Every step of senders, loop and attempts, over worker restarts, keeps queued and active disjoint, one attempt per active ID, and no queued ID forgotten. |
| `WakeQueue.OneAttemptEach` | application/downloader.local/worker.go:196-206 | An ID has at most one attempt, and is never queued and active at once. |
| `WakeQueue.QueuedIsOnItsWay` | application/downloader.local/worker.go:245-272 | A queued ID is in the channel, about to be sent, or just received, and not active. |
| `WakeQueue.ComesCloser` | application/downloader.local/worker.go:188-207 | While the worker runs and is not ending, a step of its loop or of the ID's sender is possible that begins the attempt of a queued ID or brings it closer. |
| `WakeQueue.QueuedIsServed` | application/downloader.local/worker.go:188-207 | So a queued ID cannot get stuck: every such run can be continued, by steps of the loop and of senders alone and in a bounded number of them, to an attempt of the ID. |
| `WakeQueue.TrackedExactly` | application/downloader.local/worker.go:245-272 | Throughout a run the channel holds no ID twice and only queued ones if and only if no step of the run spoils it. |
| `WakeQueue.ChannelTracked` | application/downloader.local/worker.go:245-272 | In particular it does if every start of the worker finds the senders of earlier runs gone. |
| `WakeQueue.SpoiledExactly` | application/downloader.local/worker.go:263-271 | A step spoils the channel's bookkeeping if and only if it is a failing sender of an earlier run whose ID the present run has queued. |
| `WakeQueue.LateSenderSpoils` | application/downloader.local/worker.go:258-271 | A run in which that happens: a sender left over from a full channel lets the channel of the next run hold an ID twice. |
| `WakeQueue.CopyDropped` | application/downloader.local/worker.go:274-286 | A received copy of an ID is dropped exactly when an attempt for the ID is in progress at that moment; afterwards one is in either case. |
| `WakeQueue.SecondCopy` | application/downloader.local/worker.go:274-292 | From there the second copy is dropped if it is received while the first attempt runs, and begins another attempt if that one has ended. |
| `WakeQueue.ChannelBalance` | application/downloader.local/worker.go:245-292 | In every run each channel, the present one and those of earlier starts, holds exactly as many wake-ups as were sent to it and not received, never more than its capacity. |
| `WakeQueue.Slots.Queue` | application/downloader.local/worker.go:246-261 | The first critical section of `queueID`: sent exactly when running and neither queued nor active. |
| `WakeQueue.Slots.Unqueue` | application/downloader.local/worker.go:265-271 | The second critical section of `queueID`, on a full channel: the ID leaves whatever set is current by then. |
| `WakeQueue.Slots.MarkRunning` | application/downloader.local/worker.go:274-286 | An ID leaves the queued set and becomes active unless it was. |
| `LocalWorker.StepKeepsInv` | application/downloader.local/worker.go:294-437 | Every step of attempts, users, recovery and the queue keeps the invariant over records and execution identities. |
| `LocalWorker.AttemptRespectsUsers` | application/downloader.local/worker.go:439-487 | An attempt changes only its own record, only while it is neither paused, removed nor complete, and only if no restart or re-creation has come between since the attempt loaded it - but for `Overlooks`. |
| `LocalWorker.OverlooksExactly` | application/downloader.local/worker.go:489-497 | In every run a step of an attempt changes a record restarted or re-created meanwhile if and only if the attempt loaded it while the record had no start stamp (never started, or restarted since its last start), the record still has the same creation stamp and no start stamp, is due to run, and the step claims it, completes it or, unless it is in error already, fails it. |
| `LocalWorker.RestartOverlooked` | application/downloader.local/controller.go:125-150 | A run in which that happens: a task paused and restarted while its first attempt still prepares is put into error by that attempt. |
| `LocalWorker.AttemptsRespectUsers` | application/downloader.local/worker.go:365-377 | The same over all interleavings of attempts, users, recovery and worker restarts. |
| `LocalWorker.AttemptsMean` | application/downloader.local/worker.go:294-487 | In every run what each step of an attempt makes of its record, if that is still its own, and of nothing else: a claim leaves it active with a new start stamp, a completed stream complete with all bytes, a failure in error, a flush its progress; otherwise the record stays as it is. |
| `LocalWorker.UsersMean` | application/downloader.local/controller.go:125-195 | In every run what users and the controller make of a record: a pause leaves it paused unless complete or removed, a restart queued without a start stamp, a refresh at the size on disk - complete when that is the whole file - and so on; other records stay. |
| `LocalWorker.StatusIsEarned` | application/downloader.local/worker.go:365-487 | A record turns complete only at the end of its stream or by a refresh that finds the whole file, active only by a claim, in error only by a failing attempt, paused only by a pause, queued only by creation, restart or recovery. |
| `LocalWorker.PausedStaysPaused` | application/downloader.local/controller.go:125-195 | A pause is ended only by a restart or a deletion; a removed record is not changed any more, a complete one stays complete. |
| `LocalWorker.CheckStopsWriter` | application/downloader.local/worker_writer.go:54-70 | In every run, at its next check a writer goes on exactly while its record is there, belongs to the very creation or restart that the attempt claimed, and is neither paused nor removed. |
| `LocalWorker.OneExecution` | application/downloader.local/worker.go:274-292 | At any moment an ID has at most one attempt under way, over any number of worker restarts. |
| `UniqueNames.MakeUnique` | application/naming.rules/unique.go:13-52 | Pairwise different folded paths, in input order, each item under the first name still free; apart from missing settings and cancellation it fails only for an item whose number and extension do not fit. |
| `UniqueNames.Rename` | application/naming.rules/unique.go:29-51 | The loop ends with the first candidate whose path is free, or at the first number for which there is no room. |
| `UniqueNames.TriedCount` | application/naming.rules/unique.go:29-51 | Where numbers tell paths apart, as `NumbersDiffer` shows they do, the loop tries at most two more names than keys are taken: it terminates. |
| `UniqueNames.RenamedFits` | application/naming.rules/unique.go:40-50 | A renamed leaf keeps its number and extension and fits the byte limit. |
| `UniqueNames.FreeNameKept` | application/naming.rules/unique.go:29-39 | An item whose path nothing before it has taken keeps its name. |
| `UniqueNames.RenderedNameKept` | application/naming.rules/unique.go:33-37 | The rendered name keeps its directories and ends in the new leaf; the directory and the limit of the item stay. |
| `UniqueNames.NamedOrUnnameable` | application/naming.rules/unique.go:42-47 | An item that can be named is never refused. |
| `UniqueNames.Truncate` | rte/targetpath/path.go:67-80 | The longest prefix of at most the given number of bytes that splits no rune. |
| `UniqueNames.NumbersDiffer` | application/naming.rules/unique.go:30-50 | On Unix and on Windows, for every directory, all stems and every extension a name can have, leaves with different numbers have different keys after joining, cleaning and lower-casing. |
| `TargetPaths.JoinTargetEnds` | rte/targetpath/path.go:114-147 | A joined path ends in its trimmed leaf, unless that is empty or made of dots. |
| `TargetPaths.JoinTargetPlain` | rte/targetpath/path.go:114-147 | A plain leaf is placed below its directory after the separator that directory uses. |
| `TargetPaths.CleanIsIdempotent` | application/naming.rules/unique.go:31-32 | On Unix cleaning a cleaned path changes nothing, so a path and its cleaned form have one key. |
| `TargetPaths.LeafPrefixMeans` | rte/targetpath/path.go:37-43 | A rendered name is split at its last slash or backslash. |
| `TargetPaths.CleanEnds` | application/naming.rules/unique.go:31-32 | On Unix and on Windows lexical cleaning, volumes included, keeps what the last path element ends in. |
| `TargetPaths.KeyEnds` | application/naming.rules/unique.go:31-32 | Joining, cleaning and lower-casing together keep the end of a leaf. |

## Left out

- Telegram, aria2, bot, websocket and HTTP transports, JSON, key-value storage, logging, messages and health texts: foreign calls become answers that may be anything; stored records are maps with atomic updates.
- Store failures: the forward queue and the local worker are modelled over a store whose updates succeed or leave the record as it is; a store that fails while recovering would leave an old job Running.
- Unit health probes: `Running()` is assumed never to report true for an instance that the reconciler has not started (line 169 of `rte/reconciler.go` would adopt it).
- ResourceReconciler.Reconciler.Reconcile: the order of the roots (`sort.Strings`) and the order of the health snapshot are not modelled; any order of the roots is covered.
- PortWiring.BuildWiring: which configuration values a schema rejects is given, not computed; a missing account and unknown component names, checked before, are not modelled.
- ComponentRuntime.Runtime.ReconcileComponents: an ID is assumed to keep its manifest from one build to the next, as `ReconcileSaved` guarantees; configuration values, event buses and runnables appear only as drains that may fail.
- ComponentRuntime.Runtime.Launch: which of factory, Init, port check and Start failed is not distinguished, and panics are failures.
- ChunkPlan.BuildJobs: integers are unbounded; each number is at most one window beyond the end of the range, so int64 does not overflow for files that end a window below its maximum.
- ChunkPlan.Server.FetchChunk: retries, back-off and file-reference refresh inside one fetch are not modelled; a fetch answers a prefix of the requested bytes or fails.
- ParallelStream: a fetch is assumed to answer in the end, and the closing of a `written` channel of a worker that has already left is not represented.
- DeliveryCoverage.Sort: the library sort is represented by insertion; with a total order every correct sort gives the same list.
- RangeHeader.ParseRanges: headers are valid UTF-8; multipart encoding, ETag hashing and the HTTP handler around it are not modelled.
- MessageClaims.StepKeeps: peer resolution, the lookup cache and the fan-out over several destinations are left out; a panic inside `enqueueMessage` is not modelled.
- ForwardQueueRuns.RunsBounded: the policy is fixed for the run; message and progress fields other than `done` are left out, and a transport reports progress only for its own job.
- ForwardRules.PrepareConfig: which rule an error message names is not modelled, only that there is an error.
- DownloadPipeline.Service.SubmitBatch: workers are represented by submitting the plans one at a time in any order, as submissions share no state; the texts of joined errors are reduced to whether they carry `ErrDownloadNotAccepted`.
- DownloadPipeline.Service.PrepareBatch: the file name that the naming component answers is any string.
- LocalWorker.OverlooksExactly: the error text and the speed of a record are not modelled, so a failing attempt that only rewrites those, on a record in error already, counts as no change.
- LocalWorker.StepKeepsInv: creation and claim stamps are assumed to differ, as those of a strictly increasing clock do; speeds, paths and the files on disk are left out.
- UniqueNames.MakeUnique: of Windows volumes, drive letters and shares are modelled, the device prefixes `\\.\`, `\\?\` and `\??\` are not; lower-casing is any map of characters that leaves those below the letter A alone. Names are valid UTF-8.
- Web pages, manifests, commands, aria2 governors, login flows and the configuration manager: no property beyond single functions.
- Real time, tickers and the scheduling of goroutines: replaced by a monotone clock and arbitrary interleaving.
