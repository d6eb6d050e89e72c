# Verification of vage

This project models the state machines and algorithms of the vage agent framework in Dafny and proves properties of them
over every input, every run and every interleaving. `dafny verify dfyconfig.toml` checks all of it.

## What is modelled

**The DAG executor** (`Graph`, `Topo`, `Cycle`, `Validate`, `CriticalPath`, `DagState`, `Inputs`, `DagInvariant`,
`Executor`, `Compensation`, `Resource`, `Backpressure`). `Executor` is the event loop with its fields, changed step by
step; node goroutines are atomic steps (launch, send a completion), taken in any order between the loop's own steps.
`DagInvariant` holds the invariant, one lemma per kind of step. The main results: a run ends with everything drained,
and an undisturbed one ends with the only result there is, which is what a plain sequential evaluation in any dependency
order gives. `DagState` gives that sequential reading, and `Inputs` says of the callbacks alone what each node is run on
and how it must end. Runners, conditions, mappers and recovery are arbitrary functions; retries are folded into the
runner. `Resource` and `Backpressure` are the two admission controls a launched node passes.

**The typed workflow** (`Order`, `Merge`, `Conflicts`, `Batch`, `Depth`, `Schedule`, `Commits`). Batches run under any
interleaving, concurrency cap and moment of cancellation; map iteration visits in any order. Node functions are
functions of the snapshot; under a cancelled context a node may end in any way, or, if the workflow is called polite,
only as it would anyway or with a cancellation error. A setter touches only its own field (`workflow/state.go:31-34`).

**The interrupt store and the resume protocol** (`Interrupt`, `Record`, `Store`, `MapStore`, `FileStore`, `Resume`,
`ResumeHistory`, `Policy`, `React`). `Interrupt` specifies the transitions of one record and proves what whole histories
keep; `Record` does them in place. `FileStore` is the lock, read, compute, write-beside, rename and unlock steps of any
number of processes, with a crash possible between any two, refined to the atomic calls in `Store`. `Resume` interleaves
resumers over the store, one store call at a time. `React` is the model-and-tools loop with its suspension and
resumption; model, policy and tools are arbitrary functions.

**Context budgeting** (`ContextBuilder`, `Prompts`, `Compressors`). Token estimates are natural numbers, scores
integers.

**Memory keys** (`Base64Url`, `MemoryViews`). Keys and ids are byte sequences. Views over one flat store refine one map
per identity.

A caller's context (`Context`) is a function that says of each moment whether it is found cancelled then.

## Assumptions

- Lease owner tokens are unique, records are created with no decisions, and records that matter to a resumer are not
  deleted meanwhile. `Resume` lets time move forward only; `Interrupt` and `FileStore` let every call read any clock.
- `executeToolBatch` returns one result per call in call order, as it documents (`agent/taskagent/loop.go:251-257`).
- A guard may rewrite what a tool result says, not whose it is.
- In `Resource` runners finish. Tags may repeat; only where a result says so are they distinct and limits positive.
- `FileStore` merges the in-process mutex and the kernel lock into one lock that a crash releases; a rename is atomic.

## What the code does differently from what one might expect

- `ReleaseLease` does not look at the lease's expiry although `interrupt/store.go:110-118` says an expired lease is refused,
  and neither does `Complete` (`Interrupt.ExpiryIsNotChecked` says exactly when the two differ); a second `Complete` is
  answered `ErrLeaseNotOwned` where `interrupt/store.go:119-127` says `ErrAlreadyCompleted`.
- A submission rejected outright is answered with the record by the in-memory store and without it by the file store; in
  everything else two stores with the same history answer alike (`Store.StoresAgree`).
- A waiter of the backpressure controller that is cancelled after it was granted a slot leaks the slot. `acquire` has one
  caller, which gives every runner of a DAG the same context (`orchestrate/dag.go:449`, `orchestrate/dag.go:530`), so there
  this happens only once the whole run is cancelled and every waiter gives up; before that no slot is lost
  (`Backpressure.BeforeCancellation`). For waiters under contexts of their own, `Backpressure.StrandedIff` says exactly how
  many leaks can leave one of them with nobody to serve it.
- The second look at the queue in `release` (`orchestrate/backpressure.go:121-127`) never finds anyone.
- Runners that list a resource tag more than once can deadlock. `Resource.DeadlockIff` says exactly when, from the limits and
  the tag lists alone; with distinct tags never.
- The replay branch of `scheduleReady` (`orchestrate/dag.go:418-425`) is never taken: a node scheduled there is pending
  (`Executor.Executor.ScheduleFacts`).
- `toStoreDecisions` (`agent/taskagent/interrupt.go:563-569`) passes no Execute flag on, so decisions sent with a resume
  request never approve a handler (`React.ResumeNeverApproves`); those submitted to the store directly can.
- Which failing node of a workflow batch is reported can depend on the schedule: exactly if the batch has no single culprit
  (`Batch.ReportVariesIff`, `Schedule.NamesTwoIff`). With nodes that are polite under cancellation a batch has one if a
  single node fails, with an error of its own, or if the least node fails and no other does with an error of its own.
  That the batch fails, and with what state, does not depend on the schedule.
- A superseded batch can still be run. Once a successor exists, exactly those can come to run the old batch who looked for one
  before and then either have a lease for the batch, which nothing looks at again before the handlers run, even if it has
  run out and the old record is completed, or can still get one because the record is not completed (`Resume.StaleRunIff`;
  `Resume.StaleRun` and `Resume.OverdueRun` are runs of both kinds). While creators complete within their leases nobody
  does so under a running lease (`Resume.RunsUnsuperseded`).
- Where the backpressure limit can move at all, a newcomer can be served before those who wait: a release that raises the
  limit serves only one of them (`Backpressure.LoosensIff`, `Backpressure.OvertakeIff`).

## Model

| member | source | states |
|---|---|---|
| `Topo.BuildMaps` | orchestrate/topo.go:53-63 | the two maps agree with the declarations, a repeated dependency counted once per occurrence |
| `Topo.DownstreamCounts` | orchestrate/topo.go:53-63 | a dependent stands in a downstream list as often as it lists the dependency |
| `Topo.TopologicalSort` | orchestrate/topo.go:21-50 | on any graph with distinct ids and known dependencies: a duplicate-free, dependencies-first listing from which no node is missing whose dependencies are all listed |
| `Topo.KahnDecidesAcyclic` | orchestrate/topo.go:21-50 | the sort lists every node if and only if the graph has no cycle, and then the listing is a topological order |
| `Cycle.DetectCycle` | orchestrate/dag.go:651-692 | three-colour search: nothing is reported exactly on acyclic graphs, and a reported node lies on a cycle |
| `Cycle.Detector.Visit` | orchestrate/dag.go:663-683 | one exploration finishes its node with all dependents finished before it, or names a node on a cycle |
| `Cycle.FinishedOrders` | orchestrate/dag.go:651-692 | the finishing sequence read backwards is a topological order |
| `Graph.AcyclicHasSource` | workflow/graph.go:58-99 | every nonempty set of nodes of an acyclic graph has one that depends on no other of the set |
| `Validate.ValidateDAG` | orchestrate/orchestrate.go:245-271 | accepts exactly the graphs with distinct ids, known dependencies, no cycle and one component; each error names its evidence |
| `Validate.CheckConnected` | orchestrate/orchestrate.go:275-314 | the breadth-first search finds an unreachable node exactly when two nodes are not linked by dependencies taken both ways |
| `Validate.CheckUnique` | orchestrate/orchestrate.go:246-252 | reports an id exactly when two nodes carry it |
| `Validate.CheckKnown` | orchestrate/orchestrate.go:254-260 | reports a dependency exactly when some node names one that does not exist |
| `CriticalPath.Forward` | orchestrate/priority.go:106-123 | earliest start of a node is the number of edges on the longest chain that ends in it |
| `CriticalPath.Backward` | orchestrate/priority.go:133-152 | latest start of a node follows from the longest chain that begins in it |
| `CriticalPath.ProjectEnd` | orchestrate/priority.go:125-131 | the project end is the number of nodes on the longest chain of the graph |
| `CriticalPath.SlackMeaning` | orchestrate/priority.go:154-160 | slack is never negative and is zero exactly for nodes on a longest chain of the graph |
| `CriticalPath.ComputeCriticalPath` | orchestrate/priority.go:97-163 | the priority of every node is the number of nodes on the longest dependency chain through it |
| `Executor.Executor.constructor` | orchestrate/dag.go:114-227 | from any subset of restored nodes the counters, degrees and statuses satisfy the loop invariant |
| `Executor.RestoreDegrees` | orchestrate/dag.go:211-218 | restoring a checkpoint leaves in-degrees that count exactly the dependency occurrences not restored |
| `DagInvariant.Decrement` | orchestrate/dag.go:404-411 | taking one occurrence off a dependent pays one owed decrement and nothing else |
| `DagInvariant.SkipReady` | orchestrate/dag.go:427-440 | skipping a ready node whose condition fails keeps every part of the invariant |
| `DagInvariant.LaunchReady` | orchestrate/dag.go:448-449 | launching a ready node on the request made from its dependencies makes it owe exactly one completion, after all of them have ended, for the first time |
| `DagInvariant.ReportReady` | orchestrate/dag.go:442-447 | a node whose mapper fails reports its failure without being launched |
| `DagInvariant.Receive` | orchestrate/dag.go:242-246 | taking a completion out of the channel lowers the pending count by the node it belongs to |
| `DagInvariant.Settle` | orchestrate/dag.go:369-400 | a success settles the node with the result its definition demands |
| `DagInvariant.SkipFailed` | orchestrate/dag.go:361-365 | an optional failure ends as skipped, and rightly so |
| `DagInvariant.RoomToSend` | orchestrate/dag.go:195-195 | the completion channel never fills up: a sender always finds room |
| `DagInvariant.OwedCount` | orchestrate/dag.go:695-703 | running nodes and owed completions are equally many |
| `DagInvariant.NeverStuck` | orchestrate/dag.go:240-262 | while nodes are pending and the queue is drained, some completion is still to come |
| `DagInvariant.AllEnded` | orchestrate/dag.go:240-264 | when nothing is pending every node is Done or Skipped, nothing is in flight, and the results are the right ones |
| `DagInvariant.EndedAgree` | orchestrate/dag.go:292-400 | whatever has ended so far agrees with every complete result there can be |
| `DagInvariant.StopIsFinal` | orchestrate/dag.go:353-359 | a failure that stops one schedule stops all: no complete result exists |
| `Executor.Executor.PropagateDownstream` | orchestrate/dag.go:404-411 | pays all decrements a finished node owes and handles every node that becomes ready, recursively |
| `Executor.Executor.ScheduleReady` | orchestrate/dag.go:415-450 | a ready node is skipped exactly if its condition turns it down, and started otherwise; the invariant holds again |
| `Executor.Executor.StartNode` | orchestrate/dag.go:442-449 | the node runs on what its mapper or its dependencies give it; if the mapper fails its failure is reported instead |
| `Executor.Executor.EnqueueReady` | orchestrate/dag.go:453-459 | a ready node enters the priority queue once, or is scheduled at once |
| `Executor.Executor.DrainPQ` | orchestrate/dag.go:463-478 | launches until the queue is empty or the limit is reached |
| `Executor.Best` | orchestrate/priority.go:46-51 | the queue hands out the highest priority, earliest insertion among equals |
| `Executor.Executor.TakeBest` | orchestrate/dag.go:463-478 | whatever is launched from the queue was the first of the best in it when it was taken |
| `Executor.Executor.DrainDoneCh` | orchestrate/dag.go:706-711 | given the exact number of outstanding completions, nothing is left in flight or in the channel |
| `Executor.Executor.AbortRunning` | orchestrate/dag.go:276-287 | the number of running nodes is exactly what abort must drain |
| `Executor.Executor.HandleNodeError` | orchestrate/dag.go:306-366 | recovers, rolls back, skips or stops; a continuing run keeps the invariant, a stopped one is drained, and nothing is undone unless the failure rolls back |
| `Executor.Executor.RollBack` | orchestrate/dag.go:342-351 | tries exactly the nodes with a result that support it, each once and dependents first; those of which an allowed attempt succeeds end compensated, all others with a result stay done |
| `Executor.Executor.HandleNodeSuccess` | orchestrate/dag.go:369-400 | settles, and leaves early with everything drained exactly if the early-exit test fires on the result; otherwise goes on unless cancelled |
| `Executor.Executor.Step` | orchestrate/dag.go:240-262 | every turn of the loop lowers the pending count or ends the run |
| `Executor.Executor.Run` | orchestrate/dag.go:230-265 | every run ends with nothing in flight, each node started at most once and never a restored one; every started node was run on the request its mapper or its dependencies give, joined in declaration order; in a finished run every node ended as its callbacks on that request demand, and no result would have ended it early; a stopped one has a node that fails beyond recovery; with priorities every node was launched as the best in the queue; a rollback has undone exactly what it could; and nothing counts as cancelled unless the caller is gone |
| `DagState.OutcomeUnique` | orchestrate/dag.go:230-265 | a complete result is determined by the job alone, not by the schedule |
| `DagState.OutcomeIsSequential` | orchestrate/dag.go:230-265 | it is what running the nodes one by one in any dependency order gives |
| `DagState.SequentialIsOutcome` | orchestrate/dag.go:230-265 | and conversely the sequential reading, if it completes, is a complete result |
| `Executor.PriorityIsInvisible` | orchestrate/dag.go:463-478 | two uncancelled runs under different priorities and limits: if both finish their results are equal, and one cannot finish where the other is stopped by a failure |
| `Executor.ExecuteDAG` | orchestrate/dag.go:31-47 | for any graph: rejected exactly if inadmissible; all that a run guarantees of inputs, outcomes, early exits, launch order by given or longest-chain priorities and compensation; a finished run equals the sequential evaluation in every order, a failed one means that evaluation fails in every order, one that left early is part of it |
| `Inputs.InputIsFed` | orchestrate/dag.go:606-647 | what a node runs on, said of its dependencies' results alone: the mapper's answer; or the original request without dependencies, the one dependency's response, or all messages of several joined in declaration order, cut by position |
| `Inputs.VerdictMeans` | orchestrate/dag.go:306-440 | how a node must end, said of its callbacks alone: skipped if its condition says no, done with what its run or recovery yields, skipped on a tolerated failure, or the end of the run |
| `Inputs.OutcomeMeans` | orchestrate/dag.go:230-265 | a complete result is one in which every node ended so, on the results below it |
| `Inputs.SequentialMeans` | orchestrate/dag.go:230-265 | every entry of the sequential reading is a restored result or comes from running its node on just that request |
| `Compensation.BackwardCompensation` | orchestrate/compensate.go:64-112 | tries exactly the completed nodes that support it, each once, each only after everything that depends on it directly or not; a node is compensated exactly if one of the attempts it allows succeeds, unless the caller is gone between them |
| `Compensation.CompensateNode` | orchestrate/compensate.go:115-148 | makes every allowed attempt, one or with retries if idempotent, until one succeeds; only a cancellation cuts that short |
| `Compensation.BackwardIsDependentsFirst` | orchestrate/compensate.go:67-76 | any selection in reverse topological order puts dependents first, transitively |
| `Resource.PlanAscends` | orchestrate/resource.go:103-143 | a runner takes the global slot first and then its existing tags strictly ascending |
| `Resource.ReturnsPlan` | orchestrate/resource.go:153-164 | what a runner gives back is what it took, repeated tags included |
| `Resource.OccupancyIsHolders` | orchestrate/resource.go:103-164 | in every run, cancellations and repeated tags included, the occupancy of each semaphore is what its runners hold and never exceeds its limit |
| `Resource.ReleaseKeeps` | orchestrate/resource.go:153-164 | a release never finds its semaphore empty, whatever tags are listed |
| `Resource.DeadlockIff` | orchestrate/dag.go:527-558 | for any limits and tag lists: some run deadlocks if and only if some runners fit beside each other up to a tag they all list, and leaving each of them one use short of it already takes all its slots |
| `Resource.SoundNeverWedges` | orchestrate/resource.go:103-143 | with distinct tags per node and positive limits that condition never holds |
| `Resource.NoDeadlock` | orchestrate/dag.go:527-558 | so with distinct tags, while some runner has not ended some runner can move, without any cancellation |
| `Resource.RunsComplete` | orchestrate/dag.go:527-599 | every run is bounded, and with distinct tags one that cannot go on has ended all runners and freed all slots |
| `Resource.RepeatedTagWaitsForItself` | orchestrate/resource.go:103-143 | a node that lists a tag more often than the tag has slots can wait for itself forever |
| `Backpressure.SlotsAreAccountedFor` | orchestrate/backpressure.go:76-156 | in every run the limit stays within its bounds and active within the maximum; active equals the slots held if and only if no grant was abandoned; while fewer grants than the minimum were, whoever waits has a holder that can serve it |
| `Backpressure.StrandedIff` | orchestrate/backpressure.go:88-129 | for every configuration: some run abandons exactly k grants and ends with a waiter and no slot held if and only if k lies between minimum and maximum |
| `Backpressure.BeforeCancellation` | orchestrate/dag.go:527-538 | the runners of one DAG wait under one context: until it is cancelled no slot is lost and every waiter has a holder that can serve it |
| `Backpressure.GrantsWithinLimit` | orchestrate/backpressure.go:106-129 | every grant leaves active within the limit in force and goes to the longest waiting |
| `Backpressure.ReleaseServes` | orchestrate/backpressure.go:106-129 | a release serves the first waiter exactly when the limit allows what is still held |
| `Backpressure.LoosensIff` | orchestrate/backpressure.go:106-156 | a step leaves a slot idle while somebody waits exactly if it is a release that raises the limit with all slots taken and more than one waiting |
| `Backpressure.NewcomerIff` | orchestrate/backpressure.go:76-85 | a newcomer overtakes those who wait exactly while a slot is idle; otherwise it queues last |
| `Backpressure.OvertakeIff` | orchestrate/backpressure.go:76-156 | for every configuration: some run lets a newcomer overtake those who wait if and only if minimum and maximum of the limit differ |
| `Backpressure.Controller.constructor` | orchestrate/backpressure.go:47-73 | starts with the limits of the configuration filled in |
| `Backpressure.NormalisedMeans` | orchestrate/backpressure.go:47-73 | what is set stands unless out of range: at least one slot, by default four times the initial number, the initial number moved into the bounds, a second between adjustments |
| `Backpressure.Controller.TryAcquire` | orchestrate/backpressure.go:76-103 | takes a slot below the limit and queues behind all others otherwise |
| `Backpressure.Controller.Withdraw` | orchestrate/backpressure.go:88-102 | a cancelled waiter leaves the queue, or leaks the slot it was already given |
| `Backpressure.Controller.MaybeAdjust` | orchestrate/backpressure.go:133-156 | one adjustment once per interval, within the bounds |
| `Backpressure.LimitMoves` | orchestrate/backpressure.go:133-156 | an adjustment above the latency threshold leaves half the limit rounded down, or the minimum exactly if half is no more; below it one more, up to the maximum; it clears the latencies and restarts the interval |
| `Backpressure.FallsFast` | orchestrate/backpressure.go:146-156 | slow intervals bring any limit to the minimum in logarithmically many adjustments |
| `Backpressure.Controller.GiveBack` | orchestrate/backpressure.go:106-129 | hands the slot on or lowers active; its second look at the queue never finds anyone |
| `Conflicts.MergesIff` | workflow/schedule.go:161-211 | a merge succeeds exactly if every change is a write, no patch writes a field twice, and no two patches write the same one |
| `Merge.LeastIsUnique` | workflow/schedule.go:187-201 | the conflict reported does not depend on the order in which fields are visited |
| `Conflicts.ScanMeans` | workflow/schedule.go:166-185 | the first change in batch order that is no write, or repeats one of its own patch, is the one reported, with its node |
| `Conflicts.ConflictMeans` | workflow/schedule.go:187-201 | otherwise the report names a field that two patches write and, ascending, the nodes that write it; any other such field has a later name, or the same and no earlier list |
| `Conflicts.NodesLessMeans` | workflow/schedule.go:213-221 | of two node lists the one with the lesser id at the first difference comes first, or the shorter of a list and its extension |
| `Order.LessMeans` | workflow/schedule.go:78-87 | ids are ordered by the first character in which they differ, or by length if one extends the other |
| `Merge.OrderIsInvisible` | workflow/schedule.go:203-209 | a batch that merges gives the same state whatever order its changes are applied in |
| `Merge.MergedMeans` | workflow/schedule.go:203-209 | each field holds what its one writer wrote, every other field what it held |
| `Merge.MergeBatch` | workflow/schedule.go:161-211 | all or nothing: the merged state, or the old state and the one error |
| `Merge.Collect` | workflow/schedule.go:166-185 | the first offending change in batch order is reported; otherwise the writers of every field are known |
| `Merge.FindConflict` | workflow/schedule.go:187-201 | the least conflict by field and then node list, visiting fields in any order |
| `Merge.NodesTotal` | workflow/schedule.go:213-221 | the order on node lists is total |
| `Depth.LevelReached` | workflow/schedule.go:34-76 | if some node is at least k deep then some node is exactly k deep |
| `Depth.DepthStep` | workflow/schedule.go:34-76 | a node below the top has a dependency exactly one level up |
| `Batch.RunTasks` | workflow/schedule.go:98-124 | under every interleaving, cap and cancellation the batch ends, the cap is kept, each node is run at most once, and it counts as cancelled only if the caller is gone |
| `Batch.PickError` | workflow/schedule.go:130-153 | a node's own error before an echo of the cancellation, least id first |
| `Batch.RunBatch` | workflow/schedule.go:89-155 | succeeds with exactly the sequential outputs, each node run once, or reports a failure that some interleaving really leads to |
| `Batch.ReportVariesIff` | workflow/schedule.go:116-153 | two interleavings report different nodes if and only if the batch has no single culprit, a condition on what its nodes make of the snapshot |
| `Schedule.ReadyBatch` | workflow/schedule.go:78-87 | the ready nodes, ascending, whatever order the map is visited in |
| `Schedule.ReadyIsLevel` | workflow/schedule.go:53-56 | the nodes ready after k batches are exactly those k deep, and while anything is pending there are some |
| `Schedule.Release` | workflow/schedule.go:69-71 | a finished node comes off the count of each dependent, once per occurrence |
| `Schedule.Execute` | workflow/schedule.go:34-76 | every run commits whole levels in order and ends as the level-by-level evaluation does; the committed batches run each node once, in the batch of its depth; no internal error occurs, and a cancellation is the caller's |
| `Commits.CommitsIff` | workflow/schedule.go:89-211 | a level commits exactly if all its nodes succeed on the state, no change of theirs is bad, and no two of them write the same field |
| `Commits.CommitsTo` | workflow/schedule.go:203-209 | then every field one of them writes has the value written and every other is as it was |
| `Commits.FailsIff` | workflow/schedule.go:116-153 | and it fails in a node exactly if one of its nodes fails on the state |
| `Schedule.ScheduleIsInvisible` | workflow/schedule.go:34-155 | two uncancelled runs from one state, even under different caps, commit the same batches, end in the same state and fail alike, and name the same node if the failing batch has a single culprit |
| `Schedule.NamesTwoIff` | workflow/schedule.go:34-155 | and where a workflow fails in a node, two runs can name different nodes exactly if it has none |
| `Interrupt.TakeKeeps` | interrupt/logic.go:129-188 | a submission changes no decision that stood, and names exactly the ids it added, each once, stamped by the store |
| `Interrupt.TakePrefix` | interrupt/logic.go:151-181 | what is taken is a prefix of the submission, and all of it stands with the content, error flag and execute flag submitted |
| `Interrupt.TakeStops` | interrupt/logic.go:151-187 | a submission stops exactly at a decision that addresses no pending call, or differs in content, error flag or execute flag from the one that stands |
| `Interrupt.AcceptedIff` | interrupt/logic.go:151-187 | a submission is accepted exactly if all it addresses is pending and none of its decisions differs in any of the three from one that stood before or came earlier in it |
| `Interrupt.CommittedInOrder` | interrupt/logic.go:151-188 | the new ids are listed in the order of their first submission |
| `Interrupt.StepKeeps` | interrupt/logic.go:129-255 | one call: decisions only grow, and the revision rises by one exactly when something was written |
| `Interrupt.AlwaysConsistent` | interrupt/logic.go:140-149 | over any history the status is Pending exactly while some pending call is undecided |
| `Interrupt.CommittedOnce` | interrupt/logic.go:120-188 | over any history by any submitters the committed lists joined enumerate the decided ids without repeats |
| `Interrupt.DecisionStands` | interrupt/logic.go:159-168 | a committed decision never changes |
| `Interrupt.RevisionCounts` | interrupt/logic.go:129-255 | the revision counts the calls that wrote something |
| `Interrupt.SubmitKeepsLease` | interrupt/logic.go:140-149 | no submission revokes a lease |
| `Interrupt.OnlyHolderGives` | interrupt/logic.go:227-255 | release and completion succeed if and only if the latest successful lease call was an acquire by that owner |
| `Interrupt.LeaseIsLatest` | interrupt/logic.go:202-224 | after a successful acquire, and until another lease call succeeds, the record is leased to that owner until the time it asked for |
| `Interrupt.StatusMeans` | interrupt/logic.go:129-255 | the status is the history's: completed exactly if a completion succeeded, resuming exactly if the latest successful lease call is an acquire, pending exactly while a pending call is undecided |
| `Interrupt.AcquireIff` | interrupt/logic.go:202-224 | after any history an acquire is granted exactly if no completion succeeded, all is decided and the latest lease, unless given back, has run out; otherwise the first of these that fails is the error |
| `Interrupt.GivenBackIsBlank` | interrupt/logic.go:227-255 | a record not leased names no owner and no expiry |
| `Interrupt.StampedByLatest` | interrupt/logic.go:129-255 | the record bears the time of the latest call that wrote it |
| `Interrupt.AcquiresApart` | interrupt/logic.go:202-224 | two successful acquires with no release or completion between are at least the first one's ttl apart, on a clock that is not set back, or if no ttl between is negative |
| `Interrupt.OneWinner` | interrupt/logic.go:202-224 | of acquires racing while a lease lives only the first is granted; the others are told it is held, whatever ttl they ask for |
| `Interrupt.CompletesOnce` | interrupt/logic.go:243-255 | at most one completion ever succeeds |
| `Interrupt.CompletedIsFinal` | interrupt/logic.go:202-255 | after a completion nothing changes and every call is refused |
| `Interrupt.ExpiryIsNotChecked` | interrupt/store.go:110-118 | exactly where code and documentation differ: an expired lease nobody has reclaimed can still be released, and completed |
| `Interrupt.SecondCompletion` | interrupt/store.go:119-127 | a second completion is answered LeaseNotOwned, not AlreadyCompleted as documented |
| `Interrupt.ExpiredIsReached` | interrupt/logic.go:202-255 | both occur on every record ever created: decided, leased, expired, released or completed late, completed again |
| `Record.ValidateId` | interrupt/logic.go:44-60 | accepts exactly nonempty ids of at most 128 letters, digits, dashes and underscores |
| `Record.ValidateNewRecord` | interrupt/logic.go:63-110 | accepts exactly records with an owner, distinct named calls, and a nonempty distinct pending subset |
| `Record.CreatedIsBorn` | interrupt/mapstore.go:63-72 | an accepted record without decisions is stored pending and consistent |
| `Record.Record.ApplyDecisions` | interrupt/logic.go:129-188 | the in-place loop leaves exactly the state and answer of the specified submission, also when it stops half way |
| `Record.Record.CommitAudit` | interrupt/logic.go:140-149 | turns Pending into Ready only, and counts the write |
| `Record.Record.AcquireLease` | interrupt/logic.go:202-224 | in place, exactly the specified acquire |
| `Record.Record.ReleaseLease` | interrupt/logic.go:227-239 | in place, exactly the specified release |
| `Record.Record.Complete` | interrupt/logic.go:243-255 | in place, exactly the specified completion |
| `Store.StoresAgree` | interrupt/mapstore.go:97-209 | after any history on two stores without the record, the two hold the same and agree on error and committed ids always, and on the whole answer exactly unless a submission is rejected outright |
| `Store.ReadsBack` | interrupt/mapstore.go:51-95 | what is read after a creation is the run the caller froze and what is pending in it, under the identity, time, layout, revision and status of the store |
| `Store.AnswerMeans` | interrupt/filestore.go:323-416 | a call hands back the record as it leaves it, exactly for reads, granted acquires and submissions not refused outright; what is not there can only be created |
| `MapStore.MapStore.Create` | interrupt/mapstore.go:51-73 | stores a valid record under its fresh id, in a layout that can be read, and nothing else |
| `MapStore.MapStore.Get` | interrupt/mapstore.go:76-95 | returns the record exactly if it is there under a well-formed id: every stored record can be read |
| `MapStore.MapStore.SubmitDecisions` | interrupt/mapstore.go:99-125 | one atomic submission on one record, the others untouched |
| `MapStore.MapStore.AcquireLease` | interrupt/mapstore.go:128-153 | one atomic acquire, refused without an owner |
| `MapStore.MapStore.ReleaseLease` | interrupt/mapstore.go:156-181 | one atomic release |
| `MapStore.MapStore.Complete` | interrupt/mapstore.go:184-209 | one atomic completion |
| `MapStore.MapStore.Delete` | interrupt/mapstore.go:235-247 | removes that record alone; a malformed id is refused |
| `FileStore.Linearizable` | interrupt/filestore.go:133-284 | under every interleaving of processes, with a crash between any two steps, the record file is what the effective calls make of it one after another, and every answered call is among them once, with the answer it would have had alone |
| `FileStore.PublishesOneTransition` | interrupt/filestore.go:170-187 | each step leaves the record file alone or replaces it by one atomic transition of it |
| `FileStore.RealTime` | interrupt/filestore.go:133-187 | a call that answered before another began took effect before it |
| `FileStore.AnswersComeFromLog` | interrupt/filestore.go:323-416 | every answer a caller sees is that of an atomic call |
| `FileStore.OneWinner` | interrupt/filestore.go:357-374 | of acquires racing from any processes while a lease lives all but the first are refused as held, whatever ttl they ask for |
| `FileStore.StillLeased` | interrupt/filestore.go:357-374 | a granted lease is in the file until it is given up or expires; afterwards too, unless an acquire asks for one that is over sooner |
| `FileStore.NeverWedged` | interrupt/filestore.go:196-229 | whatever crashed, a waiting call can take the lock or its live holder can move towards giving it back |
| `FileStore.RunsAlone` | interrupt/filestore.go:133-284 | a call that gets the free lock and is left alone answers and leaves behind exactly what the atomic call would, and frees the lock; reading alone needs no lock |
| `Resume.AtMostOneSuccessor` | agent/taskagent/interrupt.go:741-800 | if every successor is created before its creator's lease expires there is at most one, in any interleaving |
| `Resume.NeverRunsAfterSuccessor` | agent/taskagent/interrupt.go:465-474 | a resumer that starts after a successor exists never runs the superseded batch's handlers |
| `Resume.SuccessorIsBorn` | agent/taskagent/interrupt.go:769-789 | a successor is born pending, undecided and unleased, and carries the same batch |
| `Resume.SuccessorsStartOver` | agent/taskagent/interrupt.go:738-800 | a successor leaves Pending only by decisions of its own |
| `Resume.LeasesAlways` | agent/taskagent/interrupt.go:488-506 | while a resumer's lease runs the record is leased to it and to nobody else |
| `Resume.RunsUnsuperseded` | agent/taskagent/interrupt.go:488-513 | while creators complete within their leases, a resumer about to run the batch under a running lease has no successor beside it |
| `Resume.StaleRunIff` | agent/taskagent/interrupt.go:488-513 | in any reachable situation with a successor, one who has not run the old batch can still come to run it if and only if it already has a lease for it, running or not, or is past its lookup while the old record is not completed |
| `Resume.StaleRunInTimeIff` | agent/taskagent/interrupt.go:488-513 | and it can do so under a running lease exactly if, besides, a lease it already has still runs |
| `Resume.StaleRun` | agent/taskagent/interrupt.go:718-736 | reachable from every ready record: a creator dies before completing it, and an earlier resumer runs the old batch beside the successor under a running lease |
| `Resume.OverdueRun` | agent/taskagent/interrupt.go:488-513 | reachable too: a resumer outsleeps its lease while another creates a successor and completes the record, and then runs the old batch |
| `ResumeHistory.RanMeans` | agent/taskagent/interrupt.go:412-515 | whoever ran the frozen batch had looked for a successor in vain, been told by its own policy that the batch may run, been granted a lease and found every tool there |
| `ResumeHistory.SuccessorsWereAsked` | agent/taskagent/interrupt.go:741-800 | every successor's pending calls and fingerprint are those that the policy of some resumer gave |
| `ResumeHistory.NothingLost` | agent/taskagent/interrupt.go:412-515 | in any interleaving with crashes anywhere an interrupt is completed only after its batch was run or a successor took its place |
| `ResumeHistory.RunsOrBacksOut` | agent/taskagent/interrupt.go:412-515 | left alone a resumer whose policy lets the batch run runs it and completes the record, or with a tool missing gives the lease back and has run nothing |
| `ResumeHistory.Replaces` | agent/taskagent/interrupt.go:741-800 | left alone one whose policy asks for it leaves exactly one undecided successor with what the policy flagged, and the record completed |
| `ResumeHistory.FinishesForAnother` | agent/taskagent/interrupt.go:706-736 | whoever comes to a record that has a successor only completes it |
| `Policy.ValidatePendingSubset` | agent/taskagent/interrupt.go:283-302 | accepts exactly the distinct, nonempty ids among the calls |
| `Policy.ConsistentAssessments` | agent/taskagent/interrupt.go:574-613 | on distinct calls: accepts exactly if every call is assessed once, nothing else is, and flagged means pending |
| `Policy.ClassifyFrozenPolicy` | agent/taskagent/interrupt.go:620-640 | runs, replaces or refuses the frozen batch exactly under the stated conditions on fingerprint and policy |
| `Policy.EarliestSuccessor` | agent/taskagent/interrupt.go:656-700 | finds a successor if there is one, and one that no other precedes in time, or at the same time by id |
| `Policy.EarliestIsUnique` | agent/taskagent/interrupt.go:656-700 | the choice depends only on which records there are |
| `React.ClosedAnswers` | agent/taskagent/tool_batch.go:49-68 | in a closed list each batch of calls is followed by exactly one result per call, in call order |
| `React.ClosedOwns` | agent/taskagent/tool_batch.go:49-68 | and no result stands without its call |
| `React.RunReactLoop` | agent/taskagent/loop.go:140-249 | every list sent and every non-final checkpoint is closed, and each is the list before with the assistant message and every result of the batch, field by field; every answer and charge is the model's; a batch is run only if the model stops for tools, the budget is not used up and the policy, if there is one, lets it through, and its results are the tools'; the loop ends for exactly the reason that model, policy, tools and budget give |
| `React.ReturnDirectResult` | agent/taskagent/loop.go:258-276 | the first configured and successful call in the model's order, if any |
| `React.MaybeInterrupt` | agent/taskagent/interrupt.go:189-242 | goes ahead exactly if the policy is coherent and flags nothing, suspends exactly if it is coherent, flags something and the batch can be resumed and stored; persists exactly the continuation and counters |
| `React.ValidateBatchAddressable` | agent/taskagent/interrupt.go:265-277 | accepts exactly nonempty distinct ids |
| `React.ReconcileInterruptBatch` | agent/taskagent/interrupt.go:900-981 | runs exactly the runnable calls and fails exactly if a tool breaks off; every call gets one result in call order, an approved one its tool's, the others the human's content and error flag as the guard leaves them |
| `React.RunnableMeans` | agent/taskagent/interrupt.go:914-928 | handlers run for exactly the calls not pending and those approved for execution without error |
| `React.ToStoreDecisions` | agent/taskagent/interrupt.go:563-569 | a decision sent with a resume request reaches the store with its content and error flag and without an approval |
| `React.ResumeNeverApproves` | agent/taskagent/interrupt.go:563-569 | so over any history in which decisions come only with resume requests exactly the calls that were not pending run |
| `React.ResumeFromInterrupt` | agent/taskagent/interrupt.go:814-880 | goes on from the persisted list with the reconciled results, in the next iteration, with the same parameters and charge, as the loop does |
| `React.LogicalRun` | agent/taskagent/loop.go:140-249 | over any chain of suspensions, supersessions and resumes: closed lists throughout, each extending the one before by answer and results; every batch was let through by the policy and run within the budget, or suspended and resumed with decisions on all its pending calls; at most maxIter turns, consumed is the sum of all turns, and the budget is overrun by less than the last turn |
| `React.BudgetTracker.Add` | agent/taskagent/budget.go:42-45 | adds and says whether the budget is now used up |
| `React.BudgetTracker.Remaining` | agent/taskagent/budget.go:56-65 | zero exactly when exhausted, -1 without a limit |
| `React.BudgetTracker.constructor` | agent/taskagent/budget.go:35-39 | restores a tracker with what was already charged |
| `ContextBuilder.Build` | context/builder.go:146-290 | refused as invalid exactly for a negative budget, and for the first must-source that fails; otherwise it succeeds exactly if the charge fits the window and leaves the rest; with honest sources the result leaves room for tools and output |
| `ContextBuilder.ChargeIsFixed` | context/builder.go:192-203 | the charge, counted source by source: reserved tools and output, the last system prompt or its reserve, whichever is more, and every other must-source once |
| `ContextBuilder.PlainCharge` | context/builder.go:192-203 | with a reserve no larger than the prompt, that is tools, output and all must-sources once |
| `Prompts.PromptMeans` | context/builder.go:146-418 | a built prompt is what the sources answered, less what is cut from the head of the optional answers taken in order, laid out in order; what is kept fits what the charge leaves, and the last message cut would not have; every report tells what came of its source, and the number dropped adds up |
| `ContextBuilder.BuildFits` | context/builder.go:192-203 | a bounded build emits at most the window less reserved tools and output |
| `ContextBuilder.TrimOptionalToHistory` | context/builder.go:350-418 | drops the shortest head that makes the rest fit; each slot and its report match what is left |
| `ContextBuilder.TrimDropsHead` | context/builder.go:363-395 | the merged optional messages afterwards are those before, less exactly that head |
| `ContextBuilder.KeptIsTail` | context/builder.go:391-406 | every slot keeps a tail of its own messages, a must-slot all of them |
| `ContextBuilder.TrimmedCost` | context/builder.go:363-380 | after the cut the slots hold exactly the tokens that were left, and must-slots are not charged |
| `ContextBuilder.FetchMust` | context/builder.go:170-190 | asks the must-sources in order and stops at the first that fails |
| `ContextBuilder.FetchOptional` | context/builder.go:205-240 | an optional source that fails contributes nothing and is recorded |
| `Compressors.CompressRecent` | memory/compressor_token_budget.go:51-79 | the longest suffix that fits, or the last message alone |
| `Compressors.CompressImportant` | memory/compressor_importance.go:111-159 | the message of highest score, earliest among equals, is kept, the rest fits with it or stays out, nothing dropped would still fit, and each choice is the greedy one |
| `Compressors.SumAppend` | memory/token_estimate.go:71-81 | the token count of two lists joined is the sum of theirs |
| `Compressors.SumOne` | memory/token_estimate.go:71-81 | and that of a single message is its estimate |
| `Compressors.PickIsChronological` | memory/compressor_importance.go:150-156 | the result is a subsequence in the original order |
| `Compressors.WeightIsSum` | memory/compressor_importance.go:135-148 | the weight of the kept positions is the token count of the result |
| `Compressors.RankedIsRanking` | memory/compressor_importance.go:120-133 | ranking lists every position once, best first, earlier first among equals |
| `Base64Url.DecodeEncode` | memory/keys.go:25-30 | the unpadded encoding of section 5 with section 3.2 of RFC 4648 can be decoded, so it is injective |
| `Base64Url.DigitAt` | memory/keys.go:25-30 | every digit is the one that the alphabet lists for its six bits of its group of three bytes, filled up with zeros |
| `Base64Url.EncodedLength` | memory/keys.go:25-30 | there are as many digits as six-bit groups begin in the bytes: no padding |
| `Base64Url.EncodeHasNoColon` | memory/keys.go:25-30 | no encoded id contains the delimiter |
| `MemoryViews.PrefixesApart` | memory/keys.go:32-42 | a physical key determines the view and the logical key it belongs to |
| `MemoryViews.KeyFields` | memory/keys.go:32-42 | split at its first four colons a key shows mem, the tier, the agent and the session encoded, and the logical key |
| `MemoryViews.PrefixIsOwn` | memory/keys.go:32-38 | no view's prefix is a prefix of another view's key |
| `MemoryViews.KeysRoundTrip` | memory/keys.go:40-50 | logical and physical keys round-trip both ways |
| `MemoryViews.ViewsAreIndependent` | memory/base.go:25-59 | any number of views over one store, in any interleaving of set, delete, clear and batch set, are independent maps |
| `MemoryViews.StepForeign` | memory/base.go:190-211 | no operation touches a key outside its own prefix |
| `MemoryViews.Memory.Get` | memory/base.go:36-39 | reads what the view's own map holds |
| `MemoryViews.Memory.Set` | memory/base.go:41-43 | one step on the view's own map |
| `MemoryViews.Memory.Delete` | memory/base.go:45-47 | one step on the view's own map |
| `MemoryViews.Memory.List` | memory/base.go:51-60 | exactly the view's own keys under the prefix, by logical name, each once |
| `MemoryViews.Memory.Clear` | memory/base.go:194-211 | empties the view and nothing else |
| `MemoryViews.Memory.BatchGet` | memory/base.go:82-122 | exactly the requested keys the view holds |
| `MemoryViews.Memory.BatchSet` | memory/base.go:126-140 | sets all given keys of the view |
| `MemoryViews.Memory.ForSession` | memory/session.go:58-68 | the same store under another identity; prefixes do not nest |
| `MemoryViews.MapStore.Get` | memory/mapstore.go:57-67 | reads one entry |
| `MemoryViews.MapStore.List` | memory/mapstore.go:83-100 | every entry under the prefix, once |
| `MemoryViews.MapStore.BatchGet` | memory/mapstore.go:107-115 | exactly the requested keys present |
| `MemoryViews.MapStore.BatchSet` | memory/mapstore.go:117-127 | all given entries, the rest untouched |

## Left out

- Final aggregation, usage totals, timelines, events, retries with backoff and checkpoint saving of the DAG executor: they do not steer the loop.
- `container/heap` internals: the queue is specified by which item comes next.
- Token-bucket rate limits and real clocks: an integer clock stands in for leases and latencies.
- `BuildDAG` and the options of `RunDAG`: they only assemble a configuration.
- The checks for empty node ids and missing run functions in `workflow/graph.go:32-37`: a model node always has both.
- The workflow's own copies of cycle detection and connectivity: they are the same algorithms as those of the DAG, modelled once.
- Listing records by session and auditing versions in the interrupt stores: read-only scans.
- JSON, file permissions, fsync and temporary-file cleanup after a crash: only atomic publication is modelled.
- Cancellation of a caller's context before a store or memory call: the call then does nothing. `FileStore` lets a call give up while it waits.
- Policy guards, streaming of deltas, memory promotion after a run and response drafting around the loop.
- A resume attempt that fails part way and is repeated: its turns are charged again by the code, and the bounds on turns and tokens exclude it.
- Summarising and sliding-window compressors, and the importance scorer's float arithmetic.
- Time to live in the memory store, and `WorkingMemory.Clear`, which empties the whole store.
- ContextBuilder.BuildFits: assumes that a must-source which reports its own token count does not report fewer than it delivers, because the code trusts the report.
