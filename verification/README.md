# A verified model of the ghOSt schedulers' concurrent core

The project models, in Dafny, the parts of the ghOSt userspace library whose correctness is a
statement about whole runs, and proves those statements for every run. Concurrent code is a state
machine with sequentially consistent interleaving: each access to a shared variable, or each
section under a lock where the code holds one, is one step; any number of agents, writers,
waiters, workers or CPUs take steps in any order. Code that is sequential (or runs under one lock)
is imperative Dafny, each method tied to a specification whose properties are proved beside it.

| files | what they model |
|---|---|
| `cfs_task_state`, `cfs_agents`, `cfs_agents_invariant`, `cfs_agents_runs`, `cfs_agents_moves`, `cfs_agents_reentry` | the per-CPU CFS scheduler as a system of agents: channels drained under the run-queue lock, the message handlers and the two-dimensional task state, `Migrate`, `PickNextTask`, commits that fail or succeed, work stealing in separately locked sections, and the kernel as the poster of messages and the judge of associations |
| `run_queue`, `cfs_rq` | one `CfsRq`: first as a function on the ordered set and `min_vruntime_`, then as the class itself with its fields, flags and loops |
| `load_balance`, `bounded_waiting`, `cfs_weights` | balancing rounds and their convergence; how long a queued task can wait; the weight tables and the fixed-point vruntime charge |
| `prio_stream`, `prio_stream_quiet`, `prio_stream_marks`, `seqcount`, `prio_table_sync`, `prio_table_protocol`, `prio_table_classes` | the PrioTable: update stream, sequence counter, and the two together with `SeqCopyParams` and `MakeEngineRunnable`, first in single steps and then access by access |
| `notification`, `notification_once`, `agent_rpc` | `Notification` on a futex, and the shared-memory RPC built on two of them |
| `run_request`, `run_request_ownership`, `run_request_races` | run-request transactions: open, claim, commit, abort, sync groups; who owns them, and exactly when ownership is lost |
| `hand_off`, `hand_off_invariant`, `hand_off_runs`, `hand_off_order`, `hand_off_rounds`, `hand_off_unchecked` | requests from load generator to dispatcher to worker, in the CFS, futex and PrioTable variants, with termination |
| `arr_list` | the doubly linked lists in an array |
| `cpu_bits`, `cpu_list`, `cpu_mask` | the CPU bitmap, its enumerations and its printer |

The kernel, the futex call and the network are environments. What is assumed of them is written
where their steps are enabled: the kernel posts messages in order to the associated channel, raises
the barrier with each, refuses an association whose sequence number is behind it, claims a
transaction only while it is READY, never reports ABORTED itself, and answers a sync commit with
success only when it has committed and released the whole group, and with failure only when some
transaction of the group ends with another outcome than COMPLETE; `FUTEX_WAIT` compares and sleeps
in one step and may return for no reason.

## Where the code and its comments differ

- `schedulers/cfs/cfs_scheduler.cc:305-310` says that the lock in `Migrate` covers the whole
  reference to a task. Between the association and the write of `task->cpu` a message can already
  be in the new channel while the lock of `task->cpu` is free. `CfsAgentsRuns.FreeLockMeansHomeFails`
  is such a run, `FreeLockMeansHomeExactly` says exactly when it happens, and
  `MessagesFollowTheTask` says why it does no harm: the lock of the *new* CPU is held throughout.
- `schedulers/cfs/cfs_scheduler.cc:1102-1105` suggests that time never goes back when a running task
  is put back. `PutPrevTask` lowers `min_vruntime_` exactly if that task's vruntime is below it
  (`RunQueue.PutBackLowersMinIff`), since `InsertTaskIntoRq` assigns it outright. `PickNextTask` leaves
  it so, because `UpdateMinVruntime` looks at the previous `cs->current`: exactly if the task it picks
  comes from the queue and is behind all others (`PickLeavesMinAboveIff`, `PreemptionLowersMinIff`);
  `MinGoesBack` is a run. `EnqueueTask` and `UpdateMinVruntime` never lower it.
- `lib/enclave.cc:795-798` and `550-557` clear whatever owner they find. An Abort takes away what
  another agent owns exactly if that agent owned the open transaction when the exchange succeeded, or
  has taken it since (`RunRequestRaces.AbortTakesIff`, `AbortTakesOwned`, `AbortMayDropOwner`);
  `OwnershipEndsIff` and `OnlyOwnerReleases` say the same of every step and of whole runs.
- `schedulers/edf/orchestrator.cc:21-23` relies on every writer putting the item into the stream again.
  The agent's own `MakeEngineRunnable` stores the flags without `write_begin` and without a mark: for
  items of a repeating work class the agent's flags can differ from the last completed write with
  nothing announced, and for no others (`PrioTableClasses.ClassesDecide`). What remains is `OnlyFlagsDiffer`.
- `lib/scheduler.h:553-558` says that a TASK_NEW for a known task probably cannot happen. If a thread
  departs and is back before `PickNextTask` has freed its record it does, and the task is lost
  (`CfsAgentsReentry.ReentryIsLostIff`, `ReentryLoses`).
- `arr_list_concat` is documented like any TAILQ operation, but with an empty second list it
  clears `last` of the first. `ArrList.Concat` states for which arguments it concatenates, and
  `ArrList.TailLostAfterEmptyConcat` what follows otherwise.

## Model


| member | source | states |
|---|---|---|
| `CfsAgentsInvariant.InitHolds` | schedulers/cfs/cfs_scheduler.cc:836-855 | a system without tasks, all agents asleep, satisfies the invariant |
| `CfsAgentsInvariant.StepKeeps` | schedulers/cfs/cfs_scheduler.cc:255-535 | every step of the kernel and of every agent (post, wake, dispatch, migrate, pick, commit, steal, attach) keeps the invariant on task states, placement, channels and locks |
| `CfsAgentsRuns.RunKeepsInv` | schedulers/cfs/cfs_scheduler.cc:838-855 | the invariant holds in every state of every run of any number of agents |
| `CfsAgentsRuns.ChecksNeverFail` | schedulers/cfs/cfs_scheduler.h:180-202 | in no run does a state change leave the kTo masks, a BLOCKED, YIELD or PREEMPT name a task that is not current, or a sequence number fail to advance |
| `CfsAgentsRuns.ExactlyOnePlace` | schedulers/cfs/cfs_scheduler.h:413-421 | every known task that is not blocked is in exactly one of: the run queue or migration queue of its cpu, that cpu's current slot, the hands of one thief; its two-dimensional state says which; unknown tasks are nowhere |
| `CfsAgentsRuns.NoRunnableTaskLost` | schedulers/cfs/cfs_scheduler.cc:1024-1080 | a task the kernel could run has an undelivered message or is somewhere an agent will find it; threads may leave and enter again once their old record is freed |
| `CfsAgentsRuns.MessagesFollowTheTask` | schedulers/cfs/cfs_scheduler.cc:277-334 | all undelivered messages of a task are in one channel, and it is that of task->cpu if and only if no association is between its success and the write of task->cpu; whoever is there holds the lock that shuts out the other agent |
| `CfsAgentsRuns.OnlyTheOwnerHandles` | schedulers/cfs/cfs_scheduler.cc:845-853 | a message is only ever handled by the agent of task->cpu, and TASK_NEW only for an unknown task |
| `CfsAgentsRuns.StaleBarrierRefused` | schedulers/cfs/cfs_scheduler.cc:1202-1218 | if association with task->seqnum can succeed, no message of the task is undelivered anywhere |
| `CfsAgentsRuns.FreeLockMeansHomeExactly` | schedulers/cfs/cfs_scheduler.cc:305-328 | that a free run-queue lock of task->cpu implies that no other channel holds messages of the task is true exactly in the states where no message has arrived for a task inside Migrate's window |
| `CfsAgentsRuns.FreeLockMeansHomeFails` | schedulers/cfs/cfs_scheduler.cc:313-323 | a run of two agents in which that simpler claim is false |
| `CfsAgentsRuns.StolenWorkSurvives` | schedulers/cfs/cfs_scheduler.cc:703-711 | after an agent attached stolen tasks, whatever other agents did in between, NewIdleBalance finds a task |
| `CfsAgentsRuns.TheftLeavesOne` | schedulers/cfs/cfs_scheduler.cc:1175-1200 | in every interleaving a theft removes one task and leaves its victim's queue non-empty |
| `CfsAgentsRuns.LockHolderCanMove` | schedulers/cfs/cfs_scheduler.cc:838-855 | the holder of a run-queue lock always has a step that needs no other lock, so agents do not deadlock |
| `CfsAgentsMoves.StepMoves` | schedulers/cfs/cfs_scheduler.cc:255-535 | every step of every run takes each task from its run state and place to those a table names, message by message and step by step, and writes its affinity only when it handles AFFINITY_CHANGED, or TASK_NEW, of that task |
| `CfsAgentsMoves.AffinityIsHonored` | schedulers/cfs/cfs_scheduler.cc:867-901 | after AFFINITY_CHANGED, YIELD or PREEMPT the task is on the run queue of the CPU that handled it only if its affinity allows that CPU; if it can run and may not run there it is in the migration queue |
| `CfsAgentsMoves.CarriedIsAllowed` | schedulers/cfs/cfs_scheduler.cc:1202-1218 | a task inside Migrate, or stolen, or being stolen, may run on the CPU it is taken to, in every interleaving |
| `CfsAgentsMoves.ProgramOrder` | schedulers/cfs/cfs_scheduler.cc:838-855 | every agent goes through draining, migrating, picking, stealing and committing in the order of Schedule(), moved by nobody else, and stops draining only when its channel is empty |
| `CfsAgentsMoves.IdlesOnlyWhenEmpty` | schedulers/cfs/cfs_scheduler.cc:675-711 | an agent finds nothing to run only if every runnable or running task of its CPU waits for a migration or is being stolen |
| `CfsAgentsMoves.KernelRuns` | schedulers/cfs/cfs_scheduler.cc:772-806 | a thread gets on a CPU exactly by a successful commit there, and off it exactly when that CPU's agent runs or the kernel says that it stopped |
| `CfsAgentsMoves.KernelRedirects` | schedulers/cfs/cfs_scheduler.cc:1202-1218 | a thread's messages go to another channel exactly by an association that the kernel accepts |
| `CfsAgentsMoves.MigrationGoes` | schedulers/cfs/cfs_scheduler.cc:277-334 | an agent inside MigrateTasks moves a queued task to any other CPU of its affinity once that CPU's lock is free and no message of the task is under way |
| `CfsAgentsMoves.TheftGoes` | schedulers/cfs/cfs_scheduler.cc:675-711 | an agent with nothing to run steals any task that may run there from a queue that has another one, on the same terms, and makes it current |
| `CfsAgentsMoves.PickGoes` | schedulers/cfs/cfs_scheduler.cc:772-806 | an agent about to pick can take any queued task and, if the kernel has it runnable and no message of it is under way, gets it on its CPU |
| `CfsAgentsReentry.ReentryIsLostIff` | lib/scheduler.h:547-561 | when a thread enters again and its TASK_NEW is handled, the task is lost, with no message left, if and only if its old record is still in the map; then that record is Done |
| `CfsAgentsReentry.ReentryLoses` | lib/scheduler.h:547-561 | a run of one agent in which this happens: the task departs while current and is back before PickNextTask has freed it |
| `RunQueue.InsertSpec` | schedulers/cfs/cfs_scheduler.cc:1159-1166 | rq_.insert keeps the strict (vruntime, address) order and the contents, and puts the least key first |
| `RunQueue.EraseUndoesInsert` | schedulers/cfs/cfs_scheduler.cc:1082-1087 | erasing an inserted key restores the queue |
| `RunQueue.InsertTaskValid` | schedulers/cfs/cfs_scheduler.cc:1159-1166 | InsertTaskIntoRq keeps the queue sorted and makes min_vruntime_ the least queued vruntime |
| `RunQueue.DequeueValid` | schedulers/cfs/cfs_scheduler.cc:1082-1099 | DequeueTask takes out exactly this key if it is queued, wherever it is, leaves every other task and min_vruntime_ alone, and keeps the queue valid; otherwise nothing changes |
| `RunQueue.EnqueueMonotone` | schedulers/cfs/cfs_scheduler.cc:999-1013 | EnqueueTask lowers neither min_vruntime_ nor the task's vruntime: the task enters at the larger of the two, and nothing else enters or leaves |
| `RunQueue.UpdateMinMonotone` | schedulers/cfs/cfs_scheduler.cc:1101-1133 | UpdateMinVruntime never lowers min_vruntime_ and keeps it at most every queued vruntime |
| `RunQueue.UpdateMinExact` | schedulers/cfs/cfs_scheduler.cc:1101-1133 | UpdateMinVruntime raises min_vruntime_ to the least vruntime of the queue and of a current task that can run, if that is above it, and changes nothing else |
| `RunQueue.PickSpec` | schedulers/cfs/cfs_scheduler.cc:1024-1080 | PickNextTask takes the least vruntime of the queue together with a previous task that can still run, ties going to the lowest address; nothing else enters or leaves, and it finds nothing exactly when there is nothing |
| `RunQueue.PickMin` | schedulers/cfs/cfs_scheduler.cc:1024-1080 | PickNextTask sets min_vruntime_ to the least vruntime among the queue it leaves and the old current task that can run, unless it is higher already; where that task goes back, it first drops to the least of all tasks to choose from |
| `RunQueue.PutBackLowersMinIff` | schedulers/cfs/cfs_scheduler.cc:1015-1022 | putting the previous task back lowers min_vruntime_ if and only if that task can run and its vruntime is below min_vruntime_ |
| `RunQueue.PickLeavesMinAboveIff` | schedulers/cfs/cfs_scheduler.cc:1024-1080 | PickNextTask leaves min_vruntime_ above the vruntime of the task it picks if and only if that task comes from the queue and is behind every other one, because UpdateMinVruntime still looks at the old cs->current |
| `RunQueue.PreemptionLowersMinIff` | schedulers/cfs/cfs_scheduler.cc:1101-1133 | if the picked task then runs for delta and is preempted, putting it back lowers min_vruntime_ if and only if delta is less than that distance |
| `RunQueue.MinGoesBack` | schedulers/cfs/cfs_scheduler.cc:1015-1022 | this happens from an empty queue on: two arrivals, a pick and a preemption take min_vruntime_ from 9 to 6 |
| `RunQueue.DetachIs` | schedulers/cfs/cfs_scheduler.cc:1175-1200 | the loop of DetachTasks in closed form: the first m eligible entries, m being the least of n, the number eligible and the size less one |
| `RunQueue.DetachSpec` | schedulers/cfs/cfs_scheduler.cc:1175-1200 | DetachTasks takes the first eligible tasks in vruntime order, as many as asked and possible, never empties a non-empty queue, loses nothing and leaves a valid queue |
| `CfsRunQueueObject.FindSlot` | schedulers/cfs/cfs_scheduler.cc:1159-1162 | the place where rq_.insert puts a new key |
| `CfsRunQueueObject.FindTask` | schedulers/cfs/cfs_scheduler.cc:1082-1085 | the place where rq_.erase finds a task, and that it finds it exactly if it is queued |
| `CfsRunQueueObject.CfsRq.InsertTaskIntoRq` | schedulers/cfs/cfs_scheduler.cc:1159-1166 | in place: rq_, rq_size_ and min_vruntime_ become those of the specification, the task is marked queued |
| `CfsRunQueueObject.CfsRq.EnqueueTask` | schedulers/cfs/cfs_scheduler.cc:999-1013 | in place: the new queue is RunQueue.Enqueue of the old one |
| `CfsRunQueueObject.CfsRq.DequeueTask` | schedulers/cfs/cfs_scheduler.cc:1082-1099 | in place: the new queue is RunQueue.Dequeue of the old one; a task that was not queued is left alone |
| `CfsRunQueueObject.CfsRq.UpdateMinVruntime` | schedulers/cfs/cfs_scheduler.cc:1101-1133 | in place: min_vruntime_ as specified by RunQueue.UpdateMin |
| `CfsRunQueueObject.CfsRq.Reconcile` | schedulers/cfs/cfs_scheduler.cc:1035-1056 | in place: what PickNextTask does with prev, by its run state |
| `CfsRunQueueObject.CfsRq.PickNextTask` | schedulers/cfs/cfs_scheduler.cc:1024-1080 | in place: keeps a running prev that need not be preempted, otherwise leaves the queue and returns the task that RunQueue.Pick specifies; also for the second call of NewIdleBalance, with no prev and a current task that cannot run |
| `CfsRunQueueObject.CfsRq.DetachTasks` | schedulers/cfs/cfs_scheduler.cc:1175-1200 | in place: the queue and the detached tasks are those of RunQueue.Detach; only detached tasks change cpu and queue state |
| `CfsRunQueueObject.CfsRq.AttachTasks` | schedulers/cfs/cfs_scheduler.cc:1168-1173 | in place: the new queue is LoadBalance.Attach of the old one |
| `LoadBalance.FindBusiestQueue` | schedulers/cfs/cfs_scheduler.cc:636-655 | the first of the longest run queues |
| `LoadBalance.AttachSpec` | schedulers/cfs/cfs_scheduler.cc:1168-1173 | attaching tasks that are not queued adds exactly them, in order, and lowers no minimum |
| `LoadBalance.AttachRaises` | schedulers/cfs/cfs_scheduler.cc:1168-1173 | tasks attached in vruntime order each enter at the larger of their own vruntime and the minimum before the first of them, and nothing else changes |
| `LoadBalance.RoundMoves` | schedulers/cfs/cfs_scheduler.cc:620-634 | in numbers: with an excess e of at least 2 a round moves the least of 32, e / 2, the number of eligible tasks and the source's size less one, else none; it moves the first eligible ones, raised to the destination's minimum; when all are eligible the lengths then differ by e - 2 * min(32, e / 2) |
| `LoadBalance.RoundSizes` | schedulers/cfs/cfs_scheduler.cc:620-634 | a round moves at most 32 tasks and at most half the excess, leaves the source at least as long as the destination, and touches no third queue |
| `LoadBalance.RoundTakesFirstEligible` | schedulers/cfs/cfs_scheduler.cc:1175-1200 | what moves are the first eligible tasks of the source in vruntime order |
| `LoadBalance.RoundConserves` | schedulers/cfs/cfs_scheduler.cc:675-701 | a round loses and duplicates no task and leaves every queue valid |
| `LoadBalance.RoundLowersSquares` | schedulers/cfs/cfs_scheduler.cc:620-634 | a round that moves anything strictly lowers the sum of squared queue lengths |
| `LoadBalance.BalancingTerminates` | schedulers/cfs/cfs_scheduler.cc:675-701 | however rounds are chosen, at most that sum of them can move anything |
| `LoadBalance.RoundMovesIff` | schedulers/cfs/cfs_scheduler.cc:620-634 | when all tasks may run everywhere a round moves one exactly if the lengths differ by two or more |
| `LoadBalance.NewIdleBalance` | schedulers/cfs/cfs_scheduler.cc:675-711 | a newly idle CPU returns a task exactly if the first longest queue can spare an eligible one, and otherwise nothing changed; then the first eligible tasks of that queue, up to half of it and up to 32, have left it, the least of them is returned, the others are queued here, and no other queue changed |
| `BoundedWaiting.PickLowersWait` | schedulers/cfs/cfs_scheduler.cc:1024-1080 | each pick takes the waiting task or lowers the bound |
| `BoundedWaiting.WaitingIsBounded` | schedulers/cfs/cfs_scheduler.cc:1024-1080 | if every pick charges at least d, a queued task t is picked after at most the sum over tasks j with v_j <= v_t of (v_t - v_j) / d + 1 other picks, whatever the charges |
| `BoundedWaiting.BoundIsMet` | schedulers/cfs/cfs_scheduler.cc:1024-1080 | the bound is attained: for every least charge d > 0 and every number n > 0 of turns there is a queue in which exactly n other picks come first and the bound is n |
| `CfsWeights.InverseIsInverse` | schedulers/cfs/cfs_scheduler.h:439-464 | for every nice value weight times inverse weight differs from 2^32 by less than the weight |
| `CfsWeights.InverseGrows` | schedulers/cfs/cfs_scheduler.h:456-464 | inverse weights grow with the nice value |
| `CfsWeights.DeltaMonotone` | schedulers/cfs/cfs_scheduler.cc:808-824 | the charge is monotone in the runtime and in the nice value |
| `CfsWeights.DeltaAtNiceZero` | schedulers/cfs/cfs_scheduler.cc:808-824 | at nice 0 the charge is the runtime |
| `CfsWeights.Delta64Exact` | schedulers/cfs/cfs_scheduler.cc:822-824 | for 64-bit runtimes the computed charge is exact if and only if inverse weight times runtime is below 2^86, which holds below 2^57 |
| `CfsWeights.OneRunError` | schedulers/cfs/cfs_scheduler.cc:808-824 | abs(w * delta * 2^22 - 2^32 * r) < w * (2^22 + r) |
| `CfsWeights.HistoryError` | schedulers/cfs/cfs_scheduler.cc:808-824 | the same for a runtime cut into any number of runs, with 2^22 per run |
| `CfsWeights.ProportionalShare` | schedulers/cfs/cfs_scheduler.cc:808-824 | two tasks whose vruntimes advanced by amounts at most `gap` apart ran in proportion to their weights, up to an explicit error |
| `PrioStream.StepKeeps` | shared/prio_table.cc:85-140 | every atomic access of any number of markers and one scraper keeps the invariant, spurious exchange failures included |
| `PrioStream.UnreportedIsCovered` | shared/prio_table.cc:85-140 | a completed mark that was not reported since is in a cell, or scrape_all is positive, or a full scan is under way, or its report is about to be returned |
| `PrioStream.NoEntriesMeansAllReported` | shared/prio_table.cc:109-140 | when NextUpdatedIndex returns kStreamNoEntries every mark completed before that call began had been reported; an overflow leaves nothing unreported; only marked indices are reported |
| `PrioStream.QuietCallReportsAll` | shared/prio_table.cc:109-140 | if moreover no mark completes during the call, nothing is left to report |
| `PrioStreamQuiet.FreeSlotIsFree` | shared/prio_table.cc:96-104 | a mark finds a cell exactly if one within its retries is free |
| `PrioStreamQuiet.FreeSlotIsFirst` | shared/prio_table.cc:95-104 | the cell found is the first free one of those of idx, the one after it and so on, the first cell following the last |
| `PrioStreamQuiet.OverflowMeansFull` | shared/prio_table.cc:95-107 | with as many retries as there are other cells a mark overflows only if every cell is occupied |
| `PrioStreamQuiet.MarkAloneIs` | shared/prio_table.cc:85-107 | the same of the run of its accesses: it stores in that cell, or raises scrape_all if and only if none is free |
| `PrioStreamQuiet.Stream.MarkUpdatedIndex` | shared/prio_table.cc:85-107 | alone: the index goes into the first free cell from its own on, or scrape_all is raised, exactly if none within the retries is free; nothing pending is forgotten |
| `PrioStreamQuiet.Stream.NextUpdatedIndex` | shared/prio_table.cc:113-140 | alone: reports the first occupied cell and frees it, or after an overflow frees all; finds nothing exactly if occupied cells plus the overflow flag are 0, else lowers that number; what it does not report stays to be reported |
| `PrioStreamQuiet.Stream.Drain` | schedulers/shinjuku/shinjuku_orchestrator.cc:54-65 | once markers stop, at most that many calls report everything |
| `PrioStreamQuiet.MarkIsRun` | shared/prio_table.cc:85-107 | MarkUpdatedIndex alone does to cells and scrape_all what the run of its accesses in PrioStream does |
| `PrioStreamQuiet.ScrapeIsRun` | shared/prio_table.cc:113-140 | NextUpdatedIndex alone reports, and leaves behind, what the run of its accesses in PrioStream does |
| `PrioStreamMarks.MarksByTheBook` | shared/prio_table.cc:85-107 | among any other threads: a mark stores its index in the cell after as many as it has failed at, only if that is free, and raises scrape_all only if that was raised when it began or more attempts have failed than there are retries; failures are read off the run |
| `PrioStreamMarks.MarkIsWaitFree` | shared/prio_table.cc:97-104 | every step of a mark brings it nearer to its return, whatever other threads do and however often exchanges fail |
| `PrioStreamMarks.ScrapeIsWaitFree` | shared/prio_table.cc:113-140 | the same of NextUpdatedIndex |
| `SeqCount.StepKeeps` | shared/prio_table.h:133-173 | every step of any number of writers and readers, fields written and copied one at a time, keeps the invariant; the counter is 32 bits and wraps |
| `SeqCount.WritersExclude` | shared/prio_table.h:133-155 | at most one writer is between write_begin and write_end, and write_end finds the counter it left |
| `SeqCount.AcceptedReadIsSnapshot` | shared/prio_table.h:157-173 | a read that read_end accepts copied exactly the fields the last completed write left, given fewer than 2^31 writes during the read |
| `SeqCount.ReadEndIff` | shared/prio_table.h:161-173 | read_end accepts exactly the reads that began unlocked and saw a multiple of 2^31 whole writes |
| `SeqCount.BeginAlone` | shared/prio_table.h:133-153 | undisturbed, write_begin and try_write_begin get in if the counter is unlocked, and the latter gives up if it is locked |
| `SeqCount.WriteAlone` | shared/prio_table.h:133-157 | an undisturbed write stores its values and completes, the counter moved on by two |
| `SeqCount.ReadAlone` | shared/prio_table.h:159-173 | an undisturbed read of an unlocked item is accepted and has what the last write left |
| `PrioTableSync.NeverStaleUnannounced` | schedulers/edf/orchestrator.h:37-82 | with marks, reports and copies as single steps: if no write is of a repeating work class, then outside a refresh the agent's parameters are the last completed write, or a writer is at work, or the index is marked and not yet reported, also after failed copies |
| `PrioTableSync.OnlyFlagsDiffer` | schedulers/edf/orchestrator.cc:123-134 | whatever the classes, with MakeEngineRunnable storing flags unguarded: the other fields are up to date or announced all the same, and the flags up to SCHED_ITEM_RUNNABLE unless the agent stored flags that it had loaded before a writer stored its own |
| `PrioTableSync.StraddlePutsBack` | schedulers/edf/orchestrator.cc:133 | that exception: from every reachable state between the agent's load and store, a write with any other flags leads to a state in which the agent has put the old ones back, keeps them, and nothing announces it |
| `PrioTableSync.QuietMeansUpToDate` | schedulers/edf/orchestrator.cc:41-70 | when nothing is reported and no writer is at work the agent is up to date in the same sense, and fully if no class repeats |
| `PrioTableSync.ElidedCopyIsKnown` | schedulers/edf/orchestrator.h:42-44 | a refresh elides the copy only if the agent has what was last written, up to flags it set itself, or takes the item for runnable while a writer is at work |
| `PrioTableSync.RefreshLeaves` | schedulers/edf/orchestrator.h:59-82 | a copy that no write overlapped becomes the agent's parameters; after any other the agent keeps what it has but takes the item for runnable |
| `PrioTableProtocol.AcceptedIs` | schedulers/edf/orchestrator.h:41-62 | field by field: read_end accepts a copy if and only if no write was under way when it began and none has begun since, and then it is the last completed write with the flags that are in memory, given fewer than 2^31 writes in between |
| `PrioTableProtocol.StepRefines` | schedulers/edf/orchestrator.h:37-82 | every access of writers, markers, scraper, reader and MakeEngineRunnable to the counter, the fields and the stream is one step of PrioTableSync or none |
| `PrioTableProtocol.RunRefines` | schedulers/edf/orchestrator.cc:41-70 | every run of the accesses is a run of PrioTableSync of the same writes |
| `PrioTableProtocol.NeverStaleUnannounced` | schedulers/edf/orchestrator.cc:20-28 | in every run of the accesses whose writes are of no repeating class: outside a refresh the agent's parameters are the last completed write, or a writer is at work, or the index is marked and not yet reported |
| `PrioTableProtocol.OnlyFlagsDiffer` | schedulers/edf/orchestrator.cc:123-134 | in every run of the accesses: the same of all fields but the flags, and of the flags up to SCHED_ITEM_RUNNABLE and straddled stores |
| `PrioTableProtocol.QuietMeansUpToDate` | schedulers/edf/orchestrator.cc:41-70 | if no writer of the item is at work during a call of NextUpdatedIndex that finds nothing, the agent's parameters are those of the last completed write, flags included if no class repeats, else up to SCHED_ITEM_RUNNABLE and straddled stores |
| `PrioTableClasses.EngineIsUnannounced` | schedulers/edf/edf_scheduler.cc:660-673 | for every repeating class a run of the accesses: a worker gets work, becomes idle, the agent learns it and makes the engine runnable; no writer is at work, nothing is marked, and the last completed write says idle |
| `PrioTableClasses.ClassesDecide` | schedulers/edf/orchestrator.cc:123-134 | that the agent is up to date or told of the change holds in all runs of the accesses with writes of given classes if and only if none of these classes repeats |
| `PrioTableClasses.ClassesDecideSync` | schedulers/edf/orchestrator.cc:123-134 | the same of the runs of PrioTableSync |
| `NotificationOnce.StepKeeps` | lib/base.cc:51-86 | every step of any number of waiters and one notifier keeps the invariant, spurious wake-ups and exchange failures included |
| `NotificationOnce.NobodyEarlyNobodyAsleep` | lib/base.cc:51-86 | no waiter returns before the notification; once Notify has returned no waiter is asleep; its CHECK holds |
| `NotificationOnce.EveryWaiterReturns` | lib/base.h:254-273 | after Notify every waiter can step, and each step of its own brings it closer to returning |
| `NotificationOnce.NotifyReturns` | lib/base.cc:50-68 | Notify returns: each step that loses no exchange brings it closer, and at its return the word is Notified |
| `AgentRpc.StepKeeps` | lib/agent.h:598-611 | every step of the caller and of the handler thread keeps the invariant, with Reset on both sides |
| `AgentRpc.HandlerStartsClean` | lib/agent.h:601-604 | the handler of a request finds the request of the call under way and an empty response |
| `AgentRpc.EachCallGetsItsAnswer` | lib/agent.h:598-611 | calls return, in order and once each, what the handler computed for their own request if the enclave was online when asked, and otherwise -ENODEV; the answers are read off the handler's steps in the run, not off the response it stored; Notify's CHECK never fails |
| `AgentRpc.NoDeadlock` | lib/agent.h:681-690 | while a call is under way some side can step |
| `AgentRpc.CallReturns` | lib/agent.h:681-690 | once exchanges stop failing for no reason and nobody is woken for no reason, a call takes at most 240 further steps of both sides, whatever their order |
| `RunRequest.StepKeeps` | lib/enclave.cc:759-804 | every step of any number of agents and of the kernel keeps the invariant, fields written and read one at a time, however the calls overlap; Open alone is serialized |
| `RunRequest.FieldsStable` | lib/enclave.cc:759-785 | from Open to the commit the fields stay as that Open wrote them; the kernel reads nothing else and completes only what it read in full |
| `RunRequest.OneOutcomeEach` | kernel/ghost_uapi.h:536-565 | each Open has exactly one outcome, and it is ABORTED exactly if the kernel never claimed it |
| `RunRequest.AbortIsFinal` | lib/enclave.cc:787-804 | Abort returns true only if the kernel did not and never will claim that transaction; false only if nothing was open or it was claimed or already aborted; whatever other agents do meanwhile |
| `RunRequest.CommitTellsOutcome` | lib/enclave.cc:559-637 | Commit returns true exactly if the last Open before it read the state completed, which is the caller's own or a later one; of a transaction never opened, exactly if it began as COMPLETE |
| `RunRequest.HistoryGrows` | lib/enclave.h:357-369 | outcomes and claims are never taken back |
| `RunRequest.CommitReturns` | lib/enclave.cc:559-583 | once the transaction is committed, two steps of Commit end it, with the answer whether it completed |
| `RunRequest.CallsAdvance` | lib/enclave.cc:518-637 | each step of Open, Abort, Commit and a failed sync commit brings it nearer to its return, except while it waits for a transaction that is owned, open or claimed |
| `RunRequest.FailsIff` | lib/enclave.cc:518-637 | exactly when a CHECK of Open, CompleteRunRequest or ReleaseSyncRequests fails |
| `RunRequestOwnership.StepKeeps` | lib/enclave.cc:759-804 | when callers keep apart Commit from Open, and Abort from an Open that takes ownership, every step keeps the invariant on who owns what |
| `RunRequestOwnership.ChecksNeverFail` | lib/enclave.cc:518-557 | then no CHECK of Open, CommitSyncRequests, ReleaseSyncRequests or CompleteRunRequest fails |
| `RunRequestOwnership.SyncCommitReleases` | lib/enclave.cc:518-557 | after CommitSyncRequests the agent owns no transaction of the group, and it returned true exactly if all of them completed |
| `RunRequestRaces.OwnershipEndsIff` | lib/enclave.cc:787-804 | in every run, whatever callers do: a step ends an agent's ownership of a transaction if and only if it is the release of an Abort of it, or of a failed sync commit that has it committed in its group, by whatever agent, or the owner's successful sync commit; ownership never passes directly to another |
| `RunRequestRaces.AbortTakesIff` | lib/enclave.cc:795-798 | an Abort takes away what another agent owns if and only if that agent owned it when the exchange succeeded or took it between exchange and release, and it has not been released in between |
| `RunRequestRaces.SyncTakesIff` | lib/enclave.cc:550-557 | ReleaseSyncRequests takes away what another agent owns if and only if that agent took it since the commit was answered and it has not been released in between |
| `RunRequestRaces.OnlyOwnerReleases` | lib/enclave.cc:787-804 | in every run, only owners give up a transaction if and only if every release of it is made by the owner |
| `RunRequestRaces.PromiseKeepsOwners` | lib/enclave.cc:787-804 | which is so when callers keep their side |
| `RunRequestRaces.AbortAloneTakesIff` | lib/enclave.cc:787-804 | an Abort that nothing overlaps takes away whatever ownership there is if and only if the transaction is open before the call |
| `RunRequestRaces.AbortTakesOwned` | lib/enclave.cc:795-798 | so in every reachable state in which an agent owns an open transaction and another is free, an Abort by the other leads to one without owner |
| `RunRequestRaces.AbortMayDropOwner` | lib/enclave.cc:795-798 | and if Abort overlaps another agent's owned Open: every state with two free agents and a transaction that can be opened leads to such a step |
| `HandOffInvariant.StepKeeps` | experiments/rocksdb/cfs_orchestrator.cc:126-302 | every step of load generator, dispatchers, workers and the terminating main thread keeps the invariant, in all three variants |
| `HandOffRuns.ChecksNeverFail` | experiments/rocksdb/cfs_orchestrator.cc:277-282 | no CHECK fails: a woken worker has requests, counts match vector sizes, nobody is assigned work twice, a PrioTable worker is idle when marked |
| `HandOffRuns.ExactlyOnce` | experiments/rocksdb/cfs_orchestrator.cc:126-161 | every polled request is in exactly one hand-off slot, dispatcher queue, worker batch or completed list, once, and nothing else is anywhere |
| `HandOffRuns.NoLostWakeup` | experiments/shared/thread_wait.cc:21-49 | a waiting worker with requests is marked runnable or about to be; one asleep although marked is about to be woken, unless the process terminates |
| `HandOffRuns.NoIdleWakeup` | experiments/rocksdb/cfs_orchestrator.cc:292-302 | a worker marked runnable has requests, unless the process terminates, and never more than the batch size |
| `HandOffOrder.ServedInOrder` | experiments/rocksdb/cfs_orchestrator.cc:126-161 | first come, first served, in every run: what a worker has completed and what is left of its batch is in the order of polling, so are its dispatcher's queue and slot, and everything still there was polled after everything the worker has been given |
| `HandOffRounds.TakesSlot` | experiments/rocksdb/cfs_orchestrator.cc:163-176 | left alone, a dispatcher appends a full slot to its queue and scans for idle workers, or turns round if it has nothing |
| `HandOffRounds.RoundDeals` | experiments/rocksdb/cfs_orchestrator.cc:178-247 | left alone, a dispatcher finds exactly those of its workers that are idle and deals them its queue, or what has arrived at the network: a full batch to each in turn, the last one less if there is no more, published, marked and woken; the rest stays |
| `HandOffRounds.WorkerServes` | experiments/rocksdb/cfs_orchestrator.cc:280-302 | left alone, a marked worker handles its whole batch in order and waits for the next |
| `HandOffRounds.GenFills` | experiments/rocksdb/cfs_orchestrator.cc:121-147 | left alone, the load generator passes over a dispatcher that has not taken its slot and gives every other one what has arrived, up to 100 requests |
| `HandOffUnchecked.LostWorker` | experiments/rocksdb/ghost_orchestrator.cc:141-154 | a run of the PrioTable variant without the IsIdle question ends with a worker waiting, unmarked, with a request in hand, and no dispatcher about to mark it |
| `HandOffUnchecked.IdleCheckDecides` | experiments/rocksdb/ghost_orchestrator.cc:141-154 | a variant has such a run if and only if it is the PrioTable variant without that question |
| `ArrList.ListIsUnique` | lib/queue.bpf.h:43-51 | a head stands for at most one sequence |
| `ArrList.LinksAreInverse` | lib/queue.bpf.h:86-96 | next and prev undo each other, the ends are first and last, and no element repeats |
| `ArrList.OtherListKept` | lib/queue.bpf.h:16-26 | a list none of whose elements was touched is unchanged |
| `ArrList.AllListsKept` | lib/queue.bpf.h:16-26 | an operation on one of several disjoint lists in an array keeps all of them |
| `ArrList.InsertOk` | lib/queue.bpf.h:101-153 | linking an element in at any position inserts it into the sequence there |
| `ArrList.RemoveOk` | lib/queue.bpf.h:155-169 | unlinking the element at any position removes it from the sequence |
| `ArrList.InsertHead` | lib/queue.bpf.h:101-113 | in place: the list becomes [id] + s; other lists untouched |
| `ArrList.InsertTail` | lib/queue.bpf.h:115-127 | in place: the list becomes s + [id]; other lists untouched |
| `ArrList.InsertBefore` | lib/queue.bpf.h:129-140 | in place: id goes before the given element |
| `ArrList.InsertAfter` | lib/queue.bpf.h:142-153 | in place: id goes after the given element |
| `ArrList.Remove` | lib/queue.bpf.h:155-169 | in place: the element goes, its links become 0 |
| `ArrList.PopFirst` | lib/queue.bpf.h:171-184 | in place: returns the first id, or 0, and leaves the rest |
| `ArrList.Concat` | lib/queue.bpf.h:219-230 | in place: empties the second list; the first becomes the concatenation if and only if the second was not empty or the first was |
| `ArrList.TailLostAfterEmptyConcat` | lib/queue.bpf.h:219-230 | otherwise an element inserted at the tail next is reached by no walk from the head |
| `ArrList.Foreach` | lib/queue.bpf.h:191-194 | visits the first min(max, length) elements; var is non-NULL afterwards exactly if the list is longer than max |
| `ArrList.ForeachReverse` | lib/queue.bpf.h:207-210 | the same on the mirror image |
| `ArrList.RemoveChosen` | lib/queue.bpf.h:201-205 | foreach_safe whose body removes chosen elements leaves, of those visited, exactly the others in order |
| `ArrList.KeepMeans` | lib/queue.bpf.h:201-205 | what is left contains an element exactly if it was there and not chosen |
| `ArrList.WalkIsList` | lib/queue.bpf.h:191-194 | following next from any element finds the rest of the list |
| `CpuBits.ElemsAre` | lib/topology.h:236-242 | the set bits of a word in ascending order; popcount is their number |
| `CpuBits.ClearLowest` | lib/topology.cc:40-44 | word &= word - 1 removes exactly the lowest set bit, which ctz names |
| `CpuBits.HighMaskBit` | lib/topology.cc:60-63 | ~0 << k has exactly the bits from k on |
| `CpuLists.MembersAre` | lib/topology.h:225-242 | the enumeration of a bitmap is strictly ascending and contains exactly its members |
| `CpuLists.SameMembers` | lib/topology.h:263-268 | bitmaps with the same members are equal word by word |
| `CpuLists.CpuList.Set` | lib/topology.h:360-366 | in place: adds exactly this CPU |
| `CpuLists.CpuList.Clear` | lib/topology.h:369-375 | in place: removes exactly this CPU |
| `CpuLists.CpuList.IsSet` | lib/topology.h:378-384 | membership |
| `CpuLists.CpuList.Union` | lib/topology.h:332-343 | in place: set union |
| `CpuLists.CpuList.Intersection` | lib/topology.h:318-330 | in place: set intersection |
| `CpuLists.CpuList.Subtract` | lib/topology.h:345-357 | in place: set difference |
| `CpuLists.CpuList.Size` | lib/topology.h:225-242 | the number of members |
| `CpuLists.CpuList.Empty` | lib/topology.h:215-223 | true exactly if there is no member |
| `CpuLists.CpuList.GetNthCpu` | lib/topology.cc:29-48 | the n-th smallest member, and none exactly if there are not that many |
| `CpuLists.CpuList.FindNextSetBit` | lib/topology.cc:50-80 | the first member from a position on, or num_cpus if there is none |
| `CpuLists.CpuList.Iterate` | lib/topology.cc:82-88 | a range-based for loop visits the members in ascending order, each once, and ends |
| `CpuLists.CpuList.ToIntVector` | lib/topology.h:306-316 | the members in ascending order |
| `CpuLists.ToCpuList` | lib/topology.h:557-564 | the set of the given CPUs |
| `CpuLists.RoundTrip` | lib/topology.h:557-564 | ToCpuList of ToIntVector gives the same words |
| `CpuMask.ValueBit` | lib/topology.h:409-416 | bit i of the number a bitmap stands for is membership of CPU i |
| `CpuMask.FromByteIsValue` | lib/topology.h:416-420 | reading the bitmap's bytes from memory spells that number |
| `CpuMask.HexOf` | lib/topology.h:411-431 | the digits written from the highest byte down are hexadecimal, spell the bitmap and have no leading zero |
| `CpuMask.AddCommas` | lib/topology.h:433-447 | the left-to-right loop puts commas between groups of 8 counted from the right, and only commas |
| `CpuMask.CommasAre` | lib/topology.h:433-447 | in the result the commas are at every ninth place from the right and nowhere else |
| `CpuMask.CpuMaskStr` | lib/topology.h:409-447 | without its commas the string is hexadecimal digits 0-9a-f that spell the bitmap; no leading zero except in "0"; groups of 8 from the right |
| `CpuMask.RenderingIsUnique` | lib/topology.h:409-447 | a bitmap has only one such rendering |
| `CpuMask.EqualStringsEqualSets` | lib/topology.h:409-447 | equal strings mean equal sets |

## Left out

- The kernel, ioctls, ghostfs, mmap, epoll and the futex call beyond the contracts above.
- `TaskSwitchto` and `from_switchto`: its kernel side is not part of this model, and it sets kDequeued on a task that already is.
- C++ object lifetime and weak memory orders: freeing a task removes it from the allocator's map; steps are sequentially consistent.
- `CfsAgentsRuns.NoRunnableTaskLost`: in the runs of `CfsAgents` a thread enters again only after its messages are handled and its old record is freed. What happens to one that enters earlier is in `CfsAgentsReentry`, up to the handling of its TASK_NEW.
- Sequence numbers of tasks and barriers are unbounded in `CfsAgents`; the source's are 32 bits wide.
- In `CfsAgents` a run queue is a set and any queued task may be picked or stolen; order, vruntime and `min_vruntime_` are in `RunQueue` and `CfsRunQueueObject`. Lockless sizes and `preempt_curr` are arbitrary values there.
- CPU tick messages, `MinPreemptionGranularity`, the priority-boost yield to the kernel beyond putting the current task back, the choice SelectTaskRq makes among the CPUs that the affinity allows (any of them may be chosen, or the agent's own if there is none), task discovery, agent start and stop, debug dumps, `StateTrace`, logging and signals.
- `LoadBalance` is atomic in module `LoadBalance`, with exact sizes; the interleavings of its two locked sections are in `CfsAgents`. Which tasks may move (affinity, association) is a given set.
- The ordered set of `CfsRq` is a sequence searched from the front, not a red-black tree; an insertion of a task that is already queued is excluded, as it is by the queue states.
- `CfsRunQueueObject.CfsRq.PickNextTask`: freeing a finished prev is left to the caller.
- Timing, random arrivals, latency and `MetricAnalyzer`; in the futex variant whether a worker finished recently is an arbitrary answer.
- `PrioStream`: `scrape_all` is unbounded, so 2^32 marks during one overflow are not modelled.
- `PrioTableProtocol`: one item is followed; work classes are read-only; fewer than 2^31 writes pass between two looks at the counter that are compared; an index outside the table, which is a fatal error, is never marked. `MakeEngineRunnable` may come whenever the agent is between refreshes and its copy shows no work in a repeating class; its CHECK that the item still belongs to the same thread is not modelled. A new agent that takes over the table of a crashed one is not modelled.
- `PrioStreamQuiet.Stream.Drain`: the agent's own loop stops after st_cap reports and continues at its next call.
- `AgentRpc`: callers hold `rpc_mutex`, so one call is under way at a time; what the handler computes, and whether the enclave is online, is arbitrary. When it is offline only the response code is written, and the rest of the response is that of an earlier call, as in the source.
- `RunRequest`: `allow_txn_target_on_cpu` and Ping are not modelled; a sync commit is one kernel step; failure codes outside those that CompleteRunRequest expects do not occur; nothing but the kernel goes on after a failed CHECK. Open of one transaction by two agents at once is excluded, by a lock that the callers hold.
- `RunRequestOwnership.ChecksNeverFail`, and StepKeeps and SyncCommitReleases likewise: callers promise to commit an unowned transaction before they open it again, not to open what another agent is waiting to see committed, not to abort what another agent owns, and not to take ownership of what an agent that does not own it is aborting.
- `HandOff`: MarkExit for all workers precedes the first wake-up by the main thread, as in `Terminate`; a spinning wait is a futex wait that may wake for no reason; request contents, deadlines and the handling of a request are not modelled.
- `HandOffRuns.NoLostWakeup`: once a worker has been told to exit, its wake-up rests on the main thread's repeated marking, which is not modelled as fair.
- `arr_list_foreach_reverse_safe`, the mirror image of foreach_safe; pointers are ids, so `__elem_to_id` is the identity.
- `CpuLists.CpuList.Union`, and Intersection and Subtract likewise: only lists whose members are CPUs of the topology, since the source combines only the words in use.
- `AtomicCpuMap`, topology discovery and the parsing of CPU strings.
- EDF and FIFO schedulers, the Orca sockets, RocksDB access, BPF loaders, the fd server and `experiments/custom`, whose hand-off repeats that of `experiments/rocksdb`.
