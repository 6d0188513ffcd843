# Verified model of the task-scheduling core

This project models the task schedulers and the workflow engine of the C++ core and proves what they promise:

- the descriptor's seven-state machine (`Tasks.dfy`);
- the concurrent scheduler with its dependency graph, budgets, aging, cooperative pause and cancellation
  (`PoolModel.dfy` and the other `Pool*.dfy` files, and the class in `ThreadPoolScheduler.dfy`);
- the single-threaded scheduler it replaces (`SimpleModel.dfy`, `SimpleScheduler.dfy`), and the two compared
  (`Workload.dfy`, `Agreement.dfy`);
- the workflow engine (`WorkflowModel.dfy`, `WorkflowRuns.dfy`, `WorkflowGraph.dfy`, `WorkflowOutcomes.dfy`,
  `WorkflowEngine.dfy`).

`dafny verify dfyconfig.toml` checks everything.

## How it is built

All shared state of the concurrent scheduler is guarded by one mutex. `PoolModel` has one specification function for
each section of code that runs under it: submit, cancel, pause request, resume, dispatch, progress checkpoint and the
return of a stage. The class `ThreadPool.ThreadPoolScheduler` has the source's fields and loops, and each of its methods
is proved to do to those fields what the specification function says. `PoolRuns.Next` lets any client or worker take any
of these steps at any time; a run is any finite sequence of steps from the empty scheduler. The invariant of
`PoolRuns` and the theorems of `PoolSafety`, `PoolLiveness`, `PoolPause`, `PoolTick`, `PoolAging`, `PoolPick`,
`PoolBudget`, `PoolOutcomes` and `PoolDeterminacy` are about all runs. `PoolPick`, `PoolBudget` and `PoolOutcomes` say what is dispatched,
held and recorded in terms of what clients submitted and when, without the model's own auxiliary functions.

`Evaluation` is an independent reference: it evaluates the jobs recursively in submission order, with no states, counters,
clocks or workers. Both schedulers are proved to end where it says, and `Agreement` compares them through it.

Time is a natural number that never decreases, in ticks of the steady clock (1,000,000 per millisecond). A stage is an
arbitrary outcome at each return; only where results are compared is it a function of its inputs.

## Hypotheses

- H1: descriptors are submitted in their initial state (`Tasks.Initial`).
- H2: an id whose rejected submission left edges behind is not submitted again. `PoolReuse` drops it: dependency safety
  then fails (`PoolFindings.StaleEdgeWakesTooEarly`), and `PoolReuse.DependencySafetyIff` and
  `PoolReuse.CountersCoverIff` say in exactly which runs it holds; it is enough that the tasks with left-over edges to
  the id have finished when it is used again (`PoolReuse.SettledReuseIsSafe`).
- H3: no wakeup meets a task paused while Queued. It is assumed only for exact counters and what follows from them,
  and it is exactly what they need (`PoolLiveness.CountersExactIff`); `PoolFindings.PauseCanStrandATask` is a run without it.
- H4: for the reference evaluation, nobody cancels or pauses, cancel tokens are not shared, and a stage is a function of
  its inputs (`PoolDeterminacy.Clean`).
- H5: only the worker that executes a task reports progress on it or returns its result, and not while held at a pause.
- H6: resource amounts and priorities are mathematical integers.
- H7: cancellation is requested through the scheduler. A client that requests it directly on a token it supplied takes no
  step of the model; that changes only whether a stage that fails afterwards leaves its task Canceled or Failed.

## Where the code and its documentation disagree

The model follows the code.

- The design requires every dependency to exist at submission (docs/M3_SCHEDULER_DESIGN.md, section "Submit"). The code
  does not notice an unknown dependency that is listed behind a Failed or Canceled one. Whether such a call is accepted
  thus depends on the schedule, which is why the results about equal calls ask for known dependencies.
- A rejected submission leaves edges behind, for good. They can wake a later task of the same id too early, or make its
  resubmission look like a cycle, even after the missing dependency was supplied.
- A task paused while Queued misses the success of its dependency and stays Queued for ever after its resume.
- A pause times out only if the task reaches no checkpoint, says the design. A caller that looks too late, after the task
  was paused and resumed, takes this for a timeout and cancels the task.
- In the single-threaded scheduler, resume of a Ready task that is not paused moves it to Running, where no tick finds it.
- The rollback of a failed start also cancels the id of the rejected submission, which may belong to an older task.

## Model

| member | source | states |
|---|---|---|
| `Tasks.TaskDescriptor.constructor` | core/include/core/task.h:58-82 | A new descriptor is Queued, with no `pausedFrom`, no times and no error. |
| `Tasks.TaskDescriptor.TransitionTo` | core/src/task.cpp:54-123 | Takes exactly the legal transitions of the seven-state machine, refuses the others without any change, and keeps the bookkeeping of `pausedFrom`, `startedAt`, `finishedAt` consistent with the state. |
| `Tasks.AttemptsKeepLifecycle` | core/src/task.cpp:54-123 | After every sequence of transition attempts on an initial descriptor, `pausedFrom` is set exactly in Paused (and is Queued, Ready or Running), `finishedAt` exactly in terminal states, and `startedAt` fits. |
| `Tasks.TransitionIff` | core/include/core/task.h:82-90 | A transition takes effect if and only if it is one of the listed pairs of states; it sets the state and keeps identity, dependencies, priority, demand, token and, but for a retry, the error. |
| `Tasks.TransitionTimes` | core/src/task.cpp:105-120 | The first start is remembered through pauses, the finish is the time of the transition into a terminal state, and a retry forgets both with the error. |
| `Tasks.PauseThenRestore` | core/src/task.cpp:95-103 | Pausing from wherever it is legal and going back to the recorded state gives back the identical descriptor. |
| `Tasks.TerminalUnlessRetried` | core/src/task.cpp:78-86 | From a terminal state no sequence of attempts changes anything, except the retry of a Failed task. |
| `Evaluation.MergeLastWins` | core/src/thread_pool_scheduler.cpp:455-463 | The inputs of a stage: a key is present exactly if some dependency provides it, and carries the value of the last one in `deps` order that does. |
| `Evaluation.EvaluateStable` | core/src/thread_pool_scheduler.cpp:453-463 | The reference evaluation in submission order judges each task from the tasks before it; later tasks change nothing. |
| `Evaluation.BlockedBy` | docs/M3_SCHEDULER_DESIGN.md:67-68 | In the reference evaluation a task with an earlier dependency that is not Done is Blocked. |
| `Evaluation.JudgedByItself` | core/src/thread_pool_scheduler.cpp:564-596 | In the reference evaluation a task whose dependencies are all Done gets the result of its own stage on their merged outputs. |
| `Evaluation.BlockedIff` | docs/M3_SCHEDULER_DESIGN.md:67-68 | A task is Blocked in the reference evaluation exactly if some ancestor, at any distance, failed or was canceled by its own result. |
| `Evaluation.NotDoneBlocks` | docs/M3_SCHEDULER_DESIGN.md:67-68 | A dependency that is not Done blocks a task wherever it stands in the submission order. |
| `Evaluation.OrderDoesNotMatter` | docs/M3_SCHEDULER_DESIGN.md:67-68 | Two submission orders of the same jobs, each with dependencies before dependents, give every job the same verdict and outputs. |
| `PoolModel.Normalize` | core/src/thread_pool_scheduler.cpp:383-405 | Every configuration is normalised to positive workers, CPU slots, interval, boost and timeout and non-negative soft limits; an already normal one is unchanged. |
| `PoolModel.NormalizeDefaults` | core/src/thread_pool_scheduler.cpp:24-30 | What each setting defaults to: workers one less than the hardware threads within 2 and 8 or 4 if unknown, as many CPU slots as workers, no memory limit for negative ones, 500 ms, 1 and 1500 ms. |
| `PoolModel.StopAt` | core/src/thread_pool_scheduler.cpp:117-139 | The dependency loop of `submit` ends at the first dependency that is the task itself, unknown, Failed or Canceled. |
| `PoolInvariants.ReleaseExact` | core/src/thread_pool_scheduler.cpp:554-558 | When a stage returns, the release leaves exactly the demands of the other running tasks: the clamp at zero never changes a value. |
| `PoolInvariants.HeldBounds` | core/src/thread_pool_scheduler.cpp:775-786 | The demands of a set of accepted tasks are non-negative and need at least one CPU slot each. |
| `PoolInvariants.CutCounts` | core/src/thread_pool_scheduler.cpp:635-688 | Cancelling descendants keeps every surviving `unmet_deps` counter as right as it was. |
| `PoolInvariants.CutCloses` | core/src/thread_pool_scheduler.cpp:635-688 | After propagation every accepted task with a Failed or Canceled dependency is Canceled. |
| `PoolInvariants.WakeOne` | core/src/thread_pool_scheduler.cpp:613-631 | One success decrements a counter by exactly the multiplicity of the edge; the counter stays exact if and only if the task was not skipped as Paused-from-Queued. |
| `PoolInvariants.WakeCounts` | core/src/thread_pool_scheduler.cpp:606-633 | The same for all tasks: counters never fall below the missing dependencies, and stay exact if and only if no task was skipped. |
| `PoolInvariants.GoBadKeepsCore` | core/src/thread_pool_scheduler.cpp:598-599 | A task that fails or is canceled, followed by propagation, keeps the whole invariant. |
| `PoolInvariants.GoDoneKeepsCore` | core/src/thread_pool_scheduler.cpp:565-570 | A success followed by the wakeup keeps the whole invariant. |
| `PoolRuns.FreshCycle` | core/src/thread_pool_scheduler.cpp:105-108 | For an id no edge leads to, the cycle guard fires exactly if the task depends on itself. |
| `PoolRuns.SubmitKeepsInv` | core/src/thread_pool_scheduler.cpp:67-169 | Submission, accepted, blocked or rejected half-way, keeps the invariant, the results of finished tasks, and exact counters. |
| `PoolRuns.CancelKeepsInv` | core/src/thread_pool_scheduler.cpp:171-221 | Cancel keeps the invariant. |
| `PoolRuns.PauseKeepsInv` | core/src/thread_pool_scheduler.cpp:223-289 | The pause request keeps the invariant. |
| `PoolRuns.ResumeKeepsInv` | core/src/thread_pool_scheduler.cpp:291-326 | Resume keeps the invariant and succeeds exactly on Paused tasks. |
| `PoolRuns.DispatchKeepsInv` | core/src/thread_pool_scheduler.cpp:415-473 | Dispatching the picked task keeps the invariant, resource budgets included; the task was Ready and had never been started. |
| `PoolRuns.CheckpointKeepsInv` | core/src/thread_pool_scheduler.cpp:486-540 | A progress report, where a requested pause takes effect, keeps the invariant. |
| `PoolRuns.FinalizeKeepsInv` | core/src/thread_pool_scheduler.cpp:542-604 | The return of a stage keeps the invariant, and keeps counters exact if and only if it skips nobody. |
| `PoolRuns.StepKeepsInv` | core/src/thread_pool_scheduler.cpp:67-604 | Every step of the protocol keeps the invariant, lets no terminal task change and no counter lose surplus, and keeps exact counters exact if and only if it skips no wakeup. |
| `PoolRuns.TraceKeepsInv` | core/src/thread_pool_scheduler.cpp:67-604 | From any state of a run to any later one the invariant is kept, terminal tasks do not change and no counter loses surplus. |
| `PoolRuns.RunKeepsInv` | core/src/thread_pool_scheduler.cpp:67-604 | The invariant holds in every state of every run from the empty scheduler. |
| `PoolSubmission.SubmitAcceptedIff` | core/src/thread_pool_scheduler.cpp:67-169 | A submission of an id without left-over edges is accepted if and only if it has a stage and a new, non-empty id, its CPU demand fits, it does not depend on itself, and no unknown dependency comes before all Failed and Canceled ones. |
| `PoolSubmission.MissingDependencyRejectedIff` | core/src/thread_pool_scheduler.cpp:117-139 | The design rejects every missing dependency; the code does if and only if an unknown dependency comes before all Failed and Canceled ones. |
| `PoolSubmission.CycleOfSelf` | core/src/thread_pool_scheduler.cpp:105-121 | A self-dependency is always reported by the cycle guard; the separate check for it is never reached. |
| `PoolSubmission.AcceptedByCalls` | core/src/thread_pool_scheduler.cpp:67-169 | If every submit call of a run names accepted dependencies only, the accepted jobs and their order follow from the calls and the CPU budget, whatever the schedule. |
| `PoolReuse.SuccessCoversIff` | core/src/thread_pool_scheduler.cpp:613-631 | Without H2: a success leaves a counter no smaller than the missing dependencies if and only if left-over edges do not outnumber lost wakeups or nothing else is missing; for an exact counter, if and only if no edge is left over or nothing else is missing. |
| `PoolReuse.SuccessSafeIff` | core/src/thread_pool_scheduler.cpp:613-631 | Without H2: a success keeps a task from running ahead of its dependencies if and only if it does not exhaust its counter while another dependency is missing. |
| `PoolReuse.CountersCoverIff` | core/src/thread_pool_scheduler.cpp:606-633 | Over whole runs without H2 and H3, the counters cover the missing dependencies throughout if and only if no success hits a Queued task over more left-over edges than it has lost wakeups while it misses another dependency. |
| `PoolReuse.DependencySafetyIff` | core/src/thread_pool_scheduler.cpp:606-633 | Over whole runs without H2 and H3, dependency safety holds throughout if and only if no success exhausts the counter of a Queued task that misses another dependency. |
| `PoolReuse.EarlyOverLeftOver` | core/src/thread_pool_scheduler.cpp:613-631 | As long as counters cover what is missing, a task is released early only over a left-over edge. |
| `PoolReuse.SettledReuseIsSafe` | core/src/thread_pool_scheduler.cpp:113-161 | What a client can check before it reuses an id: if every task with a left-over edge to it has finished by then, dependency safety and the counters hold throughout every run, without H2 and H3. |
| `PoolReuse.NoReuseNoOverwake` | core/src/thread_pool_scheduler.cpp:117-127 | Under H2 neither of the two ever happens. |
| `PoolReuse.CycleIff` | core/src/thread_pool_scheduler.cpp:788-819 | The cycle guard fires if and only if a dependency is the new id or reaches a task with an edge to it. |
| `PoolReuse.ResubmissionCycleIff` | core/src/thread_pool_scheduler.cpp:105-127 | After a rejection nothing leads on from the id, so it can close no cycle but a self-dependency; a resubmission is nevertheless taken for a cycle if and only if a dependency is, or reaches, one over which the rejected call pushed an edge. |
| `PoolReuse.RejectionIsPermanent` | core/src/thread_pool_scheduler.cpp:105-127 | Edges are never removed: from then on every submission of the id with such a dependency is rejected, in every continuation. |
| `PoolEffects.SuccessEffect` | core/src/thread_pool_scheduler.cpp:554-570 | A success settles its task and gives back its demand, decrements every other task once per edge, and adds exactly the tasks that became Ready to the ready set; edges and tokens stay. |
| `PoolEffects.FailureEffect` | core/src/thread_pool_scheduler.cpp:554-599 | A failure or cancellation settles its task, gives back its demand, cancels exactly the unfinished tasks below it and takes them out of the ready set; edges stay. |
| `PoolEffects.FailureTokens` | core/src/thread_pool_scheduler.cpp:666-668 | Propagation requests cancellation on no tokens but those of the tasks it cancels. |
| `PoolSafety.DependencySafety` | core/src/thread_pool_scheduler.cpp:113-161 | In every state of every run, pauses and resumes included, a task that is Ready, Running, paused from either, Failed or Succeeded has all its dependencies Succeeded; a waiting one has a counter no smaller than what it misses. |
| `PoolSafety.CancellationClosure` | core/src/thread_pool_scheduler.cpp:129-152 | In every state of every run each accepted task below a Failed or Canceled one is Canceled, tasks submitted after the failure included. |
| `PoolSafety.ResourceConservation` | core/src/thread_pool_scheduler.cpp:775-786 | In every state of every run `resource_in_use_` is the sum of the demands of the tasks whose `running` flag is set, and the number of running tasks and their CPU slots stay within the hard limit. |
| `PoolSafety.ReleaseNeverClamps` | core/src/thread_pool_scheduler.cpp:781-786 | In every run the `max(0, ...)` of the release never changes a value. |
| `PoolSafety.SoftEscapeIsExclusive` | core/src/thread_pool_scheduler.cpp:764-772 | In every run, over a soft limit exactly one task holds resources and no pick exists until it has finished. |
| `PoolSafety.IndexConsistency` | core/src/thread_pool_scheduler.cpp:436-472 | In every run `ready_set_` is exactly the Ready tasks, `running_set_` exactly the tasks with the flag and exactly the executing workers; a flagged task is Running, Paused from Running, or Canceled. |
| `PoolSafety.ReturnFindsRunningOrCanceled` | core/src/thread_pool_scheduler.cpp:560-599 | A stage never returns into a task that is neither Running nor Canceled, so no transition of finalize is refused. |
| `PoolSafety.TerminalIsAbsorbing` | core/src/thread_pool_scheduler.cpp:560-599 | In every run a terminal task never changes its state or outputs again. |
| `PoolSafety.DispatchedAtMostOnce` | core/src/thread_pool_scheduler.cpp:436-451 | In every run no task is dispatched twice. |
| `PoolSafety.BelowIsLater` | core/src/thread_pool_scheduler.cpp:105-127 | Whatever a task reaches over edges was accepted after it. |
| `PoolSafety.AlwaysAcyclic` | core/src/thread_pool_scheduler.cpp:105-127 | In every run the graph over accepted tasks is acyclic and submission order is topological. |
| `PoolSafety.ResumeRestores` | core/src/thread_pool_scheduler.cpp:301-318 | In every run resume succeeds exactly on Paused tasks and returns the task to the state it was paused in; the fallback to Running is never used to skip gating. |
| `PoolSafety.CancellationIsVisible` | core/src/thread_pool_scheduler.cpp:185-215 | In every run a task that is Canceled while its stage still executes has a cancellation request on its token. |
| `PoolLiveness.CountersExactIff` | core/src/thread_pool_scheduler.cpp:606-633 | Over a whole run every `unmet_deps` of a waiting task equals the number of its unsucceeded dependencies if and only if no wakeup skipped a Paused-from-Queued task. |
| `PoolLiveness.NothingLeftToPromote` | core/src/scheduler.cpp:119-136 | With exact counters no Queued task has all dependencies Succeeded: a full scan would promote nobody. |
| `PoolLiveness.WakeAgreesWithScan` | core/src/thread_pool_scheduler.cpp:606-633 | A success makes Ready exactly the Queued tasks that the full scan of the single-threaded scheduler would promote. |
| `PoolLiveness.LostForever` | core/src/thread_pool_scheduler.cpp:619-621 | A lost wakeup is never made up for: in the rest of the run the task stays lost or is canceled, and is never Ready, Running or Succeeded. |
| `PoolLiveness.SkippedIsLost` | core/src/thread_pool_scheduler.cpp:619-621 | Each skipped task loses its wakeup at once. |
| `PoolLiveness.BetterIsOrder` | core/src/thread_pool_scheduler.cpp:744-752 | The comparison of candidates is a strict total order. |
| `PoolLiveness.LessIsStrict` | core/src/thread_pool_scheduler.cpp:751 | The lexicographic order of ids is irreflexive and total. |
| `PoolLiveness.LessIsTransitive` | core/src/thread_pool_scheduler.cpp:751 | The lexicographic order of ids is transitive. |
| `PoolLiveness.PickIsUnique` | core/src/thread_pool_scheduler.cpp:709-773 | The pick is a function of the state, whatever order the ready set is scanned in. |
| `PoolLiveness.BestExists` | core/src/thread_pool_scheduler.cpp:744-762 | Every non-empty set of candidates has a best one. |
| `PoolLiveness.PickExists` | core/src/thread_pool_scheduler.cpp:709-773 | In every state the specification of the pick has an answer. |
| `PoolLiveness.FirstIsReleased` | core/src/thread_pool_scheduler.cpp:113-161 | With exact counters the first unfinished task in submission order does not wait. |
| `PoolLiveness.DeadlockFree` | core/src/thread_pool_scheduler.cpp:764-772 | With exact counters and nobody paused, while a task is unfinished something runs or something can be dispatched, whatever the budgets. |
| `PoolLiveness.WorkStep` | core/src/thread_pool_scheduler.cpp:407-604 | Each dispatch and each return takes at least one from the remaining work of the accepted tasks, and no step adds to it. |
| `PoolLiveness.WorkIsBounded` | core/src/thread_pool_scheduler.cpp:407-604 | In every run the workers take at most two steps for each accepted task. |
| `PoolLiveness.StuckUnfinishedIff` | core/src/thread_pool_scheduler.cpp:606-633 | Where any run ends that the workers cannot continue and nobody is paused, a task that is not Canceled is unfinished if and only if it or one of its ancestors lost a wakeup. |
| `PoolLiveness.StuckMeansFinished` | core/src/thread_pool_scheduler.cpp:407-604 | A run without skipped wakeups and paused tasks that the workers cannot continue has finished every task. |
| `PoolPause.ExecutesUntilFinished` | core/src/thread_pool_scheduler.cpp:436-599 | In every run a task that was dispatched executes, running or paused from running, until it is finished. |
| `PoolPause.RequestPends` | core/src/thread_pool_scheduler.cpp:249-264 | In every run a pause request on a running task stays in force, with its deadline or a later one, until the task is Paused or finished. |
| `PoolPause.PausedUntilResumed` | core/src/thread_pool_scheduler.cpp:503-530 | In every run a task held at its checkpoint stays Paused until a successful resume, or until it is finished. |
| `PoolPause.TimeoutAfterPauseIff` | core/src/thread_pool_scheduler.cpp:249-284 | A caller of pause that finds the pause not over is about to cancel a running task. The task had been paused since the request if and only if somebody resumed it since; with no resume the request is still in force. |
| `PoolPause.TimedOutPauseFinishes` | core/src/thread_pool_scheduler.cpp:273-284 | Whatever other steps come in between, the cancel of a pause that timed out leaves the task Canceled or as it had finished, with a cancellation request on its token. |
| `PoolPick.LessIff` | core/src/thread_pool_scheduler.cpp:751 | The comparison of ids is lexicographic: at the first place where they differ the smaller character decides, and a proper prefix comes first. |
| `PoolPick.BetterIff` | core/src/thread_pool_scheduler.cpp:728-752 | Of two ready tasks the better one has the higher priority plus boost for each whole aging interval waited, the interval counts being given by the two bounds of rounding down; then the longer wait; then the smaller id. |
| `PoolPick.PickSomeIff` | core/src/thread_pool_scheduler.cpp:709-772 | The pick in terms of priorities, waiting times, demands and limits. |
| `PoolPick.DispatchedNextIff` | core/src/thread_pool_scheduler.cpp:694-772 | In every state of every run a task may be dispatched next if and only if it is Ready, its CPU slots are free, it keeps memory within the enabled limits and beats every other such task, or nothing runs, no startable task keeps within them, and it beats every other startable one. |
| `PoolPick.NothingToDispatchIff` | core/src/thread_pool_scheduler.cpp:694-772 | In every state of every run there is nothing to dispatch if and only if no Ready task fits CPU and memory, and either something runs or no Ready task fits the CPU slots. |
| `PoolPick.ReadyIsPast` | core/src/thread_pool_scheduler.cpp:625-632 | In every run a Ready task became Ready no later than the present. |
| `PoolPick.LeaderGoesFirst` | core/src/thread_pool_scheduler.cpp:728-752 | The converse of bounded overtaking: a Ready task whose priority leads by more than the boosts of the whole intervals another may be ahead, and that demands no more, goes first in every run as long as it is Ready. |
| `PoolBudget.SubmitStores` | core/src/thread_pool_scheduler.cpp:84-115 | An accepted submission stores id, dependencies, priority and stage as submitted, at least one CPU slot, no negative memory demand, and the given token or one of its own. |
| `PoolBudget.StoredAsSubmitted` | core/src/thread_pool_scheduler.cpp:84-115 | This stays so in every state of every run. |
| `PoolBudget.UseIsTotal` | core/src/thread_pool_scheduler.cpp:775-786 | In every state of every run CPU, RAM and VRAM in use are each the sum of what was submitted for the tasks whose stages execute, and CPU stays within its hard limit. |
| `PoolBudget.MemoryWithinOrAlone` | core/src/thread_pool_scheduler.cpp:699-772 | In every run, if the submitted demands of the executing tasks exceed an enabled memory limit, one task executes and the next step dispatches none. |
| `PoolOutcomes.FailingStageIff` | core/src/thread_pool_scheduler.cpp:579-596 | In every run, cancels and shared tokens included, a failing stage leaves its task Canceled if and only if its error says so or cancellation was requested on its token, else Failed; error and finish time are recorded. |
| `PoolOutcomes.SucceedingStage` | core/src/thread_pool_scheduler.cpp:564-570 | In every run a succeeding stage leaves its running task Succeeded with the outputs it returned. |
| `PoolOutcomes.LateReturnIgnored` | core/src/thread_pool_scheduler.cpp:560-563 | In every run a stage whose task was canceled meanwhile changes neither state, error nor outputs. |
| `PoolOutcomes.DispatchStarts` | core/src/thread_pool_scheduler.cpp:436-451 | In every run a dispatched task was Ready and never started; it now runs, started at this moment, not asked to pause, and no other task changes. |
| `PoolOutcomes.RequestedTokensIff` | core/src/thread_pool_scheduler.cpp:185-187 | In every run a step requests cancellation on exactly the token of the task a client cancels and those of the tasks it cancels as dependents. |
| `PoolOutcomes.CanceledErrors` | core/src/thread_pool_scheduler.cpp:204-206 | In every run a task canceled as a dependent carries the error of a canceled ancestor, one canceled by its client keeps its error or gets that of a plain cancellation. |
| `PoolOutcomes.SubmitErrors` | core/src/thread_pool_scheduler.cpp:72-124 | A rejected submission reports a resource error if and only if it has a stage and a new id and asks for too many CPU slots. |
| `PoolOutcomes.BlockedAtSubmit` | core/src/thread_pool_scheduler.cpp:141-152 | An accepted task is Canceled at once, with its own error code, if and only if a dependency is Failed or Canceled. |
| `PoolOutcomes.CancelAnswers` | core/src/thread_pool_scheduler.cpp:171-221 | Cancel succeeds exactly on known tasks and leaves them finished and no longer asked to pause. |
| `PoolOutcomes.PauseAnswers` | core/src/thread_pool_scheduler.cpp:223-253 | A pause is answered at once exactly for waiting, Ready and Paused tasks, which then are Paused; it makes the caller wait exactly for running ones, with the deadline set from the timeout. |
| `PoolOutcomes.CheckpointHolds` | core/src/thread_pool_scheduler.cpp:503-512 | A progress report holds the worker of a running task if and only if a pause was requested. |
| `PoolAging.HeadStart` | core/src/thread_pool_scheduler.cpp:728-736 | Waiting k whole intervals longer counts k more intervals despite both roundings. |
| `PoolAging.Outranks` | core/src/thread_pool_scheduler.cpp:728-752 | With a head start of k intervals worth at least the difference in priority, the earlier task outranks the later one at every instant. |
| `PoolAging.KeepsFromPick` | core/src/thread_pool_scheduler.cpp:754-772 | A Ready task that outranks another and demands no more keeps it from being picked, the soft-budget escape included. |
| `PoolAging.NoOvertaking` | core/src/thread_pool_scheduler.cpp:728-770 | Bounded overtaking over whole runs: if one task is Ready for k intervals before another becomes Ready, k boosts make up for its lower priority and it demands no more, the other is not dispatched before the first has been dispatched, paused or canceled. |
| `PoolDeterminacy.VerdictOfRunning` | core/src/thread_pool_scheduler.cpp:453-463 | The verdict of a running task is what its stage makes of the inputs a worker collected. |
| `PoolDeterminacy.CutIsBlocked` | core/src/thread_pool_scheduler.cpp:635-688 | Whoever propagation cancels is Blocked in the reference evaluation. |
| `PoolDeterminacy.FinishedAsEvaluated` | core/src/thread_pool_scheduler.cpp:542-604 | At any time in a clean run, every terminal task has the state and outputs of the recursive evaluation of the graph in submission order; it was canceled without having started if and only if some ancestor failed or was canceled by its own result. |
| `PoolDeterminacy.Determinacy` | core/src/thread_pool_scheduler.cpp:407-604 | Two completed clean runs that accepted the same jobs, in whatever order, end with the same states and outputs, whatever the interleavings, worker counts, budgets and priorities. |
| `PoolDeterminacy.NeverStartedIff` | core/src/thread_pool_scheduler.cpp:635-688 | After a completed clean run the tasks that never started are exactly those with an ancestor that ran and did not succeed, and all of them are Canceled. |
| `PoolDeterminacy.SameCallsSameResults` | core/src/thread_pool_scheduler.cpp:67-169 | Two completed clean runs with the same submit calls, each naming accepted dependencies only, and the same CPU budget accept the same jobs and end alike. |
| `PoolFindings.QueuedEdgesExactIff` | core/src/thread_pool_scheduler.cpp:117-127 | The edges into a newly accepted task are its dependencies if and only if no edge led to its id before. |
| `PoolFindings.StaleSceneArises` | core/src/thread_pool_scheduler.cpp:117-127 | The state with a left-over edge is reached by four submissions from the empty scheduler. |
| `PoolFindings.StaleEdgeWakesTooEarly` | core/src/thread_pool_scheduler.cpp:613-631 | In it a task becomes Ready although its only dependency has not been dispatched: an input at which dependency safety fails. |
| `PoolFindings.RetryIsRejected` | core/src/thread_pool_scheduler.cpp:105-127 | A client whose task was rejected for a missing dependency submits that dependency and then the task again: it is rejected as a cycle. |
| `PoolFindings.MissingDependencyUnnoticed` | core/src/thread_pool_scheduler.cpp:117-139 | The same submission with an unknown dependency is rejected while the dependency before it is Ready, and accepted once that one has been dispatched and has failed. |
| `PoolFindings.PauseCanStrandATask` | core/src/thread_pool_scheduler.cpp:619-621 | A run that ends with a Queued task whose only dependency Succeeded, nobody paused, and nothing the workers can do: exact counters need H3. |
| `PoolFindings.ResumeDefeatsPause` | core/src/thread_pool_scheduler.cpp:249-284 | A run in which a requested pause takes effect in time, the task is resumed before the caller looks, and the caller cancels it as timed out. |
| `ThreadPool.ThreadPoolScheduler.constructor` | core/src/thread_pool_scheduler.cpp:383-405 | The scheduler starts empty with a normal configuration. |
| `ThreadPool.ThreadPoolScheduler.FindsCycle` | core/src/thread_pool_scheduler.cpp:788-819 | The explicit-stack walk terminates on every finite graph and answers whether the new id is reachable from its dependencies. |
| `ThreadPool.ThreadPoolScheduler.PickCandidate` | core/src/thread_pool_scheduler.cpp:709-773 | The scan with two running bests, in any order, returns the unique best fitting task, or the best soft-over task when nothing runs, or nothing. |
| `ThreadPool.ThreadPoolScheduler.CutOff` | core/src/thread_pool_scheduler.cpp:666-683 | Cancelling one descendant changes its node, the ready set and its token only. |
| `ThreadPool.ThreadPoolScheduler.VisitSuccessors` | core/src/thread_pool_scheduler.cpp:650-686 | The inner loop cancels exactly the newly visited unfinished successors and keeps what the outer walk needs. |
| `ThreadPool.ThreadPoolScheduler.PropagateCanceled` | core/src/thread_pool_scheduler.cpp:635-688 | The stack-and-visited walk terminates and cancels exactly the unfinished tasks reachable from its root. |
| `ThreadPool.ThreadPoolScheduler.WakeSuccessors` | core/src/thread_pool_scheduler.cpp:606-633 | The loop over the successor list decrements each Queued successor once per edge and makes Ready those that reach zero. |
| `ThreadPool.ThreadPoolScheduler.LinkDependencies` | core/src/thread_pool_scheduler.cpp:113-139 | Which edges are pushed, how many dependencies are counted, and whether the loop failed, was blocked or completed. |
| `ThreadPool.ThreadPoolScheduler.Submit` | core/src/thread_pool_scheduler.cpp:67-169 | Submission in place refines its specification function, the error paths and the edges they leave behind included. |
| `ThreadPool.ThreadPoolScheduler.Cancel` | core/src/thread_pool_scheduler.cpp:171-221 | Cancel in place refines its specification function. |
| `ThreadPool.ThreadPoolScheduler.Pause` | core/src/thread_pool_scheduler.cpp:223-253 | The pause request in place, up to the wait for a checkpoint, refines its specification function. |
| `ThreadPool.ThreadPoolScheduler.EndPause` | core/src/thread_pool_scheduler.cpp:266-289 | After the wait, whatever steps came in between: success if the pause was over in the state the caller saw last, even by a task that finished; otherwise the task is canceled and the timeout error is returned. |
| `ThreadPool.ThreadPoolScheduler.Resume` | core/src/thread_pool_scheduler.cpp:291-326 | Resume in place refines its specification function. |
| `ThreadPool.ThreadPoolScheduler.TimedOut` | core/src/thread_pool_scheduler.cpp:334-344 | Returns each running task whose pause deadline has passed exactly once. |
| `ThreadPool.ThreadPoolScheduler.Tick` | core/src/thread_pool_scheduler.cpp:333-352 | A tick cancels the timed-out tasks one after the other. |
| `PoolTick.TickCancels` | core/src/thread_pool_scheduler.cpp:346-349 | In whatever order a tick goes through the timed-out tasks, all of them end Canceled, and every other task is unchanged in state or Canceled. |
| `PoolTick.TickListsIff` | core/src/thread_pool_scheduler.cpp:338-344 | In every state of every run a tick lists a task if and only if a pause was requested while it ran, the pause has not been over since, and the deadline set by the latest request has come. |
| `PoolTick.BelowUnsucceeded` | core/src/thread_pool_scheduler.cpp:635-688 | Whatever is below a task that has not succeeded waits or is Canceled, so canceling a running task never hits another executing one. |
| `PoolTick.TickCancelsIff` | core/src/thread_pool_scheduler.cpp:333-352 | In every state of every run a tick cancels an executing task if and only if that deadline has come, and leaves every other executing task as it is. |
| `ThreadPool.ThreadPoolScheduler.HasPendingTasks` | core/src/thread_pool_scheduler.cpp:354-362 | True exactly if some task is not terminal. |
| `ThreadPool.ThreadPoolScheduler.Dispatch` | core/src/thread_pool_scheduler.cpp:415-473 | A worker takes the unique pick, reserves its demand and collects its inputs; with no pick nothing changes. |
| `ThreadPool.ThreadPoolScheduler.CollectInputs` | core/src/thread_pool_scheduler.cpp:455-463 | The loop over the dependencies merges their outputs in order. |
| `ThreadPool.ThreadPoolScheduler.Checkpoint` | core/src/thread_pool_scheduler.cpp:486-513 | A progress report refines its specification function; the worker is held exactly if the task went from Running to Paused. |
| `ThreadPool.ThreadPoolScheduler.Finalize` | core/src/thread_pool_scheduler.cpp:542-604 | The return of a stage in place refines its specification function. |
| `SimpleModel.Find` | core/src/scheduler.cpp:230-234 | The position of the first entry with an id, or the number of entries. |
| `SimpleModel.SubmitKeeps` | core/src/scheduler.cpp:22-63 | A submission appends exactly one entry if it is accepted and none otherwise, changes no other entry, keeps ids distinct and dependencies earlier, and agrees with the reference evaluation. |
| `SimpleModel.SubmitStores` | core/src/scheduler.cpp:53-62 | An accepted submission stores the descriptor as it was handed in, Ready if it has no dependencies, with its stage. |
| `SimpleModel.SubmitAcceptedIff` | core/src/scheduler.cpp:26-62 | A submission is accepted if and only if it has a stage and a new, non-empty id and depends on known tasks other than itself; otherwise nothing changes. |
| `SimpleModel.SubmitAllAccepted` | core/src/scheduler.cpp:22-63 | Any sequence of calls with stages, distinct non-empty ids and earlier dependencies is accepted as a whole, and the table then holds exactly these jobs, in order. |
| `SimpleModel.TickKeeps` | core/src/scheduler.cpp:116-210 | A tick keeps the shape of the table, and every result agrees with the reference evaluation. |
| `SimpleModel.TickWorksOrRests` | core/src/scheduler.cpp:116-210 | A tick finishes exactly one task, or finds nothing Ready or promotable and changes nothing. |
| `SimpleModel.TickRunsTheBest` | core/src/scheduler.cpp:138-149 | The task a tick finishes has all dependencies Succeeded and the highest priority, the earliest submitted on ties; no other task finishes. |
| `SimpleModel.TickTells` | core/src/scheduler.cpp:131-208 | A tick notifies about every task whose state it changes and about no other, and what it tells last is the new state. |
| `SimpleModel.TicksReachEvaluation` | core/src/scheduler.cpp:116-210 | After as many ticks as tasks every task is where the reference evaluation puts it: executed with that result and those outputs, or left Queued; the unfinished tasks are exactly those with a Failed or Canceled ancestor. |
| `SimpleModel.NothingFails` | core/src/scheduler.cpp:194-209 | If no stage fails, the reference evaluation completes every task. |
| `SimpleModel.EveryTickCounts` | core/src/scheduler.cpp:116-210 | If no stage fails, n ticks finish exactly n tasks, until all have Succeeded. |
| `SimpleModel.ResumeOfUnpausedIff` | core/src/scheduler.cpp:96-109 | Resume of a task that is not paused succeeds if and only if it is Ready, and then moves it to Running. |
| `SimpleModel.FreshRootIsStranded` | core/src/scheduler.cpp:96-109 | A freshly submitted root task that is resumed before its first tick becomes Running, and no sequence of ticks changes anything any more. |
| `SimpleModel.RunningIsStranded` | core/src/scheduler.cpp:138-149 | No tick ever touches a task it finds Running. |
| `SimpleModel.PauseResumeRestores` | core/src/scheduler.cpp:82-109 | Pause is accepted exactly where it is legal, and resume then restores the whole table. |
| `Simple.SimpleScheduler.constructor` | core/src/scheduler.cpp:20-30 | The table starts empty. |
| `Simple.SimpleScheduler.FindEntry` | core/src/scheduler.cpp:230-234 | The search loop finds the first entry with the id. |
| `Simple.SimpleScheduler.Submit` | core/src/scheduler.cpp:22-63 | Submission in place refines its specification function, error paths included. |
| `Simple.SimpleScheduler.Change` | core/src/scheduler.cpp:65-109 | A transition attempt in place, with its notification exactly on success. |
| `Simple.SimpleScheduler.Cancel` | core/src/scheduler.cpp:65-80 | Cancel in place, with its notification exactly on success, and a cancellation request on the token of a known task even if its transition is refused. |
| `Simple.SimpleScheduler.Pause` | core/src/scheduler.cpp:82-94 | Pause in place, with its notification exactly on success. |
| `Simple.SimpleScheduler.Resume` | core/src/scheduler.cpp:96-109 | Resume in place, to the recorded state or the fallback to Running, with its notification exactly on success. |
| `Simple.SimpleScheduler.DependenciesMet` | core/src/scheduler.cpp:122-130 | True exactly if every dependency is present and Succeeded. |
| `Simple.SimpleScheduler.PromoteReady` | core/src/scheduler.cpp:119-136 | The in-place promotion loop, which reads entries it has already promoted, equals the promotion of all at once. |
| `Simple.SimpleScheduler.PickBest` | core/src/scheduler.cpp:138-149 | The scan returns the earliest of the Ready entries with the highest priority. |
| `Simple.SimpleScheduler.CollectInputs` | core/src/scheduler.cpp:171-181 | The loop over the dependencies merges their outputs in order. |
| `Simple.SimpleScheduler.Tick` | core/src/scheduler.cpp:116-210 | A tick in place refines its specification function, notifications in order. |
| `Simple.SimpleScheduler.HasPendingTasks` | core/src/scheduler.cpp:212-217 | True exactly if some task is not terminal. |
| `Agreement.SchedulersAgree` | core/src/scheduler.cpp:116-210 | Any completed clean run of the pool and n ticks of the single-threaded scheduler on the same n jobs agree on state and outputs of every executed task; the pool cancels unstarted exactly the tasks the other leaves Queued. |
| `Agreement.SameCallsAgree` | core/src/scheduler.cpp:22-63 | The same when both schedulers get the same submit calls: the tables the theorem speaks of are the ones these calls produce. |
| `WorkflowModel.Owner` | core/src/orchestrator.cpp:182-185 | The first workflow that has the task, or none. |
| `WorkflowModel.HandleOther` | core/src/orchestrator.cpp:199-201 | A notification that is not a success leaves counters and completion calls alone. |
| `WorkflowModel.HandleSuccess` | core/src/orchestrator.cpp:197-210 | A success keeps the counter equal to the number of succeeded tasks and reports the workflow exactly when it was the last one. |
| `WorkflowModel.AttemptTracks` | core/src/scheduler.cpp:65-109 | Cancel, pause and resume never disturb the counting and cause no completion call. |
| `WorkflowModel.TickTracks` | core/src/scheduler.cpp:116-210 | A tick with the engine as its callback keeps every counter right, whatever the stage returns. |
| `WorkflowRuns.Rejected` | core/src/orchestrator.cpp:70-83 | The position of the first rejected submission of a start, or the number of tasks. |
| `WorkflowRuns.FailedStartRollsBack` | core/src/orchestrator.cpp:64-83 | A start that fails at whatever position leaves every task it got accepted Canceled, registers nothing and reports nothing; the tasks that were there before are unchanged if and only if the rejected id is not that of an unfinished one. |
| `WorkflowRuns.RollbackCancelsOlderTask` | core/src/orchestrator.cpp:64-83 | An input at which it is: the second task of a start draws the id of an older Ready task, and the rollback cancels that task. |
| `WorkflowRuns.StartAcceptedIff` | core/src/orchestrator.cpp:85-144 | A start goes through exactly if every factory call yields a stage and the generated ids are new, distinct and not empty. |
| `WorkflowRuns.StartTracks` | core/src/orchestrator.cpp:36-154 | A start, accepted or rolled back, keeps every counter right. |
| `WorkflowRuns.CancelTracks` | core/src/orchestrator.cpp:173-175 | Cancelling a list of tasks keeps every counter right and reports nothing. |
| `WorkflowRuns.PerformTracks` | core/src/orchestrator.cpp:36-224 | So does every operation on scheduler and engine. |
| `WorkflowRuns.CompletionExactlyOnce` | core/src/orchestrator.cpp:197-210 | After any sequence of starts, ticks, pauses, resumes and cancels each workflow has counted exactly its Succeeded tasks, and the completion calls with a trace number the workflows of that trace whose tasks all Succeeded: one call for a workflow that shares its trace with no other, and none before. |
| `WorkflowRuns.FinishesInExactlyNPlus2Ticks` | core/src/orchestrator.cpp:85-154 | If no stage fails, a workflow of N images is reported complete after N + 2 ticks, once, and not earlier. |
| `WorkflowGraph.StartBuildsGraph` | core/src/orchestrator.cpp:85-144 | An accepted start adds exactly a storyboard without dependencies, images that depend on the storyboard alone, and a composition that depends on all images in order, with their priorities, shared token and stages, and registers the workflow. |
| `WorkflowGraph.ComposeWaitsForImages` | core/src/orchestrator.cpp:106-128 | After any ticks on any table the composition has left Queued only if every image has Succeeded, and an image only if the storyboard has. |
| `WorkflowGraph.FinishedOnMerge` | core/src/scheduler.cpp:171-209 | In a table that ticks produced, every finished task finished as its stage says on the merged outputs of its dependencies. |
| `WorkflowGraph.ComposeMergesImages` | core/src/orchestrator.cpp:119-133 | The composition, once finished, finished as its stage says on the merged outputs of all images. |
| `WorkflowGraph.FailedImageStopsWorkflow` | core/src/orchestrator.cpp:197-215 | If an image fails or is canceled by its stage, the composition stays Queued and no completion is reported. |
| `WorkflowOutcomes.CancelTasksEffect` | core/src/orchestrator.cpp:173-175 | Canceling a list of tasks leaves each of them Canceled unless it had finished, and every other task as it was. |
| `WorkflowOutcomes.RecordsTellOutcome` | core/src/orchestrator.cpp:197-206 | After any sequence of operations a workflow is marked failed if and only if one of its tasks is Failed or Canceled, and has its output path if and only if all have Succeeded. |
| `Engine.WorkflowEngine.constructor` | core/src/orchestrator.cpp:16-34 | The engine starts without workflows and without calls. |
| `Engine.WorkflowEngine.HandleStateChange` | core/src/orchestrator.cpp:179-224 | The loop finds the first workflow with the task and updates its counter, flag and output path. |
| `Engine.WorkflowEngine.Deliver` | core/src/orchestrator.cpp:179-224 | A list of notifications is handled in order. |
| `Engine.WorkflowEngine.CancelTasks` | core/src/orchestrator.cpp:64-68 | The best-effort loop cancels every listed task through the scheduler. |
| `Engine.WorkflowEngine.SubmitTask` | core/src/orchestrator.cpp:70-83 | A rejected submission rolls back everything submitted so far, its own id included. |
| `Engine.WorkflowEngine.StartWorkflow` | core/src/orchestrator.cpp:36-154 | The construction of the graph in place refines the specification of a start; it returns the trace exactly if every submission was accepted. |
| `Engine.WorkflowEngine.CancelWorkflow` | core/src/orchestrator.cpp:156-177 | An unknown trace is an error and changes nothing; otherwise all tasks of the first workflow with that trace are canceled. |
| `Engine.WorkflowEngine.Tick` | core/src/scheduler.cpp:116-210 | A tick of the scheduler with its notifications delivered to the engine. |

## Left out

- Threads, the destructor, `stopping_` and condition variables: each section under the mutex is one step, and a waiting worker is one whose guard is false.
- The blocking of a pause caller itself: the request returns `AwaitCheckpoint`, any steps may follow, and what the caller then looks for and does are steps of their own. In runs its timeout, like the tick that looks for timed-out tasks, is an ordinary cancel step.
- One clock reading serves a whole section under the mutex; the source reads the clock once more for each task it wakes or settles.
- Delivery of the concurrent scheduler's state events: callbacks run outside the mutex in no fixed order.
- `PoolRuns.Next` does not model integer overflow of resource amounts and scores, because sums are mathematical integers (H6).
- The branch of the worker loop after a refused Ready-to-Running transition, and the refused transition in cancel: both are unreachable, since a pick is Ready and cancellation is legal from every unfinished state.
- Progress fractions, error messages and details, trace ids and logging; errors keep their category and code.
- Stage outputs are maps from keys to integers in place of `std::any` values.
- Successor lists, sets and the node table are values held in fields that methods reassign; aliasing of nodes by reference is not modelled.
- The single-threaded scheduler is driven from one thread: no call arrives while a stage executes, and its stages do not look at cancel tokens.
- The workflow engine is modelled over the single-threaded scheduler only: over the concurrent one, events can arrive before the workflow is registered.
- Generated trace and task ids and the stages a factory returns are parameters of a start; collisions of either kind of id are covered.
- The engine's progress callback and its logging.
- User interface, HTTP client, file and token storage, the job server and benchmark scripts: foreign calls and I/O that would only add easy members.
