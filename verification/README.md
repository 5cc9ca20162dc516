# AetherFlow: a verified model of the workflow engine

AetherFlow runs workflow definitions durably. A definition is a list of steps: tasks, transforms, delays, conditions,
forks and joins. A step may name a retry policy and a compensation. Any number of workers share one database. They claim
an instance under a lease that can expire, mark a step as running, execute it, record the outcome, and hand the instance
on through a message stream or a timer. A worker may crash at any point.

The project models three parts and ties them together.

* **The step machine.** `Machine.dfy` and `Saga.dfy` hold the interpreter of `engine/machine.go`: methods that update the
  runtime state in place, each proved equal to a function. `Interpreter.dfy` makes runs of it, one worker that never
  crashes. `ForkShape.dfy`, `Moves.dfy`, `Runs.dfy` and `Termination.dfy` prove the shape of forks, join safety, that
  outcomes alone decide a run, and a bound on runs; `Endless.dfy` shows when there is none, `Visits.dfy` when no step runs
  twice, `EarlyJoins.dfy` and `JoinHeads.dfy` exactly when joins are safe. `Workflow.dfy` has the types and the backoff.
* **The validator.** `Graph.dfy`, `Regions.dfy` and `Validator.dfy` prove the cycle check exact and both copies of the branch
  collector equal to reachability. `Acceptance.dfy` says what acceptance means for runs. `Limits.dfy`, `Loops.dfy`,
  `Nested.dfy`, `Stored.dfy` and `Shared.dfy` show accepted definitions that break join safety, termination or the rule that
  a completed step does not run again; `Examples.dfy` has concrete ones, and others that meet every condition.
* **The advance protocol.** `Rows.dfy` has the ten kinds of commit, `Logs.dfy` the version log, and `Workers.dfy` the system
  of workers as a state machine of sixteen atomic actions: clock, claim, timer check, first commit, history, execution,
  history again, clearing the timer, second commit, schedule or enqueue, release, error, crash, recovery, acknowledgement
  and timer firing. `Safety.dfy` and `Ledger.dfy` prove its invariant. `Guarantees.dfy`, `Waiting.dfy`, `Refinement.dfy`,
  `Recovery.dfy` and `Liveness.dfy` hold the promises, `Completeness.dfy` the converse of the refinement,
  `Attempts.dfy` what becomes of retries, `Compensation.dfy` a saga from its failure to its end, and
  `Misfortunes.dfy` runs that end badly. `Engine.dfy` and `Timers.dfy` are the handlers, the repository and the
  timer service in their imperative form, and `Bridge.dfy` leads from those handlers to the system.
  `Recoverable.dfy` has the table of all instances and what recovery lists of it, `Starvation.dfy` what the system
  of workers does to that table, `Selection.dfy` the choice of the earliest, `Owners.dfy` the names under which
  engines claim.

`MachineLaws.dfy`, `ValidatorLaws.dfy`, `CommitLaws.dfy` and `WorkerLaws.dfy` say what the functions of these parts
do, field by field and in terms of the definition, the row and the clock alone.

## Assumptions

* Workers share one clock that does not go back. Generated idempotency keys are new. Engines have different consumer
  names, so their claims have different owners (`OwnersDiffer`). A timer scheduler is configured.
* What a step does outside is an oracle: success with the next step its kind allows, or failure. Any outcome is possible at
  any time. For a delay step the outcome follows from its waiting time.
* Any call to the database, Redis or the stream may fail before or after it took effect. In the system of workers that is
  the action `Abort` or `Crash` before or after the action concerned; in the imperative form it is a choice inside each
  method of the repository, the timer service and the table of instances. There the ghost counters `faults` and `Faults()`
  count the calls that failed, so that contracts can say what happens when none does.
* `Disciplined` names the definitions for which forks keep their promises: everything the validator checks apart from the
  graph, no fork with its join among its branches, no fork inside a branch, no transform that stores under `next_step`.
  Each of the last three is needed: the validator accepts a definition of each kind that breaks a promise
  (`EarlyJoinIsUnsafe`, `NestedForkIsUnsafe`, `StoredNameIsUnsafe`). `Tame` is `Disciplined` without the one about joins.
  For such definitions a run fails join safety first where it begins a branch at the join of its fork (`FirstUnsafeIff`);
  if no loop can be reached, some run does so exactly when a fork that can be reached has its join among its branches
  (`JoinSafeIff`).
* Termination is stated for definitions in which no loop of the run graph can be reached from the first step. The run graph
  has exactly the references the machine follows: the branches and the join of a fork; the names a step hands over; the
  next step on the linear path where it hands over none. The condition is exact, for the interpreter
  (`RunsEndIffLoopFree`) and for the workers (`WorkIsBoundedIff`). The validator checks less (`LoopNeverEnds`,
  `DetourNeverEnds`); `LoopsAreInBranches` says what is left to check when branches are entered by their forks only, and
  `LoopsLeaveTheLinearPath` where loops lie in any case.
* The runs that show a broken promise have no failures, so workers bring about each of them (`SmoothRunIsReached`).

## What the code does that its documentation does not say

* A delay step used as a compensation is executed as if it had no previous state
  (`aetherflow/internal/engine/engine.go:262`), so it waits again after every wait, for ever
  (`CanEndUnlessDelayUndoes`). An accepted definition gets there with the failure of one task (`DelayUndoIsReached`,
  `TaskAndDelayExample`).
* `max_retries` limits attempts, and a crash between the two commits uses one up. So crashes can cost retries, all of them
  (`CrashesCostRetries`); they never add one (`RetriesStayWithinBudget`). A step that is given up had all its retries if and
  only if no attempt was lost and none was spent on running again a step that had ended (`AllRetriesGrantedIff`).
* `StepForCurrent` passes over one completed step only. Two branches that share a tail of two steps run the second of them
  twice (`SharedTailRunsTwice`). When branches share only steps that end them and begin none, no completed step runs again
  (`VisitedOnce`).
* Recovery lists 500 instances by the time of their last change (`aetherflow/internal/store/postgres.go:320-327`), and an
  instance that waits stays where it is in that order however often its timer is set again. So 500 old instances that wait
  keep a younger one, whose message was lost, off the list (`WaitingOnesStarveTheRest`, `StarvationHappens`).
* The join of a fork need not be a join step; nothing checks it (`aetherflow/internal/dsl/validator.go:66-79`).

## Model

| member | source | states |
|---|---|---|
| `Refinement.WorkersRefineInterpreter` | aetherflow/internal/engine/engine.go:147-178 | Under any interleaving of workers, expired leases, crashes and duplicate messages, the committed rows with the commits erased that only mark, wait or retry are a run of the sequential interpreter, up to every version |
| `Completeness.WorkersDoExactly` | aetherflow/internal/engine/engine.go:147-178 | Conversely, a sequence of events with its end is what some workers commit if and only if it is a run of the interpreter in which no delay step is given up, and none succeeds or fails as a compensation, nor does a fork without branches succeed as one |
| `Completeness.EveryRunIsWorked` | aetherflow/internal/engine/engine.go:147-178 | Such a run is carried out by workers: crashes and retries use up the attempts before a step is given up, and a delay is armed before it ends |
| `Completeness.SmoothRunIsReached` | aetherflow/internal/engine/engine.go:147-178 | Every run without failures leads to a reachable state of the workers that stands where the run ends |
| `Refinement.EventsTellExecutions` | aetherflow/internal/engine/engine.go:356-397 | An event that a step finished, was given up or was compensated, or failed as compensation, tells the outcome of exactly one execution: the one that followed the commit which marked the step the interpreter is at |
| `Refinement.OtherEventsAreUnexecuted` | aetherflow/internal/engine/engine.go:198-203 | The other events have no execution of their version: that a step starts, that no step is left, and that a compensation is no step |
| `Guarantees.NoUpdateIsLost` | aetherflow/internal/store/postgres.go:347-372 | Row `i` has version `i`, and row `i+1` is a permitted commit to exactly row `i`, whatever the workers did |
| `Guarantees.OneKeyPerStep` | aetherflow/internal/engine/engine.go:307-326 | Two executions, by whatever workers and attempts, send the same idempotency key if and only if they execute the same step |
| `Guarantees.KeyWasCommittedFirst` | aetherflow/internal/engine/engine.go:307-326 | The key an execution sends is not empty, was committed before the execution, and every later row still has it |
| `Guarantees.TerminalForever` | aetherflow/internal/store/postgres.go:263-270 | From a completed or failed instance no sequence of actions, stale lease holders included, leads to another commit |
| `Guarantees.TerminalAbsorbs` | aetherflow/internal/store/postgres.go:355-370 | One action of any kind commits nothing to a completed or failed instance |
| `Guarantees.AttemptsDiffer` | aetherflow/internal/engine/engine.go:199-215 | No two rows of the execution history share step and attempt |
| `Guarantees.HistoryIsTrue` | aetherflow/internal/engine/engine.go:205-215 | A completed row of the execution history names the step and tells the outcome of the one execution that followed its commit |
| `Guarantees.RetriesStayWithinBudget` | aetherflow/internal/engine/engine.go:452-477 | At most `max_retries` retry waits of a step are ever committed, however many workers crash |
| `Guarantees.LeaseIsExclusive` | aetherflow/internal/store/postgres.go:263-270 | Two workers never hold unexpired leases on the instance at the same time |
| `Refinement.OnlyCompensationsFollow` | aetherflow/internal/engine/engine.go:234-305 | After any row with a compensation queue, an execution is of the first step of what is left of that queue, which is the queue less one step for each success |
| `Compensation.SagaRunsToItsEnd` | aetherflow/internal/engine/engine.go:254-305 | An instance that failed with an empty queue after a step was given up has executed exactly the queue of that failure, in order, each step with success and recorded, and no other compensation succeeded |
| `Refinement.MarkedAfterFailure` | aetherflow/internal/engine/engine.go:234-245 | The same for the commits that mark a step running |
| `Refinement.ForksStayInOrder` | aetherflow/internal/engine/machine.go:145-184 | In every row the workers commit for a disciplined definition, at most one fork runs, its branches read completed, one running, pending, and the current step is that of the running branch |
| `Refinement.JoinsAreSafe` | aetherflow/internal/engine/machine.go:114-184 | While normal steps run, no committed row stands at the join of a fork, or has a fork that stopped running, unless every branch of the fork went from its head along references through completed steps to a step that may leave it, naming its join or nothing |
| `Refinement.FinishedForksAreDone` | aetherflow/internal/engine/machine.go:145-223 | In every committed row, ended and compensating ones included, a fork with status completed or joined has all branches done in that sense; a completed instance has no other forks |
| `Refinement.FailureStopsForks` | aetherflow/internal/engine/machine.go:186-199 | In no committed row of a disciplined definition that compensates, waits for a compensation or has failed is a fork running |
| `Refinement.WorkIsBounded` | aetherflow/internal/engine/machine.go:52-84 | If no loop of the run graph can be reached from the first step, one number bounds the events of all reachable states of all systems of workers |
| `Completeness.WorkIsBoundedIff` | aetherflow/internal/engine/machine.go:52-84 | There is such a number if and only if no loop can be reached |
| `Refinement.OutcomesDecideInstance` | aetherflow/internal/engine/machine.go:201-213 | Two systems in which the steps had the same outcomes have the instance in the same place, though Go ranges over the forks in any order |
| `Waiting.NoEarlyWake` | aetherflow/internal/engine/engine.go:180-196 | No execution starts from a waiting row before the waiting time of its step, and such a row has one |
| `Waiting.RetryWaitsForBackoff` | aetherflow/internal/engine/engine.go:452-477 | A retry wait lasts the backoff of the failed attempt, counted from a moment between the one execution of that attempt and the commit of the wait; the next commit comes no sooner |
| `Waiting.WaitIsTold` | aetherflow/internal/engine/engine.go:328-354 | A wait for a timer is what the one execution of a delay step told: its duration from then on if it had not waited before or is a compensation, else the time it waited for already |
| `Waiting.DelayLastsItsDuration` | aetherflow/internal/worker/worker.go:238-264 | A delay step of the normal path is completed no sooner than its duration after its first start, also when a crash armed it again |
| `Recovery.NeverStuck` | aetherflow/internal/engine/engine.go:134-145 | From every reachable state in which the instance has not ended, some actions lead to one more commit, whatever messages, timers and leases were lost |
| `Recovery.TimerCanBeArmedAgain` | aetherflow/internal/engine/engine.go:180-196 | If the instance still has to wait and its lease is free, recovery can set its timer again to the committed waiting time |
| `Recovery.CanEndLater` | aetherflow/internal/engine/engine.go:198-232 | A worker that has marked a step can execute it after a while, with any outcome the step may have, and later commit what came of it |
| `Liveness.CanEndUnlessDelayUndoes` | aetherflow/internal/engine/engine.go:254-305 | An instance of a disciplined definition without loops can still end if and only if it does not stand at a compensation that is a delay step |
| `Liveness.AlwaysCanEnd` | aetherflow/internal/engine/engine.go:234-305 | If no `on_failure` names a delay step, such an instance can end from every reachable state |
| `Misfortunes.DelayUndoIsReached` | aetherflow/internal/engine/engine.go:254-262 | An instance whose first step fails and is compensated by a delay stands at that delay and can never end |
| `Attempts.RetriesAreSpent` | aetherflow/internal/engine/engine.go:432-477 | When a step is given up, the retry waits it had, the attempts lost to marks without a recorded outcome, and the runs after it had ended add up to exactly `max_retries`, whatever the workers did |
| `Attempts.AllRetriesGrantedIff` | aetherflow/internal/engine/engine.go:432-477 | It had all its retry waits if and only if no attempt of it was lost that way and it never ran again after it had ended |
| `Attempts.OnlyLossesCostRetries` | aetherflow/internal/engine/engine.go:432-477 | For disciplined definitions without loops whose branches are separate, retry waits and lost attempts alone add up to `max_retries` |
| `Misfortunes.CrashesCostRetries` | aetherflow/internal/engine/engine.go:432-452 | There is a run in which crashes take all of them: the step is given up without a single retry wait |
| `Misfortunes.TaskAndDelayIsFine` | aetherflow/internal/dsl/validator.go:32-86 | A task compensated by a delay is accepted and disciplined, has no loop, and is such a first step |
| `Liveness.QueueCanEmpty` | aetherflow/internal/engine/engine.go:264-286 | A compensation queue of steps other than delays can be worked off, in order, down to a failed instance with an empty queue |
| `Liveness.DelayHeadForever` | aetherflow/internal/engine/engine.go:262-262 | A delay step at the head of the queue stays there in every continuation: it only ever waits again |
| `Liveness.NormalCanEnd` | aetherflow/internal/engine/engine.go:147-178 | From a row of the normal path the instance can end with every step from there on succeeding |
| `Bridge.AdvanceIsARun` | aetherflow/internal/engine/engine.go:147-178 | Whatever one call of the imperative `Advance` saves, the system of workers can commit from the same row, with the same outcome |
| `WorkerLaws.ClaimLaw` | aetherflow/internal/store/postgres.go:255-297 | A message can be taken if and only if the instance has not ended and no lease on it lasts; the lease then lasts as asked for |
| `WorkerLaws.RecoverLaw` | aetherflow/internal/store/postgres.go:320-327 | Recovery can list the instance if and only if it has not ended and no lease on it lasts |
| `WorkerLaws.InspectLaw` | aetherflow/internal/engine/engine.go:180-196 | A worker that finds the instance still waiting leaves to arm its timer for that time; any other goes on |
| `WorkerLaws.CommitLaw` | aetherflow/internal/store/postgres.go:355-370 | A commit goes through if and only if nobody committed since the worker read the row |
| `WorkerLaws.ExecuteLaw` | aetherflow/internal/engine/engine.go:198-221 | An execution has key and version of the mark, and an outcome the step may have with the state before the mark; a compensation is run as if it had none |
| `WorkerLaws.HappenLaw` | aetherflow/internal/engine/engine.go:328-354 | The outcomes an execution may have, by the kind and the fields of the step |
| `WorkerLaws.HistoryLaw` | aetherflow/internal/engine/engine.go:205-215 | The history gets a row before the execution and what came of it afterwards, and no other change |
| `WorkerLaws.WakeLaw` | aetherflow/internal/engine/engine.go:376-396 | After its last commit a worker sends a message if the instance is open and does not wait, arms the timer if it waits, and does nothing if it has ended |
| `WorkerLaws.NotifyLaw` | aetherflow/internal/timer/timer.go:60-77 | How it does that; a timer that is due already is fired at once |
| `WorkerLaws.OtherLaw` | aetherflow/internal/store/postgres.go:299-311 | A release frees the lease the worker holds, a crash does not; what firing, clearing, acknowledging and errors do |
| `WorkerLaws.ConditionLaw` | aetherflow/internal/worker/worker.go:266-305 | A condition outside forks goes on to the step `then` names if its expression is true, `else` if it is false; to `next` if that is empty, and to the end if that is empty too |
| `Ledger.ActKeepsSane` | aetherflow/internal/engine/engine.go:147-178 | Every action keeps the invariant of the system: log, memories, marks, history, executions, causes, keys and leases |
| `Ledger.ReachedIsSane` | aetherflow/internal/engine/engine.go:147-178 | The invariant holds in every reachable state |
| `Runs.RunIsSound` | aetherflow/internal/engine/machine.go:145-184 | The fork shape holds after every run of the interpreter on a disciplined definition |
| `Runs.JoinOnlyAfterAllBranches` | aetherflow/internal/engine/machine.go:114-184 | In every run the join of a fork is next, and the fork stops running, only when all its branches went from their heads through completed steps to a step that may leave the branch |
| `EarlyJoins.BranchEndsIff` | aetherflow/internal/engine/machine.go:162-184 | A running branch ends exactly when the name its step returned, or recorded if it is passed over, is empty or the join |
| `Runs.RunIsSettled` | aetherflow/internal/engine/machine.go:145-223 | At the end of every run, failing and compensating ones included, a completed or joined fork has all branches done, and a run that succeeded has no other forks |
| `Runs.RunIsQuiet` | aetherflow/internal/engine/machine.go:186-199 | The same for runs of the interpreter: once a step was given up no fork runs |
| `Runs.OutcomesDecide` | aetherflow/internal/engine/machine.go:201-213 | Two runs with the same outcomes are the same run and end in the same state |
| `ForkShape.PickIsUnique` | aetherflow/internal/engine/machine.go:201-213 | When the forks are in order, every order of ranging over them finds the same running branch |
| `Moves.NextAfterIsGood` | aetherflow/internal/engine/machine.go:52-84 | A move from an orderly state of the forks leaves an orderly one, and is one of five kinds: along an edge, into a fork, within a branch, to the next branch, to the join |
| `Termination.EveryRunEnds` | aetherflow/internal/engine/machine.go:52-84 | If no loop of the run graph can be reached from the first step there is a bound on the length of every run, failing runs and compensation included |
| `EndlessRuns.RunsEndIffLoopFree` | aetherflow/internal/engine/machine.go:29-84 | The runs of a disciplined definition are bounded if and only if no loop of the references the machine follows can be reached from its first step |
| `EndlessRuns.RunsGoOn` | aetherflow/internal/engine/machine.go:29-84 | If one can be reached there are runs without failures beyond every length |
| `Termination.EventBurns` | aetherflow/internal/engine/machine.go:52-84 | Every event lowers the measure: rank of the anchoring step, whether its fork has started, open branches, rank within the branch, and the length of the queue |
| `Rows.CommitRefines` | aetherflow/internal/engine/engine.go:356-397 | Each of the ten kinds of commit is one event of the interpreter, or does not show, and keeps the row sound |
| `CommitLaws.MarkLaw` | aetherflow/internal/engine/engine.go:307-326 | What a mark changes, field by field: status, current step, attempt up by one, key kept or new, and nothing of any other step |
| `CommitLaws.SucceedLaw` | aetherflow/internal/engine/engine.go:356-397 | What a success changes: the step is completed and listed once, and the instance stands where the machine goes on, or has completed |
| `CommitLaws.WaitLaw` | aetherflow/internal/engine/engine.go:399-430 | What a wait changes: the status, and state and waiting time of the one step |
| `CommitLaws.FailLaw` | aetherflow/internal/engine/engine.go:432-494 | What giving up changes: the step has failed, one branch with it, and the instance compensates or has failed |
| `CommitLaws.MarkFailedLaw` | aetherflow/internal/engine/machine.go:186-199 | If a branch runs the failing step, exactly one such branch and its fork become failed, and all other branches and forks stay as they were; if none does, all stay |
| `CommitLaws.GiveUpLaw` | aetherflow/internal/engine/machine.go:186-199 | The same for the event with which the interpreter gives a step up |
| `CommitLaws.FailQueueLaw` | aetherflow/internal/engine/machine.go:86-108 | The queue of a given-up instance, told by `completed` and the `on_failure` fields: each compensation once, by last completion, latest first |
| `CommitLaws.RetryOrFailLaw` | aetherflow/internal/engine/engine.go:452-477 | A failed attempt can wait for a retry if and only if the step has a policy and the attempt is at most `max_retries`; otherwise it is given up |
| `CommitLaws.UndoneLaw` | aetherflow/internal/engine/engine.go:264-286 | What a successful compensation changes: it is completed, listed and off the queue; the last one leaves the instance failed |
| `CommitLaws.EndLaw` | aetherflow/internal/engine/engine.go:496-513 | The other ends, when they come, and what they leave |
| `CommitLaws.PhaseLaw` | aetherflow/internal/engine/engine.go:169-171 | Compensation commits come exactly while the instance compensates or has a queue |
| `CommitLaws.CompletedOnlyGrows` | aetherflow/internal/workflow/types.go:156-163 | The list of completed steps only grows, at its end |
| `Logs.LogRefinesInterpreter` | aetherflow/internal/engine/engine.go:147-178 | Every log of commits, with those erased that do not show, is a run of the interpreter |
| `Logs.SagaIsOneWay` | aetherflow/internal/engine/engine.go:169-171 | From the first row with a compensation queue on, only compensation commits follow, the queue is a suffix of the first one shortened by one per success, and the instance can end only as failed |
| `Logs.KeysAndAttemptsLast` | aetherflow/internal/engine/engine.go:313-321 | A key once committed never changes, and the attempts of a step never fall |
| `Logs.MarksHaveDistinctAttempts` | aetherflow/internal/engine/engine.go:199-203 | Two commits that mark the same step carry different attempts |
| `Logs.RetriesAreBounded` | aetherflow/internal/engine/engine.go:452-477 | The retry waits of a step in a log are at most `max_retries` and fewer than its attempts while it runs |
| `Logs.VersionIsPosition` | aetherflow/internal/store/postgres.go:355-370 | The version of a row is its place in the log |
| `Acceptance.MachineFollowsCheckedGraph` | aetherflow/internal/engine/machine.go:66-83 | Outside forks, every successor the machine gives for a step of the linear path is an edge the validator checked |
| `Acceptance.ForkLeadsToJoin` | aetherflow/internal/dsl/validator.go:198-208 | From a fork to its join, given or defaulted, the checked graph has a path, if both are on the linear path |
| `Acceptance.LoopsLeaveTheLinearPath` | aetherflow/internal/dsl/validator.go:198-208 | Every loop in the run graph of an accepted definition passes through a branch step or a compensation |
| `Acceptance.AcceptedHasNoLoop` | aetherflow/internal/dsl/validator.go:185-241 | So an accepted definition whose branch steps and compensations lead nowhere has no loop in its run graph |
| `Acceptance.LoopsAreInBranches` | aetherflow/internal/dsl/validator.go:185-241 | If branches are entered only by their forks, the run graph of an accepted, disciplined definition has a loop if and only if the branch steps alone have one |
| `Acceptance.AcceptedRunsEnd` | aetherflow/internal/dsl/validator.go:185-241 | So if branch steps do not refer to each other in a circle, one number bounds all runs of an accepted definition |
| `Visits.VisitedOnce` | aetherflow/internal/engine/machine.go:29-84 | If branches share at most steps that end them and begin none, are entered only from their fork, and no loop can be reached, no step is ever active again after it completed |
| `EarlyJoins.FirstUnsafeIff` | aetherflow/internal/engine/machine.go:145-184 | Without nested forks and stored names, a run that was join-safe so far becomes unsafe exactly with the event that begins a branch at the join of its fork, be it the first branch or a later one |
| `JoinHeads.JoinSafeIff` | aetherflow/internal/engine/machine.go:114-184 | If moreover no loop can be reached, all runs are join-safe if and only if no fork that can be reached from the first step has its join among its branches |
| `JoinHeads.ReachedForkIsUnsafe` | aetherflow/internal/engine/machine.go:114-160 | For each such fork there is a run without failures that gets to the join of a running fork |
| `Completeness.WorkersJoinSafeIff` | aetherflow/internal/engine/machine.go:114-184 | The same if-and-only-if for all rows of all systems of workers |
| `Limits.EarlyJoinIsUnsafe` | aetherflow/internal/dsl/validator.go:66-79 | The validator accepts such a fork, and join safety fails after two events |
| `UnseenLoops.LoopNeverEnds` | aetherflow/internal/dsl/validator.go:191-196 | The validator accepts a branch whose two steps refer to each other, and no number bounds its runs |
| `UnseenLoops.DetourNeverEnds` | aetherflow/internal/dsl/validator.go:191-196 | The validator accepts a linear step that refers back into a branch; even with references that go round nowhere no number bounds the runs |
| `SharedTails.SharedTailRunsTwice` | aetherflow/internal/engine/machine.go:37-46 | The validator accepts two branches that share a tail of two tasks, and without any failure or loop the second of them is active again after it completed |
| `NestedForks.NestedForkIsUnsafe` | aetherflow/internal/engine/machine.go:57-65 | The validator accepts a fork inside a branch, and without any failure the outer join is next while the outer branch has completed nothing |
| `StoredNames.StoredNameIsUnsafe` | aetherflow/internal/engine/machine.go:43-45 | The validator accepts a transform that stores under `next_step`, and a task behind the join runs within a branch |
| `Examples.EarlyJoinExample` | aetherflow/internal/dsl/validator.go:66-79 | A concrete definition with a fork whose first branch is its join |
| `Examples.LoopExample` | aetherflow/internal/dsl/validator.go:191-196 | A concrete definition with a loop inside a branch |
| `Examples.DetourExample` | aetherflow/internal/dsl/validator.go:191-196 | A concrete definition with a linear step that refers back into a branch |
| `Examples.SharedTailExample` | aetherflow/internal/engine/machine.go:37-46 | A concrete definition with a shared tail |
| `Examples.TaskAndDelayExample` | aetherflow/internal/dsl/validator.go:32-86 | Concrete definitions of a task, without retries and with three, that a delay compensates |
| `Examples.NestedExample` | aetherflow/internal/engine/machine.go:57-65 | A concrete definition with a nested fork |
| `Examples.StoredExample` | aetherflow/internal/engine/machine.go:43-45 | A concrete definition with a transform that stores under `next_step` |
| `Examples.ForkOfTasksKeepsPromises` | aetherflow/internal/dsl/validator.go:32-86 | A fork with a branch of two tasks, one of a single task, and their join is accepted, disciplined, separate, entered by its fork only, and has no loop |
| `Examples.ForkOfTasksExample` | aetherflow/internal/dsl/validator.go:32-86 | A concrete definition of that kind |
| `Examples.DefaultJoinKeepsPromises` | aetherflow/internal/dsl/validator.go:66-79 | A fork that names no join, with two branches of a task each and a join step behind them, is accepted and disciplined, and its join is that step |
| `Examples.DefaultJoinExample` | aetherflow/internal/dsl/validator.go:66-79 | A concrete definition of that kind |
| `Limits.ForwardIsAcyclic` | aetherflow/internal/dsl/validator.go:198-208 | A definition whose linear steps refer forward only passes the cycle check |
| `Validator.Validate` | aetherflow/internal/dsl/validator.go:32-86 | No error if and only if the definition is well referenced and its checked graph has no cycle; an error tells something that is true of the definition |
| `Validator.CheckSteps` | aetherflow/internal/dsl/validator.go:46-59 | The first loop collects exactly the ids, or reports a blank or repeated id or a bad step |
| `Validator.CheckReferences` | aetherflow/internal/dsl/validator.go:61-81 | The second loop passes exactly when every reference is known and every fork has a join, or names one that is not |
| `Validator.ValidateAcyclic` | aetherflow/internal/dsl/validator.go:185-241 | Succeeds if and only if the derived graph has no cycle |
| `Validator.EdgesOf` | aetherflow/internal/dsl/validator.go:198-213 | The loops build exactly the edges: consecutive normal steps, references, `on_failure` |
| `Validator.NormalStepsOf` | aetherflow/internal/dsl/validator.go:187-197 | The validator derives the same linear path as the engine |
| `ValidatorLaws.AcceptedLaw` | aetherflow/internal/dsl/validator.go:32-86 | Accepted if and only if there are a name, a version of at least 1 and steps, with ids that are not blank and all different, each step passes by itself and refers to steps only, and the checked graph has no cycle |
| `ValidatorLaws.StepLaw` | aetherflow/internal/dsl/validator.go:88-183 | A step passes by itself if and only if it is a join, or its retry policy has no negative number and only positive intervals, and a fork has branches, all different |
| `ValidatorLaws.RetryExample` | aetherflow/internal/dsl/validator.go:155-181 | Three retries from one second to ten pass; a negative number, an interval of zero or a malformed one does not |
| `ValidatorLaws.RefsLaw` | aetherflow/internal/dsl/validator.go:61-81 | The references of a step pass if and only if every id it names, as its kind allows, is that of a step, and a fork names its join or has a join step behind it |
| `ValidatorLaws.EdgeLaw` | aetherflow/internal/dsl/validator.go:198-213 | The edges of the checked graph: from each step of the linear path to the next one, to all ids it names and to its compensation, and no others |
| `Graph.FindCycle` | aetherflow/internal/dsl/validator.go:215-240 | The search succeeds if and only if there is no cycle, for every order in which Go ranges over the ids, and then yields a topological order |
| `Graph.CycleFinder.Visit` | aetherflow/internal/dsl/validator.go:218-234 | A visit ends, and either marks everything reachable as visited with no cycle, or has found one |
| `Graph.AcyclicHasOrder` | aetherflow/internal/dsl/validator.go:215-240 | A finite graph without a cycle has a topological order |
| `Graph.TopologicalHasNoCycle` | aetherflow/internal/dsl/validator.go:215-240 | A graph with a topological order has no cycle |
| `Regions.CollectForkBranchStepsInEngine` | aetherflow/internal/engine/machine.go:239-258 | The engine collects exactly the known steps reachable from the heads of forks without entering the join of that fork |
| `Regions.CollectForkBranchStepsInValidator` | aetherflow/internal/dsl/validator.go:268-287 | The validator collects exactly the same set |
| `Regions.Collector.CollectInEngine` | aetherflow/internal/engine/machine.go:260-276 | One walk of the engine, also over cyclic references, ends with everything reachable that was not seen before |
| `Regions.Collector.CollectInValidator` | aetherflow/internal/dsl/validator.go:289-313 | One walk of the validator does the same |
| `Regions.FirstJoinAfter` | aetherflow/internal/engine/machine.go:294-306 | The loop computes the default join that FirstJoinLaw describes |
| `Regions.FirstJoinLaw` | aetherflow/internal/engine/machine.go:225-237 | For different ids it is the id of the next step of kind join behind the given one, by place and kind alone, and empty if and only if there is none |
| `Regions.JoinOfLaw` | aetherflow/internal/engine/machine.go:122-128 | The join of a fork: the one it names, else the next join step behind it, else none |
| `MachineLaws.BranchStepLaw` | aetherflow/internal/engine/machine.go:239-276 | A branch step is one to which a chain of steps leads from the head of a branch, each naming the next, none of them the join |
| `Machines.NewMachine` | aetherflow/internal/engine/machine.go:13-27 | The linear path: the steps that are neither compensations nor branch steps, in order |
| `MachineLaws.LinearPathLaw` | aetherflow/internal/engine/machine.go:13-27 | The linear path, by places in the definition: the steps that no `on_failure` names and no branch holds, in order |
| `Machines.CompensationRefsOf` | aetherflow/internal/workflow/types.go:174-182 | The set of `on_failure` targets |
| `Machines.NextAfterIn` | aetherflow/internal/engine/machine.go:52-84 | The step and the forks NextAfter leaves, for some branch the map iteration may have found |
| `Machines.StepForCurrentIn` | aetherflow/internal/engine/machine.go:29-50 | The step a worker runs for a committed state; a completed current step is passed over once |
| `Machines.StartForkIn` | aetherflow/internal/engine/machine.go:114-143 | A fork is started with all branches pending, unless it was started before or has no branches or join |
| `Machines.NextForkStepIn` | aetherflow/internal/engine/machine.go:145-160 | The first open branch is resumed, or the fork is completed and its join is next |
| `Machines.NextAfterBranchStepIn` | aetherflow/internal/engine/machine.go:162-184 | A branch goes on, or ends and hands over to the next |
| `Machines.BranchForCurrentStep` | aetherflow/internal/engine/machine.go:201-213 | Finds a running branch of a running fork at the step, the first of its fork, or says rightly that there is none |
| `Machines.MarkJoinedIn` | aetherflow/internal/engine/machine.go:215-223 | Exactly the completed forks with that join become joined |
| `Machines.MarkBranchFailedIn` | aetherflow/internal/engine/machine.go:186-199 | The branch the step runs in, and its fork, become failed, as MarkFailedLaw says |
| `MachineLaws.OutsideLaw` | aetherflow/internal/engine/machine.go:66-83 | Outside forks a finished step goes to the step its result names, else to the one its `next` names; else a condition ends, and any other step goes on along the linear path |
| `MachineLaws.JoinLaw` | aetherflow/internal/engine/machine.go:215-223 | Outside branches a finished join leaves exactly the completed forks that wait at it joined, and everything else of the forks as it was |
| `MachineLaws.ForkLaw` | aetherflow/internal/engine/machine.go:114-160 | A fork not seen before stands with its first branch running and the others pending, each at its head; other forks are left alone |
| `MachineLaws.ForkAgainLaw` | aetherflow/internal/engine/machine.go:119-160 | A fork seen before is not started again: its first open branch runs on, or it is completed and its join is next |
| `MachineLaws.NoForkLaw` | aetherflow/internal/engine/machine.go:116-128 | A fork without branches or without a join leads nowhere |
| `MachineLaws.PickLaw` | aetherflow/internal/engine/machine.go:201-213 | A finished step that is no fork runs in a running branch of a running fork that stands at it, if there is one |
| `MachineLaws.BranchLaw` | aetherflow/internal/engine/machine.go:162-184 | A step finished in a branch is listed there once; the branch stands at the step named next, or is completed if none is named or the join is; other forks are left alone |
| `MachineLaws.BranchGoesOnLaw` | aetherflow/internal/engine/machine.go:172-178 | Within a branch the named step is next, and the other branches are left alone |
| `MachineLaws.BranchSwitchLaw` | aetherflow/internal/engine/machine.go:179-184 | At the end of a branch the next pending one runs where it stood |
| `MachineLaws.BranchLastLaw` | aetherflow/internal/engine/machine.go:157-159 | At the end of the last branch the fork is completed and its join is next |
| `MachineLaws.CurrentLaw` | aetherflow/internal/engine/machine.go:29-50 | A committed current step is run as it is, or passed over if it is completed; without one, the first of the linear path |
| `Saga.CompensationQueueLaw` | aetherflow/internal/engine/machine.go:86-108 | The queue holds exactly the targets of the completed steps and the failed one, each once, the failed one first, the rest by last completion among the steps that share the target, latest first |
| `Saga.CompensationQueueOf` | aetherflow/internal/engine/machine.go:86-108 | The backward loop builds that queue |
| `Termination.QueueIsBounded` | aetherflow/internal/engine/machine.go:86-108 | The queue is no longer than the definition has compensation targets |
| `Liveness.QueueIsOfTargets` | aetherflow/internal/engine/machine.go:86-108 | Every queue a log ever holds consists of `on_failure` targets |
| `Workflow.RuntimeState.MarkCompleted` | aetherflow/internal/workflow/types.go:156-163 | The whole new state: the step is completed with its result, and listed once |
| `Workflow.RuntimeState.HasCompleted` | aetherflow/internal/workflow/types.go:147-154 | Whether the step is listed |
| `Workflow.StepByIdIsFirst` | aetherflow/internal/workflow/types.go:165-172 | The step found is the first with that id |
| `Retry.Backoff` | aetherflow/internal/workflow/types.go:74-97 | The loop with its early exit computes the capped growth law |
| `Retry.BackoffLaw` | aetherflow/internal/workflow/types.go:74-97 | Delays are positive, at most the cap, never shrink, and grow strictly until they reach the cap |
| `Retry.BackoffAtLeastDoubles` | aetherflow/internal/workflow/types.go:74-97 | With an effective multiplier of at least 2 the delay is at least the doubling schedule, cut at the cap |
| `Retry.FirstBackoffLaw` | aetherflow/internal/workflow/types.go:52-80 | The first attempt waits for a given positive `initial_interval`, else one second, cut at a given positive `max_interval`, else 30 seconds |
| `Retry.NextBackoffLaw` | aetherflow/internal/workflow/types.go:78-92 | One more attempt waits for the delay times a multiplier above 1, else 2, in whole nanoseconds, or twice the delay if that is no more; cut at the cap |
| `Retry.BackoffExample` | aetherflow/internal/workflow/types.go:74-97 | From one second to ten, doubling: 1, 2, 4, 8 and 10 seconds |
| `Engines.Engine.Advance` | aetherflow/internal/engine/engine.go:147-178 | Whatever call fails, the row is as it was or exactly the commits of one journey further, the history tells of it, and nothing begins before the waiting time or without the lease. If no call fails, the worker gets the instance if and only if it has not ended and no other lease on it lasts; then it changes the row unless it still waits, frees the lease, and the instance has ended, a message was sent, or its timer is set |
| `Engines.Engine.AdvanceClaimed` | aetherflow/internal/engine/engine.go:159-178 | What it does between claim and release; if no call fails it changes the row if and only if the wait is over |
| `Engines.Engine.AdvanceNormally` | aetherflow/internal/engine/engine.go:173-177 | The step the machine stands at is marked and run, or the instance completes |
| `Engines.Engine.ExecuteNormalStep` | aetherflow/internal/engine/engine.go:198-232 | Mark, history row, execution with the state before the mark, and the commit of the outcome, in this order; a success is saved only after the timer is cleared |
| `Engines.Engine.BeginStep` | aetherflow/internal/engine/engine.go:198-215 | No history row without the mark, and the row has step and attempt of the mark |
| `Engines.Engine.AdvanceCompensation` | aetherflow/internal/engine/engine.go:234-305 | The first step of the queue is marked and run as if it had no previous state, or the instance fails |
| `Engines.Engine.ExecuteUndo` | aetherflow/internal/engine/engine.go:239-305 | The same order for a compensation |
| `Engines.Engine.HandleUndo` | aetherflow/internal/engine/engine.go:264-304 | The outcome of a compensation takes it off the queue, makes it wait, or fails the instance |
| `Engines.Engine.UndoSucceeded` | aetherflow/internal/engine/engine.go:264-286 | A compensation that succeeded is completed and taken off the queue |
| `Engines.Engine.NextUndo` | aetherflow/internal/engine/engine.go:278-286 | On to the next compensation, or the end |
| `Engines.Engine.MarkStepRunning` | aetherflow/internal/engine/engine.go:307-326 | The saved row: attempt up by one, key kept or generated, everything else as it was |
| `Engines.Engine.EnsureWaitingTimer` | aetherflow/internal/engine/engine.go:180-196 | Handles exactly the instances that still wait, and arms their timer again |
| `Engines.Engine.HandleOutcome` | aetherflow/internal/engine/engine.go:218-231 | Each outcome goes to its handler, and the saved change records that outcome |
| `Engines.Engine.HandleStepSuccess` | aetherflow/internal/engine/engine.go:356-397 | The saved row is one move of the machine from the row in memory, saved only after the history tells of the success and the timer of the instance is gone; no other timer is touched |
| `Engines.Engine.RecordSuccess` | aetherflow/internal/engine/engine.go:363-374 | The history row, the completed step, and the timer of this instance and no other cleared |
| `Engines.Engine.MoveTo` | aetherflow/internal/engine/engine.go:376-396 | The tail of a success: saved where the machine went, and a message sent unless it ended |
| `Engines.Engine.HandleStepWaiting` | aetherflow/internal/engine/engine.go:399-430 | The saved row waits until the given time with attempt and key kept, and the timer is set |
| `Engines.Engine.HandleStepFailure` | aetherflow/internal/engine/engine.go:432-494 | A retry wait of exactly the backoff while the budget lasts, else failure of the branch and compensation |
| `Engines.Engine.GiveUpStep` | aetherflow/internal/engine/engine.go:479-493 | The compensation queue is saved with its first step current, or the instance fails |
| `Engines.Engine.WaitUntil` | aetherflow/internal/engine/engine.go:408-428 | Saves the wait and arms the timer |
| `Engines.Engine.FinishInstance` | aetherflow/internal/engine/engine.go:496-513 | The saved row has the final status and no current step |
| `Engines.Engine.NextClaimOwner` | aetherflow/internal/engine/engine.go:627-629 | The owner is the consumer name with the next number of this engine |
| `Owners.OwnersDiffer` | aetherflow/internal/engine/engine.go:627-629 | Two owners are the same if and only if consumer and number are: engines of different names never share one |
| `Owners.OwnerExample` | aetherflow/internal/engine/engine.go:627-629 | Two such names |
| `Recoverable.Store.Recover` | aetherflow/internal/engine/engine.go:134-145 | Enqueues a prefix of the list, oldest change first, up to the first failure; if nothing fails and at most 500 instances are open and unlocked, expired locks included, it enqueues all of them |
| `Recoverable.Store.ListRecoverable` | aetherflow/internal/store/postgres.go:313-345 | The oldest of the instances that have not ended and that nobody has locked, in order, up to the limit or 100, and none left out if there are fewer |
| `Recoverable.ListedAreOldest` | aetherflow/internal/store/postgres.go:313-345 | That is what the earliest of the recoverable ones are, by status, lock and time of the last change |
| `Recoverable.MayBeRecoveredIff` | aetherflow/internal/store/postgres.go:320-327 | A recovery without failures can enqueue an instance if and only if fewer than 500 recoverable ones are older |
| `Recoverable.MustBeRecoveredIff` | aetherflow/internal/store/postgres.go:320-327 | Every such recovery enqueues it if and only if fewer than 500 others are older or as old |
| `Recoverable.FewAreAllRecovered` | aetherflow/internal/store/postgres.go:320-327 | With at most 500 recoverable instances each of them is enqueued |
| `Starvation.CommitsAfterWait` | aetherflow/internal/engine/engine.go:180-196 | In no reachable state does an action of a worker commit to a row that still waits |
| `Starvation.ActIsOp` | aetherflow/internal/store/postgres.go:255-311 | Every action of the workers on an instance locks, unlocks or saves its place in the table, a save only when its wait is over, or leaves it alone |
| `Starvation.WorkersKeepTable` | aetherflow/internal/store/postgres.go:255-372 | So every run of the workers is a sequence of such operations on the table |
| `Starvation.WaitingInstanceKeepsItsPlace` | aetherflow/internal/store/postgres.go:320-327 | Whatever the workers do, a reached instance that still waits keeps its row and its place in the order |
| `Recoverable.WaitingKeepsItsPlace` | aetherflow/internal/store/postgres.go:320-327 | The same for a table of many instances and any sequence of such operations |
| `Recoverable.WaitingOnesStarveTheRest` | aetherflow/internal/store/postgres.go:320-327 | So 500 older instances that wait keep a younger one off the list for as long as they wait |
| `Starvation.StarvationHappens` | aetherflow/internal/engine/engine.go:134-145 | There is such a table, of instances the workers reach, for waits of any length |
| `Starvation.OneDelayAccepted` | aetherflow/internal/dsl/validator.go:32-86 | The definition of those that wait is accepted and disciplined |
| `Recoverable.SaveMovesBack` | aetherflow/internal/store/postgres.go:347-372 | A commit to an older instance takes exactly one from those listed before a younger one |
| `Recoverable.PlacesOnlyMoveBack` | aetherflow/internal/store/postgres.go:347-372 | No instance ever gets older in the order |
| `Engines.Engine.Enqueue` | aetherflow/internal/engine/engine.go:122-132 | One message more, or an error |
| `Engines.ExecuteWithSpan` | aetherflow/internal/engine/engine.go:328-354 | A delay that waited is over exactly when its time has come; another waits its duration. An error of any other step is a failure. A condition answered true goes to `then`, answered false to `else`; a task succeeds; a fork names its first branch, a join its `next` |
| `Engines.OutcomesAreAnswers` | aetherflow/internal/worker/worker.go:101-119 | Every outcome a step may have in the system of workers is brought about by some answer of the world |
| `Engines.Repository.UpdateInstance` | aetherflow/internal/store/postgres.go:347-372 | Compare-and-swap on the version: the row is replaced only if it still has the expected version |
| `Engines.Repository.ClaimInstance` | aetherflow/internal/store/postgres.go:255-297 | If no call fails, the lease goes to a claimant if and only if the row has not ended and its lease is free, expired or its own; otherwise it stays as it was |
| `Engines.Repository.ReleaseInstance` | aetherflow/internal/store/postgres.go:299-311 | Only the holder releases, and does if the call does not fail |
| `Engines.Repository.AppendHistory` | aetherflow/internal/store/postgres.go:374-400 | One row more at the end |
| `Engines.Repository.CompleteHistory` | aetherflow/internal/store/postgres.go:402-425 | The outcome goes into exactly that row |
| `Timers.Service.Poll` | aetherflow/internal/timer/timer.go:125-142 | Takes only timers whose time has come, and leaves none of those unlocked if it took fewer than the limit; wakes a prefix of them, each after its key is cleared, and all of them if nothing fails |
| `Timers.Service.WakeAll` | aetherflow/internal/timer/timer.go:130-140 | Clears the key of each timer and then wakes its instance, up to the first failure |
| `Timers.Service.Fire` | aetherflow/internal/timer/timer.go:144-160 | Wakes the instance only if its row was there and is now gone |
| `Timers.Service.Schedule` | aetherflow/internal/timer/timer.go:60-77 | The row and the key are set, or a timer already due is fired; other rows are untouched |
| `Timers.Service.Clear` | aetherflow/internal/timer/timer.go:79-89 | The row is gone, and the key too |
| `Timers.Service.UpsertTimer` | aetherflow/internal/store/postgres.go:489-503 | The row is written; upserts equal live, overwritten, cleared, fired and polled rows |
| `Timers.Service.DeleteTimer` | aetherflow/internal/store/postgres.go:505-513 | The row is gone, and the balance holds |
| `Timers.Service.FireTimer` | aetherflow/internal/store/postgres.go:515-532 | The row is gone, says whether it was there, and the balance holds |
| `Timers.Service.ClaimDueTimers` | aetherflow/internal/store/postgres.go:567-605 | The rows that leave the table have `fire_at` at or before now, each once, all others stay as they are; if fewer than the limit were taken every unlocked row left is later; they leave also when the answer is lost |
| `Selection.EarliestFirst` | aetherflow/internal/store/postgres.go:574-581 | The earliest of the given rows, in order, up to the limit |
| `Selection.MayBeChosenIff` | aetherflow/internal/store/postgres.go:574-581 | A row can be among them if and only if fewer than the limit are earlier |
| `Selection.MustBeChosenIff` | aetherflow/internal/store/postgres.go:574-581 | It is among them for certain if and only if fewer than the limit others are earlier or as early |
| `Timers.DrainTakesCeiling` | aetherflow/internal/timer/timer.go:125-142 | With no new timers and no contention, polls empty `n` due timers if and only if there are at least `n / limit`, rounded up |
| `Timers.DrainLaw` | aetherflow/internal/timer/timer.go:125-142 | After `k` polls `n - k * limit` due timers are left, or none, and timers that are not due are untouched |
| `Timers.BatchesAreOrdered` | aetherflow/internal/timer/timer.go:125-142 | No timer is polled twice, and none fires later than one of a later batch |
| `Timers.PolledWasDue` | aetherflow/internal/timer/timer.go:125-142 | A polled timer was in the table with `fire_at` at or before now, and is not left in it |
| `Timers.PollsLeaveTheRest` | aetherflow/internal/timer/timer.go:125-142 | Polls leave every timer with `fire_at` after now as it was; every timer left is such a one if and only if the polls had room for all that had fired |

## Left out

- HTTP requests, templates, regular expressions and the expression language: a step's effect is an oracle.
- API handlers, authentication, roles, tenants, configuration, telemetry, logging and process wiring.
- Validator.Validate: leaves out the checks of single fields in `validateStep` (URLs, methods, durations, expressions), the context error at the start and the error texts, and says that an error is true rather than which of several is reported first.
- Validator.CheckSteps: of `validateStep` only the branches of a fork and the retry policy.
- Retry.Backoff: multiplies exactly and truncates, so rounding of `float64` and overflow of 64-bit durations are not modelled.
- SQL, JSON and timeouts: each repository method is one atomic operation on rows that may also fail.
- Redis: the stream is a number of messages, key expiry is a timer that may fire at any time, consumer groups and message ids are not modelled.
- Recovery.NeverStuck: is about one instance and says that recovery can list it; when it does, with the limit of 500, is the subject of Recoverable.
- Recovery.TimerCanBeArmedAgain: as NeverStuck, about one instance.
- Several instances at once in the system of workers: the rows, leases and messages of different instances do not touch; the timer service has them all.
- Engines.Engine.Advance: within one call no other worker commits between the claim and the last save; interference is the subject of the system of workers, where the compare-and-swap can lose.
- Termination.EveryRunEnds: as the condition it needs is sufficient here; that it is necessary too is EndlessRuns.RunsEndIffLoopFree.
- Refinement.WorkIsBounded: as EveryRunEnds; necessary too by Completeness.WorkIsBoundedIff.
- Visits.VisitedOnce: the condition is sufficient, and SharedTails.SharedTailRunsTwice shows that it cannot be dropped; it is not shown to be the weakest.
- Refinement.JoinsAreSafe: a finished branch ends at a step some result of which leaves it; that the result it had did leave it is EarlyJoins.BranchEndsIff, for the event at which the branch ends.
- Refinement.FinishedForksAreDone: as JoinsAreSafe.
- Runs.JoinOnlyAfterAllBranches: as JoinsAreSafe.
- Runs.RunIsSettled: as JoinsAreSafe.
- Acceptance.AcceptedRunsEnd: the condition is sufficient; EndlessRuns.RunsEndIffLoopFree has the exact one.
- Graph.CycleFinder.Visit: the source also sets entries for compensation targets without edges; an absent and an empty list of edges are the same here.
- Timer scheduling without a configured timer service, and the error it gives for a waiting instance.
- Outputs, bodies and error texts of steps apart from `next_step`: the engine never branches on them.
