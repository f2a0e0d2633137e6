# Verified model of the candidate-analysis runtime

A Dafny model of the parts of the repository where correctness depends on many steps at once: the durable
task runtime with its outbox, broker, leases and fan-out; the planner that packs documents and transcripts
into context batches; the vacancy matrix with its compilation, criterion tree and coverage checks; the
report paginator; and the notification delivery machine. `dfyconfig.toml` lists every Dafny file of the project,
so `dafny verify dfyconfig.toml` takes all of them together.

## How it is organised

| file | models |
|---|---|
| `RuntimeState`, `RuntimeTransitions` | the rows of the runtime's tables, and each repository transaction as a function from one database to the next, with its answer |
| `RuntimeRepository` | the repository as a class whose fields are the tables, statement by statement and loop by loop; every method is proved to commit exactly the transaction's function |
| `RuntimeInvariant`, `RuntimeUnits`, `RuntimeGrowth`, `RuntimeSafety`, `RuntimeLoops` | the inductive invariant and its preservation |
| `RuntimeTraces` | everything that can happen from the empty database on, as a sequence of databases |
| `RuntimeRows`, `RuntimeClaims`, `RuntimeOutcomes`, `RuntimeRecovery`, `RuntimeReconciliation`, `RuntimePlans` | what each transaction answers and changes, row by row, with every guard written out, at every moment of every trace |
| `RuntimeGuarantees`, `RuntimeOrder`, `RuntimeStartOrder`, `RuntimeLiveness`, `RuntimeProgress`, `RuntimeSupersession`, `RuntimeNoStuckRun` | what holds at every moment: wakeups, fencing, budgets, limits, start order, recovery, no superseded run, no stuck run |
| `RuntimeMovement`, `RuntimeStandstill`, `RuntimeEscalations`, `RuntimeWaiting`, `RuntimeExamples` | exactly when a run can still move, when a waiting task is still awaited, and histories that reach the bad cases |
| `RuntimeOutbox`, `DeliveryWorld`, `DeliveryGuarantees`, `RabbitDelivery` | how outbox rows move; publishers, workers and a broker that loses, repeats and reorders, as one system; the publisher's round and the worker's handling of a message with everybody else's events at every await |
| `LeaseBelief` | the worker's belief in its lease, with heartbeats applied in any order |
| `PlanRegistry`, `Graphs`, `Fanout` | plan validation by depth-first search, fan-out descriptors and joins |
| `ClaimBatching`, `DocumentText` | context batches, and the spans they are cut from |
| `CriterionTree`, `CandidateCoverage`, `MatrixCompilation` | canonical criteria, exact coverage, write-once compilation |
| `ReportText`, `ReportPages` | wrapping and pagination of the report's sections |
| `Notifications` | delivery rows, dispatchers and reconcilers |

A transaction is one atomic step; any worker may run any transaction at any time with any arguments. Clocks,
fresh ids, model answers, broker behaviour, adapter results and token counts are parameters, so the
statements hold for all of them. The only thing asked of workers is that an outcome or a human wait quotes
an attempt, owner and token that a claim handed out together, now or at any earlier time.

## Where the code does less than one may expect

These are statements about the code as it is, each with the exact condition under which the better property
holds.

- `outcome` does not compare the quoted attempt with the task. Attempts and tasks stay in step exactly when the
  attempt is the task's (`OutcomeKeepsAttemptsExactly`); a worker that holds two tasks can quote the wrong one
  (`ForeignOutcomeIsReached`).
- `waitForHuman` updates the quoted attempt without any check of its task, owner, token or state. Attempts and tasks
  stay in step exactly when it is the open attempt of the task (`WaitKeepsAttemptsExactly`, `ForeignWaitIsReached`).
- A heartbeat stores an expiry computed from its own sending time. A late one can pull the expiry back below what
  the worker believes. The worker's checks are sound exactly while its belief does not rest on a heartbeat sent
  after the one applied last (`ChecksAreSoundExactly`, `LateHeartbeatLosesTask`).
- A run that supersedes another is inserted without tasks and would stay ACTIVE and empty (`SuccessorIsStuck`). The
  branch needs an escalation whose action changes the inputs, and no transaction inserts one, so no run is ever
  superseded and every run has a plan (`NeverSuperseded`).
- The final failure of a plan task fails only an ACTIVE run. If the run waits for a human it stays waiting and can
  never succeed (`FinalFailureEndsActiveRuns`, `FailureWhileWaitingIsReached`).
- A success strands its run for good exactly when not all other tasks had succeeded, none of them was live, and none
  becomes eligible by it (`SuccessStrandsExactly`, `StrandedSuccessIsReached`, `StuckForever`). `NoStuckRun` rules
  this out under the discipline below.
- A live task need not move: an unknown outcome with an effect row is not taken up again, a task whose escalation was
  resolved instead of resumed is never woken, and a retry in a run without budget is never claimed. When a run can
  still move is exactly `CanMove` (`MovesExactly`, `UnmovableForever`, `WhyUnmovable`); each of the three is reached
  (`DoubtForeverIsReached`, `WaitForeverIsReached`, `SpentForeverIsReached`).
- A published row can be without a message: the broker lost it or let it expire, or a worker settled it while the run
  could not go on. Nothing else loses one (`PublishedIsOnItsWay`), and reconciliation publishes the row again.
- Asking for a notification again while an older send is unanswered can deliver it twice. It is safe exactly when
  no older send may still be answered retryable (`AskingAgainIsSafeExactly`, `RepeatIsReached`); the row shows that
  only if it has no attempt or three (`RowShowsSafety`, `RowHidesStaleSend`).
- The refusal `RABBIT_TASK_ROUTE_MISMATCH`, the repair insert of the reconciler, the third part of the recovery and
  the clamp of the refund can never act (`RouteMismatchIsNeverAnswered`, `ReconcileReopens`, `NoJoinLeftAsleep`,
  `RefundIsExact`).

The discipline of `NoStuckRun` is asked of the transactions on one run's own tasks, and is what the pipeline's plans
and tools keep to: a join belongs to the plan, waits for its coordinator and is not a notification; shards are all
required and depend on each other without a cycle; a notification comes last in its plan; a join reports success only
after its groups have been read as complete; no plan task fails for good while its run waits for a human.

## Model

| member | source | states |
|---|---|---|
| RuntimeSafety.StepKeepsSafe | web/server/agent-runtime/postgres-runtime-repository.ts:27-579 | Every repository transaction, whatever its arguments and timing, keeps the whole invariant `Safe` (links, leases, outbox, attempts, counts, retries, honest runs, budgets) and moves rows only forward (`Advances`). |
| RuntimeSafety.EveryRunIsSafe | web/server/agent-runtime/postgres-runtime-repository.ts:27-579 | So does every sequence of transactions. |
| RuntimeSafety.CreateRunKeeps | web/server/agent-runtime/postgres-runtime-repository.ts:98-128 | Inserting a run with its plan, first run or recovery, keeps the invariant. |
| RuntimeSafety.MaterializeKeeps | web/server/agent-runtime/postgres-runtime-repository.ts:158-228 | Materialising a fan-out, refused or not, keeps the invariant. |
| RuntimeSafety.ClaimByIdKeeps | web/server/agent-runtime/postgres-runtime-repository.ts:278-328 | A claim by id keeps the invariant, the budget limit included. |
| RuntimeSafety.DeferKeeps | web/server/agent-runtime/postgres-runtime-repository.ts:390-406 | Handing an attempt back keeps the invariant, the ledger included. |
| RuntimeSafety.OutcomeKeeps | web/server/agent-runtime/postgres-runtime-repository.ts:407-471 | Every outcome, with retry, group failure, promotion and run completion, keeps the invariant. |
| RuntimeSafety.RecoverStaleKeeps | web/server/agent-runtime/postgres-runtime-repository.ts:472-513 | Recovery of expired leases, with completed notifications and woken joins, keeps the invariant. |
| RuntimeSafety.NothingUndispatched | web/server/agent-runtime/postgres-runtime-repository.ts:571-576 | Where the invariant holds, the reconciler's query for RUNNABLE tasks without a row is empty. |
| RuntimeSafety.ReconcileReopens | web/server/agent-runtime/postgres-runtime-repository.ts:558-579 | Reconciliation is nothing but reopening rows: its repair insert never inserts. |
| RuntimeTraces.RunIsTrace | web/server/agent-runtime/postgres-runtime-repository.ts:27-579 | Every well-quoted sequence of transactions from the empty database is a trace, so statements about traces cover all runs. |
| RuntimeTraces.TraceIsSafe | web/server/agent-runtime/postgres-runtime-repository.ts:27-579 | Every database of every trace satisfies the invariant. |
| RuntimeTraces.TraceAdvances | web/server/agent-runtime/postgres-runtime-repository.ts:27-579 | Between any two moments of a trace rows are only added or moved forward. |
| RuntimeGuarantees.NoLostWakeup | web/server/agent-runtime/postgres-runtime-repository.ts:27-47 | At every moment a task is RUNNABLE exactly when the outbox holds the row of its current revision, no row is ahead of its task, and the repair query finds nothing. |
| RuntimeGuarantees.RowSurvives | web/server/agent-runtime/postgres-runtime-repository.ts:27-34 | The row of a RUNNABLE task is never deleted, and while the task keeps that revision it stays RUNNABLE. |
| RuntimeGuarantees.LostDeliveryIsRepublished | web/server/agent-runtime/postgres-runtime-repository.ts:558-569 | A RUNNABLE task of an ACTIVE run has its row, and once that row is due, or its publisher or its message is lost for long enough, one reconciliation makes it publishable again. |
| RuntimeGuarantees.OnlyClaimsStart | web/server/agent-runtime/postgres-runtime-repository.ts:259-328 | No transaction but a claim creates an attempt. |
| RuntimeGuarantees.DuplicateDeliveryStartsNothing | web/server/agent-runtime/postgres-runtime-repository.ts:278-309 | A message whose version was ever claimed is answered null and changes nothing, at any later moment. |
| RuntimeGuarantees.AttemptsAreFenced | web/server/agent-runtime/postgres-runtime-repository.ts:312-319 | At most one attempt per task version; attempt_count, lease_token and the number of attempts agree; RUNNING means exactly one open attempt, with the task's owner and token. |
| RuntimeGuarantees.ClosedAttemptChangesNothing | web/server/agent-runtime/postgres-runtime-repository.ts:329-420 | Heartbeat, defer, outcome and human wait that quote a closed attempt are refused and change nothing, forever. |
| RuntimeGuarantees.OlderTokenIsClosed | web/server/agent-runtime/postgres-runtime-repository.ts:394-420 | A token below the task's current one belongs to a closed attempt. |
| RuntimeGuarantees.RouteMismatchIsNeverAnswered | web/server/agent-runtime/postgres-runtime-repository.ts:311 | The refusal for a mismatching route cannot occur. |
| RuntimeGuarantees.NullClaimExactly | web/server/agent-runtime/postgres-runtime-repository.ts:294-310 | A claim of a task RUNNABLE at that version and route is answered null exactly when its run is not ACTIVE, or only its attempt budget stands in the way. |
| RuntimeGuarantees.FinishedStaysFinished | web/server/agent-runtime/postgres-runtime-repository.ts:407-471 | SUCCEEDED and FAILED tasks, and succeeded, failed and superseded runs, never change state again. |
| RuntimeGuarantees.SucceededRunIsHonest | web/server/agent-runtime/postgres-runtime-repository.ts:461-468 | From the moment a run is SUCCEEDED, all tasks it has or ever gets are SUCCEEDED. |
| RuntimeGuarantees.LedgerCounts | web/server/agent-runtime/postgres-runtime-repository.ts:317-318 | The ledger equals the number of attempts not deferred and never exceeds the limit; a task is requeued for failure at most maxAttempts - 1 times. |
| RuntimeGuarantees.RefundIsExact | web/server/agent-runtime/postgres-runtime-repository.ts:400 | An accepted deferral takes exactly one from the ledger, so the clamp at zero never acts. |
| RuntimeGuarantees.OnlyClaimsRun | web/server/agent-runtime/postgres-runtime-repository.ts:259-328 | A task is RUNNING after a transaction other than a claim only if it was RUNNING before. |
| RuntimeGuarantees.StepWithinLimits | web/server/agent-runtime/postgres-runtime-repository.ts:290-292 | A transaction that claims only by id under fixed limits keeps both limits. |
| RuntimeGuarantees.LimitsHold | web/server/agent-runtime/postgres-runtime-repository.ts:290-292 | Under such claims at most maxPerRun tasks of a run and class, and maxActivePool of a class, are RUNNING at any moment. |
| RuntimeGuarantees.OutcomeKeepsAttemptsExactly | web/server/agent-runtime/postgres-runtime-repository.ts:418-420 | An accepted outcome keeps attempts and tasks in step exactly when the attempt it quotes is one of the task's. |
| RuntimeGuarantees.ForeignOutcomeStrands | web/server/agent-runtime/postgres-runtime-repository.ts:418-420 | Quoting another task's attempt leaves that task RUNNING without an open attempt. |
| RuntimeGuarantees.OutcomeLeavesTask | web/server/agent-runtime/postgres-runtime-repository.ts:407-471 | An accepted outcome closes the quoted attempt alone and leaves every other RUNNING task as it is. |
| RuntimeGuarantees.WaitKeepsAttemptsExactly | web/server/agent-runtime/postgres-runtime-repository.ts:353-371 | An accepted human wait, whatever attempt it quotes, keeps attempts and tasks in step exactly when it quotes the open attempt of the task: the update of the attempt checks neither task, owner, token nor state. |
| RuntimeGuarantees.ForeignWaitStrands | web/server/agent-runtime/postgres-runtime-repository.ts:361 | A human wait that quotes anything but the task's open attempt leaves that attempt open while the task waits. |
| RuntimeStartOrder.StepKeepsOrderly | web/server/agent-runtime/postgres-runtime-repository.ts:36-579 | Every transaction keeps the start order, the waking of failed groups' joins, and the failed task a failed run shows. |
| RuntimeStartOrder.EveryRunIsOrderly | web/server/agent-runtime/postgres-runtime-repository.ts:36-579 | They hold at every moment of every trace. |
| RuntimeStartOrder.AttemptsStartInOrder | web/server/agent-runtime/postgres-runtime-repository.ts:281-293 | A new attempt is of a RUNNABLE task, due by then, at its revision, in an ACTIVE run with budget left; its dependencies have all SUCCEEDED, or, for a join, are terminal, or its group has FAILED. |
| RuntimeStartOrder.StartOrderHolds | web/server/agent-runtime/postgres-runtime-repository.ts:36-47 | The dependencies of a task that has begun have succeeded unless it is a join; failed groups have woken their joins; recovery finds no join asleep. |
| RuntimeStartOrder.OnlyJoinsAreDeferredForDependencies | web/server/agent-runtime/postgres-runtime-repository.ts:299-307 | Only a join can be refused because its dependencies are not ready. |
| RuntimeStartOrder.EdgesOnlyBeforeStart | web/server/agent-runtime/postgres-runtime-repository.ts:172-224 | Dependencies are never removed, and are added only to a join that is PENDING or RUNNABLE. |
| RuntimeStartOrder.NoJoinLeftAsleep | web/server/agent-runtime/postgres-runtime-repository.ts:505-510 | The third part of recovery never finds anything to promote. |
| RuntimeStartOrder.ReusedPrefix | web/server/agent-runtime/postgres-runtime-repository.ts:98-109 | The recovery loop reuses exactly the longest prefix of reusable tasks. |
| RuntimeStartOrder.PrefixIsProper | web/server/agent-runtime/postgres-runtime-repository.ts:110 | A failed run always has a task that cannot be reused, so the boundary exists. |
| RuntimeStartOrder.RecoveryStartsAtBoundary | web/server/agent-runtime/postgres-runtime-repository.ts:98-128 | A recovery run takes over a proper prefix of its plan, closed under dependencies, has exactly the next task RUNNABLE with its dispatch row, and the rest PENDING. |
| RuntimeLiveness.FailedShardHasLiveJoin | web/server/agent-runtime/postgres-runtime-repository.ts:436-441 | A failed task in an open run comes with a task of that run that is RUNNABLE, RUNNING, WAITING or UNKNOWN_OUTCOME: its group's join has been woken. |
| RuntimeLiveness.OpenRunHasLive | web/server/agent-runtime/postgres-runtime-repository.ts:36-47 | A run created from a plan that is ACTIVE or waits for a human has a task that is RUNNABLE, RUNNING, WAITING or UNKNOWN_OUTCOME. |
| RuntimeNoStuckRun.StepKeepsLively | web/server/agent-runtime/postgres-runtime-repository.ts:36-579 | Every transaction, disciplined as far as it concerns a run, keeps the structure that rules out that the run gets stuck; what it does to other runs is free, superseding them included. |
| RuntimeNoStuckRun.EveryRunIsLively | web/server/agent-runtime/postgres-runtime-repository.ts:36-579 | That structure holds of a run at every moment of a trace that is disciplined about it. |
| RuntimeSupersession.NeverSuperseded | web/server/agent-runtime/postgres-runtime-repository.ts:366 | At every moment of every trace no escalation's action changes the inputs, as the only transaction that inserts one says so; hence no run is ever superseded and every run has a plan. |
| RuntimeSupersession.OnlySupersessionSupersedes | web/server/agent-runtime/postgres-runtime-repository.ts:639-645 | A run becomes SUPERSEDED only by resolving an open escalation whose action changes the inputs. |
| RuntimeNoStuckRun.NoStuckRun | web/server/agent-runtime/postgres-runtime-repository.ts:407-471 | At every moment of a trace disciplined about a run, if the run is ACTIVE or waiting it has a task that is RUNNABLE, RUNNING, WAITING or UNKNOWN_OUTCOME, and has not succeeded in all its tasks: the last success has closed it. |
| RuntimeNoStuckRun.StepStaysStuck | web/server/agent-runtime/postgres-runtime-repository.ts:36-579 | No transaction moves a stuck run. |
| RuntimeNoStuckRun.StuckForever | web/server/agent-runtime/postgres-runtime-repository.ts:36-579 | A run once stuck is stuck at every later moment. |
| RuntimeNoStuckRun.SuccessorIsStuck | web/server/agent-runtime/postgres-runtime-repository.ts:639-645 | If an escalation's action changed the inputs, the run that supersedes another would get no tasks, and stay ACTIVE and empty whatever happens after. |
| RuntimeNoStuckRun.SuccessClosesExactly | web/server/agent-runtime/postgres-runtime-repository.ts:461-468 | After a success an ACTIVE run is SUCCEEDED exactly when all its other tasks had succeeded; otherwise a RUNNABLE, RUNNING, WAITING or UNKNOWN_OUTCOME task is left, or the run is stuck for good. |
| RuntimeNoStuckRun.SuccessStrandsExactly | web/server/agent-runtime/postgres-runtime-repository.ts:461-468 | A success of an ACTIVE run's task strands the run for good exactly when, before it, not all other tasks had succeeded, none of them was live, and none of the pending ones becomes eligible by it. |
| RuntimeNoStuckRun.FinalFailureEndsActiveRuns | web/server/agent-runtime/postgres-runtime-repository.ts:444 | The final failure of a plan task ends exactly the ACTIVE runs; a waiting run goes on waiting and can never succeed. |
| RuntimeMovement.StepLeavesUnmovable | web/server/agent-runtime/postgres-runtime-repository.ts:27-579 | No transaction changes the state or a task of a run that cannot move, and none makes it movable. |
| RuntimeStandstill.MovesExactly | web/server/agent-runtime/postgres-runtime-repository.ts:27-579 | At every moment a run can move (a task RUNNING, one to promote, one to claim within the budget, one of unknown outcome that recovery takes up, or an open escalation it waits for) exactly when some transaction would change its state or one of its tasks. |
| RuntimeStandstill.UnmovableForever | web/server/agent-runtime/postgres-runtime-repository.ts:27-579 | A run that cannot move is the same, task for task, at every later moment. |
| RuntimeStandstill.WhyUnmovable | web/server/agent-runtime/postgres-runtime-repository.ts:472-513 | An open run, under the discipline, cannot move exactly when nothing is left to promote and each of its live tasks is held back: RUNNABLE with the budget spent or a dependency blocked, WAITING without an open escalation, or UNKNOWN_OUTCOME with an effect row. |
| RuntimeStandstill.StuckCannotMove | web/server/agent-runtime/postgres-runtime-repository.ts:461-468 | A run stuck after its last success cannot move, so it stays as it is. |
| RuntimeEscalations.OnlyHumanWaitsWait | web/server/agent-runtime/postgres-runtime-repository.ts:353-371 | Tasks start to wait in one transaction only. |
| RuntimeEscalations.EscalationStaysOpen | web/server/agent-runtime/postgres-runtime-repository.ts:372-387 | An open escalation is closed by its own answers only. |
| RuntimeWaiting.WaitingIsAwaited | web/server/agent-runtime/postgres-runtime-repository.ts:353-387 | The run of a WAITING task has an open escalation at every moment, unless one of its escalations was resolved, not resumed, while the task was waiting. |
| RuntimeExamples.ForeignOutcomeIsReached | web/server/agent-runtime/postgres-runtime-repository.ts:418-420 | From the empty database: one worker with two claimed tasks has an outcome accepted for the first with the attempt of the second. |
| RuntimeExamples.ForeignWaitIsReached | web/server/agent-runtime/postgres-runtime-repository.ts:361 | From the empty database: the human wait of one task is accepted with the attempt of another. |
| RuntimeExamples.FailureWhileWaitingIsReached | web/server/agent-runtime/postgres-runtime-repository.ts:444 | From the empty database: a plan task fails for good while its run waits for a human. |
| RuntimeExamples.StrandedSuccessIsReached | web/server/agent-runtime/postgres-runtime-repository.ts:461-468 | From there: the human answers, the waiting task succeeds, and the run is stuck. |
| RuntimeExamples.DoubtForeverIsReached | web/server/agent-runtime/postgres-runtime-repository.ts:493-504 | From the empty database: an ACTIVE run whose only unfinished task has an unknown outcome and an effect row can never move again. |
| RuntimeExamples.WaitForeverIsReached | web/server/agent-runtime/postgres-runtime-repository.ts:626-638 | From the empty database: an ACTIVE run whose task waits after its escalation was resolved can never move again. |
| RuntimeExamples.SpentForeverIsReached | web/server/agent-runtime/postgres-runtime-repository.ts:427-434 | From the empty database: a retry scheduled when the budget is spent is never claimed, and its ACTIVE run can never move again. |
| RuntimeClaims.ClaimIsAnsweredExactly | web/server/agent-runtime/postgres-runtime-repository.ts:278-319 | At every moment of every trace the answer to a claim by id, whatever it names, is the first of: null for a task that is not RUNNABLE at that version and route in an ACTIVE run; run limit reached; pool limit reached; a dependency holds it back; not yet due; null for a spent budget; accepted. All guards are written out. |
| RuntimeClaims.ClaimStartsExactly | web/server/agent-runtime/postgres-runtime-repository.ts:312-321 | An accepted claim starts exactly the attempt, its lease, its charge and its group; any other changes nothing. |
| RuntimeClaims.PollingClaimExactly | web/server/agent-runtime/postgres-runtime-repository.ts:259-277 | The polling claim starts a task exactly if it is RUNNABLE in an ACTIVE run, due, not held back, and budget is left. |
| RuntimeOutcomes.AcceptedExactlyWhileOpen | web/server/agent-runtime/postgres-runtime-repository.ts:329-421 | At every moment of every trace, whatever credential a claim handed out before is accepted by heartbeat, deferral, outcome and human wait exactly as long as its attempt is open; every refusal is given exactly in its case. |
| RuntimeOutcomes.PromoteExactly | web/server/agent-runtime/postgres-runtime-repository.ts:36-47 | Promotion dispatches exactly the PENDING tasks of the run that nothing holds back, at once, and changes nothing else. |
| RuntimeOutcomes.SuccessExactly | web/server/agent-runtime/postgres-runtime-repository.ts:456-468 | A success ends the task, its attempt and its effect row, dispatches exactly what is not held back any more, and closes the run exactly if all its tasks have succeeded. |
| RuntimeOutcomes.UnknownExactly | web/server/agent-runtime/postgres-runtime-repository.ts:407-455 | An unknown outcome leaves task, attempt and effect in doubt; a shard takes its group down, and exactly the tasks that nothing holds back any more are dispatched. |
| RuntimeOutcomes.FailureExactly | web/server/agent-runtime/postgres-runtime-repository.ts:407-449 | A failure is retried exactly if it is transient and the attempts that have failed, with this one, are fewer than the tool allows; task and new row are then due 5, 15 or 45 seconds later. Else the task is FAILED, and its group, or its ACTIVE run, with it. |
| RuntimeOutcomes.DeferExactly | web/server/agent-runtime/postgres-runtime-repository.ts:390-406 | An accepted deferral hands back exactly one charge, and task and new row are due when the worker asked. |
| RuntimeOutcomes.HeartbeatExactly | web/server/agent-runtime/postgres-runtime-repository.ts:329 | A heartbeat sets the expiry to the lease length after its sending time, and changes nothing else but the revision. |
| RuntimeOutcomes.WaitExactly | web/server/agent-runtime/postgres-runtime-repository.ts:353-371 | An accepted human wait ends the attempt, lets task and ACTIVE run wait, and inserts one open escalation. |
| RuntimeRecovery.RecoverExactly | web/server/agent-runtime/postgres-runtime-repository.ts:472-513 | At every moment of every trace, recovery moves exactly: tasks of ACTIVE runs whose lease has run out, to UNKNOWN_OUTCOME if their effect row says so and else to RUNNABLE with a new row due at once, their attempts to the matching state; tasks of unknown outcome without an effect row; notifications whose report is published; and the runs these close. |
| RuntimeRecovery.ResumeExactly | web/server/agent-runtime/postgres-runtime-repository.ts:377-387 | A resumption closes its escalation, activates the run if unchanged, and moves exactly the run's WAITING tasks: to UNKNOWN_OUTCOME if their effect row says so, else to RUNNABLE with a new row due at once. |
| RuntimeRecovery.ResolveExactly | web/server/agent-runtime/postgres-runtime-repository.ts:626-646 | A resolution is answered exactly by the state and the flag of the escalation; without the flag it lets the run go on and moves no task. |
| RuntimeReconciliation.ReconcileExactly | web/server/agent-runtime/postgres-runtime-repository.ts:558-579 | At every moment of every trace, a leased row is PENDING again exactly if its lease has run out, a published one exactly if it was confirmed at least the given time ago and its task is RUNNABLE at its version in an ACTIVE run; without a positive time no published row changes; nothing else does. |
| RuntimeReconciliation.LeaseExactly | web/server/agent-runtime/postgres-runtime-repository.ts:514-537 | A publisher leases, of the rows it picked, exactly those that wait, are due, and whose task is RUNNABLE at their version in an ACTIVE run; expired leases end. |
| RuntimeReconciliation.BatchExactly | web/server/agent-runtime/postgres-runtime-repository.ts:519-528 | The rows a publisher picks are exactly those that wait, are due and wanted, with fewer than the limit of such rows before them by availability, creation and id. |
| RuntimeReconciliation.LeasedRowExactly | web/server/agent-runtime/postgres-runtime-repository.ts:538-549 | Confirmation and failure of a row act exactly under the publisher's lease, and say when. |
| RuntimeReconciliation.PutOffExactly | web/server/agent-runtime/postgres-runtime-repository.ts:550-557 | A published row is put off exactly while its task is RUNNABLE at its version. |
| RuntimePlans.CreateExactly | web/server/agent-runtime/postgres-runtime-repository.ts:53-136 | A run is created exactly once, from a valid plan, with a positive budget; a first run starts with its roots, a recovery takes over the longest front of the plan it can and starts with the next task; exactly the RUNNABLE tasks have a row. |
| RuntimePlans.MaterializeExactly | web/server/agent-runtime/postgres-runtime-repository.ts:158-228 | Each refusal of a fan-out is given exactly in its case; an accepted one inserts exactly the group, one member and one task for each shard, and the join's edges. |
| RuntimePlans.CompleteExactly | web/server/agent-runtime/postgres-runtime-repository.ts:254-258 | A group is completed exactly when all its required shards have succeeded. |
| RuntimePlans.ReadExactly | web/server/agent-runtime/postgres-runtime-repository.ts:229-253 | The join reads that all required shards have succeeded, or exactly why not; membership is never incomplete. |
| RuntimeRepository.Repository.EnqueueDispatch | web/server/agent-runtime/postgres-runtime-repository.ts:27-34 | Stamps the task and inserts its row unless there is one. |
| RuntimeRepository.Repository.PromoteEligible | web/server/agent-runtime/postgres-runtime-repository.ts:36-47 | The update and the loop over its rows amount to `Promote`. |
| RuntimeRepository.Repository.CreateGoal | web/server/agent-runtime/postgres-runtime-repository.ts:53-136 | Refuses a plan the registry refuses; otherwise commits `CreateRun`. |
| RuntimeRepository.Repository.CountReusable | web/server/agent-runtime/postgres-runtime-repository.ts:98-109 | The loop counts the reusable prefix. |
| RuntimeRepository.Repository.InsertTasks | web/server/agent-runtime/postgres-runtime-repository.ts:115-128 | The loop over the plan inserts exactly the rows of `InsertPlan`. |
| RuntimeRepository.Repository.MaterializeFanout | web/server/agent-runtime/postgres-runtime-repository.ts:158-228 | Commits exactly `MaterializeFanout`, refusals included. |
| RuntimeRepository.Repository.InsertShards | web/server/agent-runtime/postgres-runtime-repository.ts:182-225 | The two loops over shards, rows first and edges between shards second, insert exactly `InsertGroup`; each refusal rolls everything back. |
| RuntimeRepository.Repository.Claim | web/server/agent-runtime/postgres-runtime-repository.ts:259-277 | Claims the first startable task if there is one, and commits exactly `Claim`. |
| RuntimeRepository.Repository.ClaimById | web/server/agent-runtime/postgres-runtime-repository.ts:278-328 | Commits and answers exactly `ClaimById`. |
| RuntimeRepository.Repository.WaitForHuman | web/server/agent-runtime/postgres-runtime-repository.ts:353-371 | Commits exactly `WaitForHuman`; a duplicate leaves the task RUNNING. |
| RuntimeRepository.Repository.ResumeRun | web/server/agent-runtime/postgres-runtime-repository.ts:377-387 | Commits exactly `ResumeRun`. |
| RuntimeRepository.Repository.Defer | web/server/agent-runtime/postgres-runtime-repository.ts:390-406 | Commits exactly `Defer`. |
| RuntimeRepository.Repository.Outcome | web/server/agent-runtime/postgres-runtime-repository.ts:407-471 | Commits exactly `Outcome`, branch by branch. |
| RuntimeRepository.Repository.RecoverStale | web/server/agent-runtime/postgres-runtime-repository.ts:472-513 | The three loops amount to `RecoverStale`. |
| RuntimeRepository.Repository.CompleteNotifications | web/server/agent-runtime/postgres-runtime-repository.ts:475-492 | The loop completes the notifications and closes their runs. |
| RuntimeRepository.Repository.RecoverLeases | web/server/agent-runtime/postgres-runtime-repository.ts:493-504 | The loop over stale tasks recovers exactly the set of them. |
| RuntimeRepository.Repository.PromoteRuns | web/server/agent-runtime/postgres-runtime-repository.ts:505-510 | The loop over runs promotes as one promotion of all of them. |
| RuntimeRepository.Repository.ClaimDispatchBatch | web/server/agent-runtime/postgres-runtime-repository.ts:514-537 | Leases exactly the batch of `ClaimDispatchBatch`: the first `limit` publishable rows by availability, then creation and id. |
| RuntimeRepository.Repository.OldestPublishable | web/server/agent-runtime/postgres-runtime-repository.ts:519-528 | The chosen rows are publishable, as many as the limit allows, and none left out comes before one of them. |
| RuntimeRepository.Repository.ReconcileDispatch | web/server/agent-runtime/postgres-runtime-repository.ts:558-579 | Commits exactly `Reconcile`. |
| RabbitDelivery.BackoffIsBounded | web/server/agent-runtime/rabbitmq.ts:155 | The publisher's delay starts at 250 ms, doubles with each attempt, never exceeds 30 s, and reaches it exactly from the eighth attempt on. |
| RuntimeOutbox.OnlyPublishersPublish | web/server/agent-runtime/postgres-runtime-repository.ts:27-34 | No transaction but a publisher's lease and confirmation takes a row out of PENDING: the others insert pending rows, reopen rows or leave them alone, and a row keeps its class. |
| DeliveryWorld.EventKeepsSound | web/server/agent-runtime/rabbitmq.ts:139-162 | Every event of any publisher, worker, repository caller or the broker keeps every published current row accounted for. |
| DeliveryGuarantees.HistoryIsSound | web/server/agent-runtime/rabbitmq.ts:139-162 | So does every history from the empty system. |
| DeliveryGuarantees.RecordsAreTrue | web/server/agent-runtime/rabbitmq-worker.ts:133-169 | A row excused by a loss or by an idle run has such an event behind it, and no message of it has reached the broker since. |
| DeliveryGuarantees.PublishedIsOnItsWay | web/server/agent-runtime/rabbitmq-worker.ts:133-169 | At every moment of every history the message of a PUBLISHED row whose task is RUNNABLE at that version is on the broker or in the hands of a worker that has not settled it, unless its latest message was lost or dead-lettered, or settled while the run was not ACTIVE or out of budget. |
| DeliveryGuarantees.AcknowledgedNeverStrands | web/server/agent-runtime/rabbitmq-worker.ts:144-160 | Whatever was acknowledged before, a RUNNABLE task of an ACTIVE run has its row at every moment, pending, leased, on its way, or excused in that way; once it is due or overdue one reconciliation makes it publishable. |
| DeliveryGuarantees.AcknowledgedIsFinished | web/server/agent-runtime/rabbitmq-worker.ts:144-160 | In every history a message is acknowledged only after its worker was told that there is nothing to do for it, or that its row is PENDING again, or that its report on the attempt it had started for this very message was accepted; the report closed that attempt, unless it asked for a human who was asked already. |
| RabbitDelivery.EventAdvances | web/server/agent-runtime/rabbitmq.ts:139-162 | No event undoes one: rows only move forward and tags are never reused. |
| RabbitDelivery.OthersLeaseNone | web/server/agent-runtime/postgres-runtime-repository.ts:514-549 | Nobody else's event leases a row to a publisher. |
| RabbitDelivery.RabbitDispatchPublisher.RunOnce | web/server/agent-runtime/rabbitmq.ts:139-162 | One round with everybody else's events at every await: recovers when due, reconciles, leases the batch that the query returns at that moment, sends its rows one by one and confirms each whose message the broker confirmed; it ends at the first row that is not delivered, giving it back, and succeeds exactly if there is none. The history is stated event by event; the rows before that one are PUBLISHED and not left leased to this publisher. |
| RabbitDelivery.RabbitDispatchPublisher.PublishBatch | web/server/agent-runtime/rabbitmq.ts:149-159 | Publishes the rows in order up to the first whose message the broker does not confirm or whose lease somebody has taken; succeeds exactly when there is none. |
| RabbitDelivery.RabbitDispatchPublisher.PublishRow | web/server/agent-runtime/rabbitmq.ts:151-153 | One row is sent, then confirmed if the broker has confirmed its message; it is published exactly if so and the lease is still held by then. |
| RabbitDelivery.RabbitTaskWorker.ProcessMessage | web/server/agent-runtime/rabbitmq-worker.ts:133-169 | One message with everybody else's events at every await, its history stated event by event: dead-letters exactly what it cannot decode or does not serve; claims the task; acknowledges exactly when the claim found nothing to do, or the task's report was accepted, or its row was put off, each by the transaction in the history, and only a message that is settled by then; else hands it back. |
| RabbitDelivery.RabbitTaskWorker.Execute | web/server/agent-runtime/consumer.ts:136-152 | Reports the outcome under the credential of the claim, then asks to wake the run's next tasks after a success; acknowledges exactly when the report's transaction was accepted, the worker was told so, and nothing failed after that. |
| RabbitDelivery.RabbitTaskWorker.DeferDelivery | web/server/agent-runtime/rabbitmq-worker.ts:156-160 | Asks to put the row off a second, and acknowledges exactly when that transaction was accepted and the worker was told so. |
| LeaseBelief.ForeignStepLeavesTask | web/server/agent-runtime/postgres-runtime-repository.ts:329-513 | While a lease has not expired no transaction but its holder's touches the task row. |
| LeaseBelief.LeaseNeverReturns | web/server/agent-runtime/postgres-runtime-repository.ts:281-319 | A lease that a worker has lost is never its own again: the next claim has a higher token. |
| LeaseBelief.EventKeepsLease | web/server/agent-runtime/consumer.ts:68-120 | Every event of worker, wire and other processes, heartbeats applied in any order included, keeps the stored expiry at the heartbeat applied last and the task with its holder until then. |
| LeaseBelief.LeaseStaysAsApplied | web/server/agent-runtime/consumer.ts:68-120 | So does every sequence of events. |
| LeaseBelief.ChecksAreSoundExactly | web/server/agent-runtime/consumer.ts:80-101 | Heartbeats applied in any order: the ownership checks a worker passes from a moment on, until something else happens, all find the task RUNNING under its own token with the stored lease outlasting the check, exactly when its belief has run out or does not rest on a heartbeat sent after the one applied last. |
| LeaseBelief.OrderedIsNeverOvertaken | web/server/agent-runtime/consumer.ts:87-101 | With heartbeats applied in sending order the belief never reaches beyond the lease renewed last. |
| LeaseBelief.OwnershipCheckIsSound | web/server/agent-runtime/consumer.ts:80-83 | So a worker that passes its ownership check then holds the task RUNNING under its own token, and its stored lease outlasts the check. |
| LeaseBelief.ClaimGivesLease | web/server/agent-runtime/postgres-runtime-repository.ts:315 | A claim by id starts the execution with the lease and the expiry that the soundness statement starts from. |
| LeaseBelief.TaskExecution.AssertOwnership | web/server/agent-runtime/consumer.ts:80-83 | Passes exactly when nothing aborted the execution and the belief has not run out. |
| LeaseBelief.TaskExecution.ExecuteClaimedTask | web/server/agent-runtime/consumer.ts:61-166 | Over any story of timers, heartbeats, answers and checks, the checks that pass are exactly those made in time and unaborted, and each, unless the belief was overtaken, was made by the owner of the lease. |
| LeaseBelief.LateHeartbeatLosesTask | web/server/agent-runtime/consumer.ts:93-101 | From the empty database: a heartbeat given up by its sender is applied late, recovery takes the task away, and the ownership check still passes. |
| PlanRegistry.CollectKeys | web/server/agent-runtime/registry.ts:66 | The map of the plan has exactly its keys. |
| PlanRegistry.KeyCount | web/server/agent-runtime/registry.ts:66-67 | It has as many entries as the plan exactly when no key is repeated. |
| PlanRegistry.CheckTasks | web/server/agent-runtime/registry.ts:68-71 | Passes exactly when every tool is registered and every dependency is a key of the plan; otherwise names the problem of the first task that has one, its tool before its first missing dependency. |
| PlanRegistry.PlanVisitor.Visit | web/server/agent-runtime/registry.ts:74-81 | The depth-first search terminates; it fails only on a cycle, and otherwise finishes the key and everything it depends on. |
| PlanRegistry.PathBackIsCycle | web/server/agent-runtime/registry.ts:75 | Coming back to a key that is being visited is a cycle. |
| PlanRegistry.HasNoCycle | web/server/agent-runtime/registry.ts:72-83 | The visits together decide exactly whether the plan is acyclic. |
| PlanRegistry.ValidatePlan | web/server/agent-runtime/registry.ts:57-84 | Accepts exactly the current goals with criteria whose plans have a gate, unique keys, registered tools, known dependencies and no cycle; each refusal, stale input and stale profile included, is given exactly in its case, and an unregistered tool or an unknown dependency is the first problem in plan order. |
| PlanRegistry.AcyclicIsRanked | web/server/agent-runtime/registry.ts:57-84 | A plan is acyclic exactly when some rank falls along every dependency. |
| Fanout.SortSorts | web/server/agent-runtime/fanout.ts:41 | Sorting gives an ascending arrangement of the same shards. |
| Fanout.OneAscendingOrder | web/server/agent-runtime/fanout.ts:41 | Shards with distinct identities have only one ascending arrangement. |
| Fanout.CreateDescriptor | web/server/agent-runtime/fanout.ts:39-51 | Accepts exactly the well-formed inputs (identities present and distinct, dependencies known and not on oneself) and returns the sorted, numbered descriptor. |
| Fanout.DescriptorIsCanonical | web/server/agent-runtime/fanout.ts:39-51 | Every permutation of the inputs is accepted alike and gives the same descriptor, with ordinals 0 to n-1 in identity order. |
| Fanout.CanonicalJoin | web/server/agent-runtime/fanout.ts:61-70 | Accepts exactly distinct results that cover the required shards and only expected ones, and returns them in descriptor order. |
| Fanout.JoinIsCanonical | web/server/agent-runtime/fanout.ts:61-70 | Every permutation of the results is joined alike, with the same output. |
| Fanout.JoinFollowsDescriptor | web/server/agent-runtime/fanout.ts:69 | The output has exactly the expected shards that have a result, each once, in descriptor order. |
| ClaimBatching.FittingPrefix | web/server/candidate-pipeline/transcript-claim-batching.ts:136-145 | The binary search ends at a prefix that fits while one character more does not. |
| ClaimBatching.CutOversized | web/server/candidate-pipeline/transcript-claim-batching.ts:132-146 | Refuses a segment exactly where it has no text or not one character of it fits; else it cuts where one character more would not fit. |
| ClaimBatching.PackDocuments | web/server/candidate-pipeline/transcript-claim-batching.ts:113-164 | The loop terminates; the batches are numbered by position, not empty, within the limit, and their parts cover every segment in order. Each batch takes whole segments as long as the next one fits; only a segment that does not fit alone is cut, where one character more would not fit, and the next part begins min(256, length - 1) characters before the cut. It fails only where the next segment or part cannot be cut. |
| ClaimBatching.SplitLastIsPlaced | web/server/candidate-pipeline/transcript-claim-batching.ts:147-155 | Cutting a part keeps the parts gap-free, in order, with at most 256 characters of overlap. |
| ClaimBatching.PartsQuoteTheirSource | web/server/candidate-pipeline/transcript-claim-batching.ts:149-154 | A part's text is the normalized text at its textSpan, if its segment's is. |
| ClaimBatching.NoCharacterLost | web/server/candidate-pipeline/transcript-claim-batching.ts:113-164 | Every character of every segment is in some part, where the part's position says. |
| ClaimBatching.FittingEnd | web/server/candidate-pipeline/transcript-claim-batching.ts:204-213 | The binary search for an utterance part ends where one character more does not fit. |
| ClaimBatching.ExcerptUtterance | web/server/candidate-pipeline/transcript-claim-batching.ts:201-219 | The parts of a long utterance cover its text with no gap; each fits and with one character more would not, unless it is the last; the next begins min(256, length - 1) characters before its end. |
| ClaimBatching.SplitUtterances | web/server/candidate-pipeline/transcript-claim-batching.ts:195-221 | Exactly the utterances that do not fit are replaced by their parts, in order. |
| ClaimBatching.Grow | web/server/candidate-pipeline/transcript-claim-batching.ts:224-229 | A window is the longest one that was measured within the limit step by step. |
| ClaimBatching.PackWindows | web/server/candidate-pipeline/transcript-claim-batching.ts:222-235 | Windows are measured, as long as they can be growing utterance by utterance, contiguous, advancing, and reach the last utterance; it fails only where the next utterance does not fit at all. |
| ClaimBatching.WindowsCover | web/server/candidate-pipeline/transcript-claim-batching.ts:222-234 | The windows together cover all utterances. |
| ClaimBatching.WindowsOverlap | web/server/candidate-pipeline/transcript-claim-batching.ts:233 | Consecutive windows leave no gap and overlap by min(overlapUtterances, size of the earlier window - 1). |
| ClaimBatching.PackUtterances | web/server/candidate-pipeline/transcript-claim-batching.ts:166-236 | Splitting and windows together; for a counter that ignores the order number it fails only on an utterance that cannot be split. |
| ClaimBatching.NoWordLost | web/server/candidate-pipeline/transcript-claim-batching.ts:166-236 | Every character of every utterance is in some part of it. |
| ClaimBatching.BuildBatches | web/server/candidate-pipeline/transcript-claim-batching.ts:247-267 | The list's orders are its positions, every batch is within the limit, and it holds the document parts and the windows. It is refused only for an invalid limit or overlap, a base request over the limit, a part of a document that cannot be cut, or (for a counter that ignores the order number) an utterance that cannot be split. The document batches are those of the packing above. |
| DocumentText.Assemble | web/server/candidate-pipeline/documents.ts:117-125 | Boundaries lie one after the other and each holds its page or section. |
| DocumentText.SliceKeepsSection | web/server/candidate-pipeline/documents.ts:117-126 | Although boundaries are taken before trimming, only white space at the very end of the text is missing from a section's slice. |
| DocumentText.SegmentsQuoteText | web/server/candidate-pipeline/transcript-claim-batching.ts:61-72 | Every non-empty boundary gives a segment that quotes the text at its span, and every segment comes from one. |
| DocumentText.IndexOf | web/server/candidate-pipeline/documents.ts:134 | The first occurrence, or none exactly if there is none. |
| DocumentText.EveryCharacterIsBatched | web/server/candidate-pipeline/documents.ts:117-126 | For pages assembled and trimmed, among any other documents: every character that trimming keeps is in some part of some batch, and that part quotes the normalized text at its textSpan. |
| DocumentText.Locate | web/server/candidate-pipeline/documents.ts:131-137 | Looks in the first boundary that matches and nowhere else: finds the first occurrence exactly if there is one, and its span quotes the text; each error is given exactly in its case. |
| CriterionTree.PrintedInjective | web/server/candidate-pipeline/matrix-driven.ts:194 | Different paths print to different ids, also beyond 999 children. |
| CriterionTree.DraftValidator.ValidateNode | web/server/candidate-pipeline/matrix-driven.ts:175-212 | Accepts a tree exactly when every node is valid and its temporary ids are new; returns the compiled tree. |
| CriterionTree.DraftValidator.ValidateForest | web/server/candidate-pipeline/matrix-driven.ts:192 | The same for the children, in order, under one set of ids. |
| CriterionTree.DraftValidator.CheckNode | web/server/candidate-pipeline/matrix-driven.ts:176-191 | Passes exactly when the node is valid. |
| CriterionTree.CheckSplit | web/server/candidate-pipeline/matrix-driven.ts:225-230 | Refuses exactly when a source point is used twice at the top level. |
| CriterionTree.Canonicalize | web/server/candidate-pipeline/matrix-driven.ts:214-241 | Accepts exactly the valid forests under given versions of profile and policy; the matrix then has pairwise distinct ids and exact hardRequired flags. |
| CriterionTree.IdsAreDistinct | web/server/candidate-pipeline/matrix-driven.ts:231 | The printed ids are pairwise distinct and list the paths in preorder. |
| CriterionTree.HardRequiredIsExact | web/server/candidate-pipeline/matrix-driven.ts:186-189 | hardRequired holds at a node exactly when all its refs are stop-factor refs. |
| CriterionTree.MatrixCriterionIds | web/server/candidate-pipeline/matrix-coverage.ts:16-24 | The recursive pushes list the ids in preorder. |
| CandidateCoverage.MatchIds | web/server/candidate-pipeline/matrix-driven.ts:278-287 | The loop over Sets finds exactly the missing ids and whether any is repeated or unknown. |
| CandidateCoverage.NoMismatchIsExact | web/server/candidate-pipeline/matrix-driven.ts:305-306 | No mismatch means exactly each requested id once and no other. |
| CandidateCoverage.ExactIsPermutation | web/server/candidate-pipeline/matrix-driven.ts:305-306 | For distinct criteria that is being a permutation of them. |
| CandidateCoverage.CheckRow | web/server/candidate-pipeline/matrix-driven.ts:288-303 | A row passes exactly when it is grounded: evidence where a verdict needs it, explained gaps, and each item quoting a matching claim. |
| CandidateCoverage.ValidateRows | web/server/candidate-pipeline/matrix-driven.ts:277-307 | PASS exactly when the rows are a permutation of the criteria with every row grounded. |
| CandidateCoverage.ValidateExactCoverage | web/server/candidate-pipeline/matrix-coverage.ts:26-42 | Complete exactly when the entries answer each requested id once and no other. |
| CandidateCoverage.ValidateLedger | web/server/candidate-pipeline/transcript-claim-batching.ts:293-302 | Passes exactly when no id is repeated or unknown, and returns the missing ones. |
| CandidateCoverage.RetryNeverClashes | web/server/candidate-pipeline/transcript-claim-batching.ts:313-320 | A retry for the missing ids never makes the answers repeat one, so the third check cannot fail. |
| CandidateCoverage.ScanBatch | web/server/candidate-pipeline/transcript-claim-batching.ts:311-322 | Succeeds exactly when its answers are admissible; then has one entry per criterion, in order. All three ledger checks are made, and the third never refuses. |
| CandidateCoverage.EvidenceIsComplete | web/server/candidate-pipeline/transcript-claim-batching.ts:332-334 | The evidence has exactly the keys of the findings: none is dropped, none invented. |
| CandidateCoverage.RunCoverage | web/server/candidate-pipeline/transcript-claim-batching.ts:304-336 | Succeeds exactly when all answers are admissible; one cell per batch, one gap search exactly for the criteria that no batch has found, and those alone come out as zero. |
| MatrixCompilation.StepKeepsConsistent | web/server/candidate-pipeline/matrix-postgres-repository.ts:10-76 | Every transaction keeps matrices and published compilations in step and only advances tokens. |
| MatrixCompilation.EveryRunAdvances | web/server/candidate-pipeline/matrix-postgres-repository.ts:10-76 | So does every interleaving. |
| MatrixCompilation.ClaimsExactly | web/server/candidate-pipeline/matrix-postgres-repository.ts:10-37 | A worker gets to compile exactly if nobody has, or after a failure it may retry, or under its own claim, or when the other owner's lease has run out; its own lease lasts from then. |
| MatrixCompilation.LeaseIsExclusive | web/server/candidate-pipeline/matrix-postgres-repository.ts:31-33 | Until the lease runs out, nothing that others do in any order takes the compilation from its holder or changes its row. |
| MatrixCompilation.HolderActsExactly | web/server/candidate-pipeline/matrix-postgres-repository.ts:39-76 | Publishing, failing and reporting progress act exactly for the holder of the token; neither the lease nor a failure keeps it from publishing; a published matrix may only be published again as it is. |
| MatrixCompilation.SupersededTokenIsPowerless | web/server/candidate-pipeline/matrix-postgres-repository.ts:46-75 | A superseded token can neither publish, fail nor record progress, ever again. |
| MatrixCompilation.TokensStrictlyIncrease | web/server/candidate-pipeline/matrix-postgres-repository.ts:29-35 | Every new claim gets a token above all earlier ones. |
| MatrixCompilation.PublicationIsFinal | web/server/candidate-pipeline/matrix-postgres-repository.ts:46-60 | A published matrix is never replaced; any later successful publication has its checksum and changes nothing. |
| MatrixCompilation.CompileVacancyMatrix | web/server/candidate-pipeline/matrix-compilation.ts:61-127 | With any transactions of others in between: an existing matrix is reused untouched; the owner of a claim has its chosen matrix (the critic's successor, or else the draft) published exactly when its token still may, in one or two model calls, and otherwise fails with the code of its case; anybody else answers with the matrix if there is one by then, and else waits or reports the failure it was told of. PUBLISHED and REUSED carry the checksum of the one stored matrix. |
| ReportText.ParagraphsKeepWords | web/server/candidate-pipeline/reports.ts:493 | Splitting into paragraphs keeps the sequence of words. |
| ReportText.SpaceSeparates | web/server/candidate-pipeline/reports.ts:495 | Words on both sides of white space are the words of the whole. |
| ReportText.WrapParagraph | web/server/candidate-pipeline/reports.ts:494-499 | Keeps the words in order; only a single word may exceed the width; no line is broken early; a blank paragraph is one blank line. |
| ReportText.Wrap | web/server/candidate-pipeline/reports.ts:491-502 | The same for a text of several paragraphs. |
| ReportPages.TakeLines | web/server/candidate-pipeline/reports.ts:297-302 | A card takes whole paragraphs as long as the next one fits, cuts one only to fill an empty card, loses no line, and takes at least one of those pending. |
| ReportPages.ReportLayout.DrawCard | web/server/candidate-pipeline/reports.ts:290-329 | One pass draws one card that stays above the bottom margin, below the card before it or atop the next page, and takes its lines off what is pending. |
| ReportPages.ReportLayout.DrawSection | web/server/candidate-pipeline/reports.ts:273-331 | The loop terminates and draws each line exactly once and in order; no card but one of an empty section is empty; a card ends before its section only if it is full or the next whole paragraph would not have fitted. |
| ReportPages.CardsPerLine | web/server/candidate-pipeline/reports.ts:290-330 | Cards that each draw a line are no more than the lines. |
| ReportPages.SectionParagraphLines | web/server/candidate-pipeline/reports.ts:483-489 | Each cleaned paragraph is wrapped by itself. |
| ReportPages.RenderSections | web/server/candidate-pipeline/reports.ts:273-331 | For any sections the layout is sound, sections follow each other, and each is shown by its own cards. |
| ReportPages.ShownKeepsWords | web/server/candidate-pipeline/reports.ts:273-331 | So every word of every section is drawn exactly once and in order. |
| Notifications.NotificationDispatcher.RegisterEvent | web/server/candidate-pipeline/notifications.ts:69-77 | Adds a row per distinct recipient, or one waiting for configuration, and leaves existing rows alone. |
| Notifications.NotificationDispatcher.Due | web/server/candidate-pipeline/notifications.ts:79-83 | Returns the first due rows in the order given, up to the limit. |
| Notifications.NotificationDispatcher.Claim | web/server/candidate-pipeline/notifications.ts:85-88 | Claims exactly a due delivery and starts one send with the next attempt number. |
| Notifications.NotificationDispatcher.RetryManually | web/server/candidate-pipeline/notifications.ts:97-100 | Asks again exactly for a delivery that has failed or waits for configuration: its attempts start anew. |
| Notifications.NotificationDispatcher.Store | web/server/candidate-pipeline/notifications.ts:90-93 | Stores the answer as the dispatcher chooses among the guarded updates. |
| Notifications.NotificationDispatcher.Dispatch | web/server/candidate-pipeline/notifications.ts:129-144 | A pass goes through the due deliveries in order: it claims each whose recipient is configured and that is still due then, sends it once and stores the answer; the results are exactly those of the claims that succeeded. All of it is a run of events among whatever other processes do before each claim and while each send is under way. |
| Notifications.EventKeepsTracked | web/server/candidate-pipeline/notifications.ts:85-100 | Every claim, answer, report, reconciliation and registration keeps the count of sends and the answers behind it. |
| Notifications.ReportExactly | web/server/candidate-pipeline/notifications.ts:136-141 | After a send the delivery is SENT, due again 5 or 15 seconds later, FAILED, or left to the reconciler for 5, 15 or 45 seconds, exactly by answer and attempt; one that has moved on is left alone. |
| Notifications.TakenExactly | web/server/candidate-pipeline/notifications.ts:85-96 | A claim takes exactly a PENDING delivery that is due; the reconciler fails exactly those SENDING for too long. |
| Notifications.RetryWaits | web/server/candidate-pipeline/notifications.ts:85-91 | Until its delay is over a retry is neither sent nor changed, whatever dispatchers and reconcilers do. |
| Notifications.AtMostThreeSends | web/server/candidate-pipeline/notifications.ts:129-144 | However dispatchers and reconcilers interleave, a ready delivery is sent at most three times, and only a send answered retryable is followed by another. |
| Notifications.FirstDeliveryIsSafe | web/server/candidate-pipeline/notifications.ts:69-100 | That holds of every newly registered delivery until a human asks for it again. |
| Notifications.StaleSendRepeats | web/server/candidate-pipeline/notifications.ts:97-100 | Asked for again while an older send may still be answered retryable, a delivery can be sent, delivered, and sent again. |
| Notifications.RepeatIsReached | web/server/candidate-pipeline/notifications.ts:94-100 | From empty tables: registered, claimed, given up by the reconciler and asked for again, a delivered message goes out twice. |
| Notifications.RowShowsSafety | web/server/candidate-pipeline/notifications.ts:97-100 | Until the first manual retry, a row that shows no attempt or three is safe to ask for again. |
| Notifications.RowHidesStaleSend | web/server/candidate-pipeline/notifications.ts:97-100 | A row that shows one attempt may be safe or not: two runs from empty tables leave the same row, and only one is safe. |
| Notifications.AskingAgainIsSafeExactly | web/server/candidate-pipeline/notifications.ts:97-100 | In every run from empty tables, a reset delivery is never repeated needlessly exactly when no older send of it may still be answered retryable. |
| Notifications.SentIsFinal | web/server/candidate-pipeline/notifications.ts:90-100 | SENT is absorbing under every event, manual retry included. |
| Notifications.RegisteringAgainChangesNothing | web/server/candidate-pipeline/notifications.ts:71-75 | Registering an event again, its recipients in any order, changes nothing. |

## Left out

- Isolation levels, SKIP LOCKED, row and advisory locks: every transaction is atomic, and a row locked by another transaction is not skipped.
- The `revision` column of runs: the one comparison that matters, a resume that finds the run changed, is the flag `runUnchanged`.
- Goals, candidate records, events, grants, escalation wording and versions: projections and checks beside the protocol. The duplicate human wait is kept.
- Archiving, which cancels tasks and pauses runs from another module: no transaction here produces CANCELLED, though promotion treats it as terminal.
- `prepareExternalEffect`, checkpoints and the budget of external requests: the state of a task's external effect changes by an arbitrary step.
- Artifact lookups behind recovery, shard reuse and `readFanout`: which results are reusable is a parameter; `readFanout`'s check of artifact schemas is not part of the model.
- The regular expressions that classify error codes: whether a failure is transient is a parameter.
- Identifiers printed from hashes or random numbers, and creation times: ids are structured values, a repeated random id is refused, and orders by id or creation time are rank parameters.
- RuntimeRepository.Repository.CreateGoal: the trigger's identity and the run's id are one; the source looks a trigger up and then generates an id.
- ReportPages.SectionParagraphLines: takes the body's paragraphs after cleaning, splitting and filtering, which are regular expressions.
- Notifications.NotificationDispatcher.Claim: takes the update and the read of the claimed row as one statement.
- Connections, sessions, topology and shutdown of publisher and worker, apart from messages taken back by the broker; publisher ids are unique and never blank but empty. An adapter's run is one report at its end, and its ownership checks are those of `LeaseBelief`.
- The query of `resumeGoogleDriveRuns`, which reads runs that wait before the transaction: the transaction may come any number of steps later, so it is possible for every open escalation.
- Timers: an execution's timer and heartbeat interval may fire at any moment; one clock is shared by worker and database in `LeaseBelief`.
- The in-memory twins `runtime.ts` and `InMemoryVacancyMatrixRegistry`: looser copies of the protocols modelled here.
- `applyCriticalVerificationDecisions`, `deduplicateCoverageEvidence`, recommendation formulas, decision-safe and report-safe text: single passes that would only add easy members.
- Batch ids, which are hashes of the batch's content: token counters see neither them nor `textSpan`.
- The generator that yields each request to a counter: the counter is called where the source yields.
- The words of regular expressions over draft texts (numbers, stop-factor refs, trimming): abstract functions of the text.
- The evidence of the coverage workflow is a map; the source lists its values in the order in which their keys first appeared.
- Fonts, titles, source links and drawing: text width is an abstract function, and lengths are integers in tenths of a point, so floating-point rounding at a page's edge is not modelled.
- `localeCompare` is an arbitrary total order.
- Recipient configuration and the transport's HTTP answers: a recipient is configured or not, and a send is answered in one of four ways.
