# Remedik, modelled and proved

Remedik turns firing alerts into remediation records and executes them in a Kubernetes cluster. This
project models the parts of it whose correctness is hard to see from one function at a time, in Dafny
4.11, and proves properties of them. `dafny verify dfyconfig.toml` checks all of it.

## What is modelled

- **The lifecycle of a record** (`Records`, `Steps`, `Channels`, `Backoff`, `Lifecycle`, `Outcomes`): what a
  reconcile decides and the statuses it builds, with every action an adversary that may resolve, plan, execute
  and verify as it pleases; `Outcomes` says what each comes to, field by field. `Protocol` puts any number of
  workers over one versioned record: arbitrarily stale reads, compare-and-swap writes that land, are refused,
  or land with the reply lost, crashes between any two steps, patches of the decision, deletion, a
  nondecreasing clock. `ProtocolInvariant` and `ProtocolSteps` hold the inductive invariant,
  `ProtocolTheorems` what follows from it for every run, `ProtocolLosses` exactly when a record is found
  Running, `ProtocolRuns` the undisturbed reconcile, and `ProtocolLimits` the stronger claims that fail.
  `Reconciler` is the reconciler as written, a working copy whose fields are assigned around writes, with
  everybody else's steps in between; each of its methods moves the same world by legal steps only and accounts
  for its own, so the theorems about runs are theorems about it.
- **The guards and their memory** (`Guards`, `MemoryHistory`, `Replay`, `Reload`, `Retention`, `Deletions`,
  `Sweeper`, `SweepRule`, `Pruner`, `Restart`, `GiveUps`): the decision, the sorted index it is made over, the
  replay that rebuilds the index after a restart, and the deletions that the replay must not notice. `Restart`
  puts them together with the lifecycle: creates, status writes, sweeps, count limits, prunes of the index and
  restarts in any order. `GiveUps` says how many pages one trip can make in the same runs, with deliveries in
  flight.
- **Admission** (`Admission`, `Sink`, `Deliveries`, `Matching`, `Fingerprint`): from an alert to at most one
  record, and the hourly limit under concurrent deliveries.
- **Actions with arithmetic or loops worth stating** (`Drain`, `Scale`, `Pvc`, `Numbers`).
- **The list of the dashboard** (`DashboardFilter`, `DashboardList`, `Sorting`).

## Assumptions

- Time is whole seconds on one nondecreasing clock; a write and the timestamps in it are one instant, and the
  several clock readings of one alert are one reading. Creation and the start recorded for it are the same
  instant.
- A record's name identifies it. Record names are distinct where a statement says so, and a give-up record is
  never given the name of an earlier one.
- The spec of a record, its give-up label and its creation time are written once: nothing in the resource
  definition enforces it, and only the approval decision is patched.
- A delivery's cached list of give-up records misses at most those of deliveries in flight.
- A claim never requests less than nothing, where the exactness of a growth is stated.
- `sort.Slice` is a stable insertion sort. The comparisons are shown to tell the elements apart, so that any
  other sorting algorithm would give the same, except among records of one strategy that finished at the same
  instant, where `Sweeper.Sweeper.Candidates` keeps those a stable sort puts first (its floor does not depend
  on that).
- `Retries` and attempt numbers are unbounded naturals (the resource definition limits them far below int32).
- A pod, an eviction reply, a cordon patch, a create and a status write are answered by an adversary.
- The replay is complete before the first alert is accepted, and the index starts empty.

## Where the code and its documentation differ

The model follows the code; each difference is a lemma.

- `docs/invariants.md`, section 3, and the comments of `internal/engine/controller.go` say that a record found
  Running can only mean that the process died. It means that its attempt lost the reply to the Running write,
  its worker, or its verdict (`ProtocolLosses.FoundRunningIff`, `EndsInterruptedIff`); a human patch while the
  plan runs is enough (`ProtocolLimits.PatchTurnsSuccessIntoInterrupted`).
- `docs/invariants.md`, section 6, says that retention never deletes a record inside a guard window. The
  sweeper keeps that promise (`Sweeper.SweepThenRestart`); the count limit applied after every terminal write
  does not (`Pruner.PruneIgnoresTheFloor`). It keeps it if and only if what it deletes is out of every window
  (`Pruner.PruneGoesUnnoticedIff`), and then no restart loosens a guard (`Restart.RestartNeverLoosens`). It
  can also delete the give-up record that keeps a trip from paging again
  (`GiveUps.PrunedGiveUpIsRepeatedIff`).
- `docs/invariants.md`, section 10, says that escalation is never retried. On the attempt path it is not; on
  the give-up path, and after an approval timeout, every verdict that fails to land has it run again
  (`ProtocolLimits.GiveUpPagesAgainAfterEveryLostVerdict`, `TimeoutPagesAgainAfterEveryLostVerdict`), and a
  record may be approved, and run, after the page that says nobody approved it
  (`ProtocolLimits.TimedOutPageMayBeFollowedByARun`).
- `internal/engine/sink.go`, line 308, says one give-up record per trip. It is one for each delivery in flight
  at a time (`GiveUps.GiveUpsPerWindow`, `GiveUpsReachTheBound`).
- `internal/dashboard/remediations.go`, lines 200 and 274, say that a group's link narrows to exactly its run.
  It also shows every listed record that prints the same line elsewhere
  (`DashboardList.LinkShowsMoreThanTheRun`), and for a line without a target, such as one that could not be
  resolved, records of any target (`DashboardList.UnresolvedTargetShowsEveryTarget`). It is exactly the run if
  and only if no listed record outside it has its state and agrees with it on whatever of strategy, target and
  alert it names (`DashboardList.LinkIsExactlyTheRunIff`).
- `internal/dashboard/filter.go`, line 201, says that a count ignores its dimension's own clause only. In the
  escalation dimension it also counts failures only, so the number beside the option in force can differ from
  the page (`DashboardFilter.CountInForceAgreesIff`).
- `internal/guards/guards.go`, line 108, says that `RetryAfter` is how long until the guard would permit the
  execution. For a completion in the future it is shorter (`Guards.RetryAfterIsExactIff`).
- `internal/matching/matching.go` explains a refusal that is a match in one case
  (`Matching.ExplanationAgreesIff`).
- `maxPerHour` can be exceeded, by up to k - 1 starts when k deliveries are in flight
  (`Admission.HourlyBoundIsReached`).

## Model

| member | source | states |
|---|---|---|
| `ProtocolTheorems.AttemptsStartOnce` | internal/engine/controller.go:162-179 | Over every run of the protocol (any number of workers, stale reads, writes that land, are refused or lose their reply, crashes, patches, deletion) the attempts whose plan was started are strictly increasing numbers from 1 to Retries + 1, so none starts twice |
| `ProtocolTheorems.ExecuteAtMostOnce` | internal/engine/controller.go:165-194 | No step of an attempt is executed twice, only started attempts execute anything, and a dry-run record executes nothing, over every run |
| `ProtocolTheorems.VerdictIsForever` | internal/engine/approval.go:105-108 | Once a terminal status is stored, every later status is that one, whatever run follows |
| `ProtocolTheorems.InterruptedRecordsHaveNoSteps` | internal/engine/controller.go:127-138 | A stored Running status never has steps, so the loop that rewrites steps found mid-flight changes nothing, and an Interrupted record carries no step and no escalation |
| `ProtocolTheorems.PagesAreAccountedFor` | internal/engine/controller.go:203-227 | The attempt path runs the fallback plan at most once per record; on all paths the runs are those whose verdict landed (at most one), those whose verdict was lost, and those a worker still holds |
| `ProtocolTheorems.PagesAreRuns` | internal/engine/escalation.go:41-102 | A page is counted exactly when a fallback plan is run: by a give-up record, an approval that timed out or a last attempt that failed, if there is a plan; its outcome is then in the verdict its worker holds |
| `ProtocolTheorems.NothingRunsUnapproved` | internal/engine/approval.go:32-43 | In approval mode every started attempt began on a stored version that carries an approval |
| `ProtocolTheorems.UndecidedRecordsTimeOut` | internal/engine/approval.go:55-79 | A record nobody decides starts and executes nothing, and if it ends it ends Failed/ApprovalTimeout after zero attempts and not before its deadline |
| `ProtocolTheorems.DenialsDoNotPage` | internal/engine/approval.go:45-53 | A record ends Denied only after a version that was denied, only in approval mode, and carries no escalation |
| `ProtocolTheorems.GiveUpRecordsOnlyReport` | internal/engine/controller.go:146-159 | A give-up record starts, executes and feeds nothing; its stored states are new or Failed/GaveUp |
| `ProtocolTheorems.PostureShowsInTheVerdict` | internal/engine/steps.go:304-313 | A dry-run record never ends Succeeded and a live one never ends Simulated |
| `ProtocolTheorems.CompletionsAgreeWithTheRecord` | internal/engine/controller.go:247-258 | A record feeds the guards at most once, with the completion time it stores, and never as a give-up or without a target |
| `ProtocolTheorems.LandedWritesAreBounded` | internal/engine/controller.go:162-228 | Over every run, whoever reads, writes, crashes or patches, the landed status writes other than waits are at most two for each attempt the retry budget allows, less the ones still ahead: a record cannot be written for ever |
| `ProtocolSteps.StepKeepsInv` | internal/engine/controller.go:91-119 | Every kind of step of every worker, and every outside event, keeps the inductive invariant of the protocol |
| `ProtocolRuns.UndisturbedIsSettle` | internal/engine/controller.go:91-119 | A worker whose read is current and whose writes land, with nobody else moving, takes the record exactly where the sequential account (Settle) says |
| `ProtocolRuns.UndecidedTimesOutOnceReconciled` | internal/engine/approval.go:59-79 | From any reachable world with no decision made, one undisturbed reconcile at or after the deadline ends the record Failed/ApprovalTimeout with zero attempts |
| `ProtocolLimits.GiveUpPagesAgainAfterEveryLostVerdict` | internal/engine/controller.go:146-159 | For every n there is a run in which a give-up record runs its fallback plan n + 1 times, having lost n verdicts: the path pages before any write |
| `ProtocolLimits.TimeoutPagesAgainAfterEveryLostVerdict` | internal/engine/approval.go:117-131 | The same on the approval path: for every n there is a run in which a gated record nobody decided on in time runs its fallback plan n + 1 times, having lost n verdicts |
| `ProtocolLimits.TimedOutPageMayBeFollowedByARun` | internal/engine/approval.go:117-131 | Every gated record with a fallback plan has a run that pages because nobody approved and then starts an attempt, as somebody approves while it pages, without a crash, a lost reply or a refused write that could have landed |
| `ProtocolLimits.PatchTurnsSuccessIntoInterrupted` | internal/engine/controller.go:104-105 | For every ungated record and every plan that succeeds there is a run that ends Failed/Interrupted without a crash, a lost reply or a refused write that could have landed: one person changing the decision while the plan runs is enough |
| `ProtocolLosses.FoundRunningIff` | internal/engine/controller.go:104-105 | Over every run, a record found Running with no worker holding that attempt is one whose attempt lost the reply to its Running write, or its worker to a crash, or its verdict to a refusal, and the other way round |
| `ProtocolLosses.EndsInterruptedIff` | internal/engine/controller.go:122-139 | Once nobody holds an attempt, the record is Running or Interrupted if and only if one of those three losses happened; there is at most one, and it is of the latest attempt |
| `ProtocolLosses.LostIsForGood` | internal/engine/controller.go:122-139 | A lost attempt never gets a verdict of its own, whatever run follows: the record stays Running until it is Interrupted |
| `ProtocolLosses.InterruptedWasLostOrHeld` | internal/engine/controller.go:122-139 | A record that ended Interrupted lost its attempt, or a worker is still busy with it |
| `ProtocolLosses.StepKeepsLosses` | internal/engine/controller.go:165-179 | Every step keeps what those theorems rest on: an attempt has at most one holder, a held one is the latest and is not lost, and an unfinished one is held or lost |
| `Lifecycle.SettleMakesProgress` | internal/engine/controller.go:162-228 | Every reconcile, except a wait that starts before the deadline, decreases the number of reconciles a record has left; such a wait keeps the attempt count and asks for a call in a minute or one second past the deadline, whichever is sooner |
| `Outcomes.AttemptOutcome` | internal/engine/controller.go:162-228 | An attempt succeeds, in the posture of the record, if and only if every step has everything it needs; otherwise each step reads as it went, the reason is that of the step that failed it, and the record is pending until after the back-off while the budget lasts, or failed with the outcome of the fallback plan in it; its number, start and completion times are stated field by field |
| `Outcomes.RunningIsInterrupted` | internal/engine/controller.go:122-139 | A record found Running, whatever else it is, ends Failed/Interrupted at that time, with the steps that said running failed and every other field as it was |
| `Outcomes.GiveUpIsPaged` | internal/engine/controller.go:146-159 | A give-up record, whatever its mode and decision, ends Failed/GaveUp with the fallback plan's outcome in it: one entry for each channel, a success exactly if some channel works, nothing if there is no plan |
| `Outcomes.DeniedIsEnded` | internal/engine/approval.go:45-53 | A denied record ends Failed/Denied with steps and escalation as they were |
| `Outcomes.UndecidedWaits` | internal/engine/approval.go:67-114 | An undecided record before its deadline says how long is left, changes nothing else, and is called back a second after that time or in a minute |
| `Outcomes.UndecidedTimesOut` | internal/engine/approval.go:55-131 | At its deadline, or without one, it ends Failed/ApprovalTimeout with the fallback plan's outcome in it |
| `Outcomes.FinishedIsLeftAlone` | internal/engine/controller.go:104-105 | A finished record is not touched and not called back |
| `Lifecycle.SettlesInBoundedTurns` | internal/engine/controller.go:162-228 | Whatever people patch and however steps behave, once its deadline is past a record is terminal after as many reconciles as it had left, at most Retries + 2 |
| `Lifecycle.FailingRecordSchedule` | internal/engine/controller.go:203-217 | A record whose attempts all fail runs exactly Retries + 1 of them, ends Failed, and has been scheduled to wait the sum of the capped doubling sequence |
| `Lifecycle.PagingNeverChangesTheOutcome` | internal/engine/escalation.go:41-102 | Read off Settle: however the fallback plan goes, only the record of it differs |
| `Reconciler.RemediationReconciler.Reconcile` | internal/engine/controller.go:91-119 | One reconcile among arbitrary steps of others, for every answer of the cache: the steps it takes are those its branch prescribes for the version read, in order and no others; it reports an error exactly when its last write did not land; otherwise the record is left as Written says, the guards are fed exactly by a verdict that counts, the count limit is applied, and it asks to be called back when RequeueAfter says. In a quiet cluster the record is left at Settle |
| `Reconciler.ScriptIs` | internal/engine/controller.go:91-119 | The steps of each branch, by what the record says: Running, the plan, the conclusion and one write; or one write; or none, for a finished record and for a wait that says the same |
| `Reconciler.RemediationReconciler.RunAttempt` | internal/engine/controller.go:162-228 | Running is written before anything is done and nothing is done unless it lands; then every step of the plan once, the conclusion, and one write: the verdict, a retry later, or the verdict with the outcome of the fallback plan in it, whatever others do in between |
| `Reconciler.RemediationReconciler.ConcludeAttempt` | internal/engine/controller.go:196-227 | After the run, whatever others do: success, another attempt after the back-off, or the fallback plan before the terminal write; an error exactly when that write did not land |
| `Reconciler.RemediationReconciler.MarkInterrupted` | internal/engine/controller.go:122-139 | A record found Running is failed as Interrupted, its steps left mid-flight rewritten as failed |
| `Reconciler.RemediationReconciler.MarkGaveUp` | internal/engine/controller.go:146-159 | A give-up record runs the fallback plan, making the calls of its channels, and ends Failed/GaveUp with its outcome, feeding no guard |
| `Reconciler.RemediationReconciler.AwaitApproval` | internal/engine/approval.go:32-80 | The human gate: runs when approved, refuses when denied, waits before the deadline, times out at it or without one |
| `Reconciler.RemediationReconciler.MarkAwaitingApproval` | internal/engine/approval.go:87-114 | The wait is recorded, or nothing is written when the record already says the same |
| `Reconciler.RemediationReconciler.MarkDenied` | internal/engine/approval.go:45-53 | A denied record ends Failed/Denied with nothing executed and nobody paged |
| `Reconciler.RemediationReconciler.TimeOutApproval` | internal/engine/approval.go:117-131 | A record nobody decided on escalates and ends Failed/ApprovalTimeout |
| `Reconciler.RemediationReconciler.FinishRecord` | internal/engine/controller.go:231-276 | The terminal write is a compare-and-swap on the version read; only if it is heard to land does the history gain one completion, unless the record has no target or is a give-up, and only then is the count limit applied, whose failure is not an error |
| `Reconciler.Cluster.UpdateStatus` | internal/engine/controller.go:177-179 | A status write lands only over the version it was built from and then stores the working copy; refused or unheard, it reports an error and is not repeated |
| `Steps.StepRunner.RunStep` | internal/engine/steps.go:143-246 | One step: its error, status and the calls made on the action for every behaviour; no error exactly when nothing it needs is missing |
| `Steps.StepRunner.Run` | internal/engine/steps.go:92-125 | The loop computes the plan run (statuses, first failure, calls) for arbitrary action outcomes |
| `Steps.RunShape` | internal/engine/steps.go:92-125 | One status per step with its own index: completed, at most one Failed, then only Skipped; calls are in step order, each step at most once, and none but Plan in a dry run |
| `Steps.RunSucceedsIffEveryStepDoes` | internal/engine/steps.go:92-125 | A run reports no failure if and only if every step has everything it needs: a known action, a target, and a plan in a dry run or an execution with whatever check it declares |
| `Steps.StepVerdict` | internal/engine/steps.go:143-246 | One step, in its behaviour's own fields: no error exactly when nothing it needs is missing, UnknownAction exactly when the action is not known, StepFailed otherwise |
| `Steps.StepCalls` | internal/engine/steps.go:143-246 | Which methods of an action are called: Plan exactly in a dry run, Execute exactly in a live one, Verify exactly after an Execute that worked, declares a check and a valid timeout; each once |
| `Steps.RunOutcome` | internal/engine/steps.go:92-125 | A plan step by step: those before the first that does not work are completed, that one failed and gives the reason, those after it are skipped; the calls are exactly those of the steps reached |
| `Steps.TerminalState` | internal/engine/steps.go:304-313 | The end state is terminal, Failed exactly on failure, and never Succeeded in a dry run |
| `Channels.ChannelsOutcome` | internal/engine/escalation.go:116-149 | Somebody was told if and only if some channel works; a channel is skipped exactly when the first success is enough and an earlier one worked, and every other one reports its own verdict; undelivered means there is an error to record |
| `Channels.RunChannels` | internal/engine/escalation.go:116-149 | The loop over the channels computes that outcome and makes those calls |
| `Channels.PagingCalls` | internal/engine/escalation.go:116-149 | The calls of a page are exactly the live calls of the channels that are tried |
| `Channels.RunEscalation` | internal/engine/escalation.go:41-102 | The fallback plan leaves its outcome on the record, channel by channel, with a live runner whatever the posture; the calls are those of its channels; the error it reads when undelivered is there |
| `Backoff.Backoff` | internal/engine/backoff.go:21-34 | The loop computes min(30s * 2^(attempt-2), 10m), and zero for the first attempt |
| `Backoff.TotalWaitClosedForm` | internal/engine/backoff.go:21-34 | The total wait before n retries in closed form |
| `Guards.AllowedByCounts` | internal/guards/guards.go:130-222 | A remediation is allowed if and only if no completion is younger than the cooldown, fewer starts than the limit lie in the last hour and fewer completions than the count lie in the give-up window |
| `Guards.RefusalNamesTheFirstGuard` | internal/guards/guards.go:130-138 | The refusing guard is the first that refuses in the order cooldown, rate, give-up, each characterized by counts |
| `Guards.RefusalFigures` | internal/guards/guards.go:151-222 | The figures of a refusal: time since the last completion, never negative, and what is left of the cooldown; the starts of the last hour and the limit; the completions inside the window |
| `Guards.RetryAfterIsExactIff` | internal/guards/guards.go:174-201 | The wait a cooldown reports is positive, at most the cooldown, and exactly how long it lasts if and only if the last completion is not in the future |
| `Guards.EvaluateIsMonotone` | internal/guards/guards.go:130-222 | A history that has seen at least as much, as far back as any window looks, never allows more |
| `Guards.EvaluateForgets` | internal/guards/guards.go:130-222 | Two histories with the same entries from a cut that no window reaches past give the same decision, down to the refusing guard and its figures |
| `MemoryHistory.Search` | internal/guards/memory.go:108-117 | Bisection finds where the entries at or after an instant begin |
| `MemoryHistory.Append` | internal/guards/memory.go:63-75 | Appending and sorting only when out of order keeps the list sorted and adds exactly one entry |
| `MemoryHistory.MemoryHistory.RecordStart` | internal/guards/memory.go:63-75 | One start more for one strategy, all other entries unchanged, lists still sorted |
| `MemoryHistory.MemoryHistory.RecordCompletion` | internal/guards/memory.go:78-93 | One completion more for one strategy and target, all other entries unchanged, lists still sorted |
| `MemoryHistory.MemoryHistory.LastCompletion` | internal/guards/memory.go:96-105 | The last entry is the maximum of the completions |
| `MemoryHistory.MemoryHistory.CompletionsSince` | internal/guards/memory.go:108-117 | The binary search counts the completions at or after an instant |
| `MemoryHistory.MemoryHistory.StartsSince` | internal/guards/memory.go:120-128 | The binary search counts the starts at or after an instant |
| `MemoryHistory.MemoryHistory.Prune` | internal/guards/memory.go:132-136 | Every list keeps exactly its entries at or after the cutoff, and empty lists are gone |
| `MemoryHistory.PruneIndex` | internal/guards/memory.go:154-184 | One index, pruned key by key |
| `MemoryHistory.PruneIsInvisibleIff` | internal/guards/memory.go:154-184 | Pruning changes no decision of a configuration, for any history and any later time, if and only if every window it enforces fits in the retention |
| `Admission.HourlyBound` | internal/engine/sink.go:155-184 | With a limit of N and at most k deliveries in flight, from a past within the bound, every closed hour ever holds at most N + k - 1 recorded starts, hence at most N when deliveries are serial |
| `Admission.HourlyBoundIsReached` | internal/engine/sink.go:155-184 | For every N and k some run puts N + k - 1 starts in one hour: the bound is the best possible |
| `Sink.Sink.ConsumeOne` | internal/engine/sink.go:108-187 | One alert: the outcome, the records and the history after it are the decided ones; a start is recorded exactly for a record that was created to execute something |
| `Sink.Sink.RecordGiveUp` | internal/engine/sink.go:310-375 | At most one give-up record per window and target, and never a start |
| `Sink.GaveUpRecently` | internal/engine/sink.go:379-402 | The scan finds a give-up record of this target that is not older than the window, if there is one |
| `Sink.CreatedRecordsWereAdmitted` | internal/engine/sink.go:108-187 | One alert makes at most one record, only if it fires, for the matching strategy with the most matchers, never a manual one: an execution only if every guard allows it, a give-up only if that guard refuses and has made none within its window |
| `Deliveries.RecordAppearsIff` | internal/engine/sink.go:108-293 | For an alert that a strategy handles, a record that will execute appears, with its start recorded, exactly when the strategy is not manual, its guards and the blast radius allow it and the create is accepted: with the strategy's steps, retries, fallback plan and mode, the delivery's target, simulated exactly if remediation is paused or the target's namespace, or failing an entry for it the cluster, is not live, and with a deadline of now plus the configured timeout or 15 minutes exactly if it is gated. A give-up record appears exactly when that guard refuses and none was made inside its window. Otherwise nothing changes |
| `Deliveries.OutcomeOfAHandledAlert` | internal/engine/sink.go:108-187 | What is answered: manual, refused by which guard, by the blast radius, given up already, giving up, or created, each exactly when |
| `Deliveries.OtherAlertsDoNothing` | internal/engine/sink.go:108-130 | An alert that does not fire, or whose labels no enabled strategy asks for, leaves records and history alone |
| `Deliveries.HandlerIsSelected` | internal/engine/sink.go:124-133 | The strategy that is selected and looked up by name is the one asked for with the most matchers, and the least name among those |
| `GiveUps.GiveUpsPerWindow` | internal/engine/sink.go:310-402 | Over every run of deliveries that look at a cached list and create their records later (with whatever history they see), lost replies, restarts and sweeps, every closed stretch as long as the give-up window holds at most as many give-up records of one strategy and target as deliveries may be in flight for it, if the floor is deeper than the window and no other deletion takes a give-up record inside it |
| `GiveUps.GiveUpsReachTheBound` | internal/engine/sink.go:323-370 | No smaller bound holds: that many deliveries that all look before any of them creates make as many records in one instant |
| `GiveUps.GiveUpsAreSpaced` | internal/engine/sink.go:310-402 | With one delivery in flight at a time (from its look at the cached list until its record shows there), two give-up records of one strategy and target are more than the give-up window apart, over the same runs |
| `GiveUps.DeliveryLooksThenMakes` | internal/engine/sink.go:310-375 | A delivery as Sink decides it, with nothing in between and an up-to-date list, is one look and one make of those runs |
| `GiveUps.PrunedGiveUpIsRepeatedIff` | internal/engine/controller.go:282-329 | After the count limit, a delivery that trips the guard makes a give-up record again if and only if every one inside the window is among what was deleted |
| `GiveUps.PruneTakesAGiveUp` | internal/engine/controller.go:282-329 | That happens: with a limit of one, the next execution of the strategy to finish deletes a give-up record one second old |
| `Sink.GiveUpClearsItself` | internal/guards/guards.go:151-172 | The give-up guard allows again once the newest completion is older than its window |
| `Sink.DeadlineLiesAhead` | internal/engine/sink.go:428-435 | Exactly the approval-mode records that may run are created with a deadline, and it lies ahead; give-up records are created with no steps, no retries and live |
| `Replay.Load` | internal/engine/history.go:37-86 | Loading into an empty history leaves exactly what the records replay from the retention cutoff on |
| `Replay.LoadOne` | internal/engine/history.go:54-73 | A give-up record adds nothing; any other adds one start, at its start time or at its creation if it has none, and its completion if it is terminal with a target and a completion time |
| `Reload.LoadedCounts` | internal/engine/history.go:37-98 | After a load, the starts and completions counted since any instant remembered are those of the stored records that began (or were created, if they never began) and ended at or after it, give-up records aside |
| `Reload.LoadedGuardsAllowIff` | internal/engine/history.go:37-98 | What the guards allow after a load, by the stored records' own times: nothing ended on the target within the cooldown, fewer than the limit began within the hour, fewer than the count ended within the give-up window |
| `Retention.SweepIsInvisibleIff` | internal/engine/sweeper.go:160-230 | Deleting finished records that completed at or before a floor changes no guard decision after any later restart, for any records, target and time, if and only if the cooldown is at most, and the other windows shorter than, the depth of the floor |
| `Retention.SweepSparesEveryStrategy` | internal/engine/sweeper.go:207-230 | The floor the sweeper computes is deep enough for every strategy it saw and for any whose windows are lengthened within the two-hour margin |
| `Retention.LongestWindowIsAWindow` | internal/engine/sweeper.go:207-230 | The longest window is one that some strategy has, or zero |
| `Sweeper.Sweeper.GuardFloor` | internal/engine/sweeper.go:207-230 | The loop computes now minus the longest window and the margin |
| `Sweeper.Sweeper.Candidates` | internal/engine/sweeper.go:160-201 | The candidates are exactly the finished records past an age or count limit that the floor lets go |
| `Sweeper.CandidatesRespectTheFloor` | internal/engine/sweeper.go:160-201 | A candidate is a finished listed record that completed at or before the floor |
| `Sweeper.NewestAreKept` | internal/engine/sweeper.go:160-201 | A record deleted only for being too many has keepPerStrategy others of its strategy at least as new before it |
| `Sweeper.CandidatesAreTheOldest` | internal/engine/sweeper.go:160-201 | With a candidate, every finished record of its strategy that completed before it is one |
| `SweepRule.TakenWhenDue` | internal/engine/sweeper.go:160-201 | A finished record at or before the floor is taken if it finished longer ago than the age limit, or if at least the kept number of its strategy finished strictly later |
| `SweepRule.TakenOnlyWhenDue` | internal/engine/sweeper.go:160-201 | What is taken is finished, at or before the floor, and past the age limit or with at least the kept number of others of its strategy that finished no earlier |
| `SweepRule.TakenIff` | internal/engine/sweeper.go:160-201 | Where no other record of the strategy finished at the same instant the two meet |
| `Sweeper.Sweeper.Sweep` | internal/engine/sweeper.go:107-154 | For every sequence of replies: a sweep deletes candidates only, and stops with an error at the first delete refused, or when 200 were deleted, or at the end, having taken them all |
| `Sweeper.SweepThenRestart` | internal/engine/sweeper.go:107-230 | A sweep, a restart and a replay: every later decision of every strategy, and the refusing guard, is what it would have been without the sweep |
| `Pruner.Prune` | internal/engine/controller.go:282-329 | The count limit deletes the surplus finished records of one strategy, newest created first, until a delete is refused, and all of them if none is |
| `Pruner.PruneSparesTheNewest` | internal/engine/controller.go:282-329 | What is pruned is finished, of that strategy, not the record that just ended, and everything created before it is pruned too |
| `Pruner.SurplusIff` | internal/engine/controller.go:282-329 | A finished record of the strategy is pruned if and only if it is not the one that just ended and at least the limit less one others were made later, or at once with a greater name; a limit of zero or less is 200 |
| `Pruner.SurplusIsNewestFirst` | internal/engine/controller.go:314-327 | They are deleted newest first, so what a refusal leaves is the oldest |
| `Pruner.PruneOrderIsTotal` | internal/engine/controller.go:314-322 | With distinct names the pruning order does not depend on the listing order |
| `Pruner.PruneGoesUnnoticedIff` | internal/engine/controller.go:282-329 | What the count limit deletes, wherever it stops, changes no later decision of any configuration whose windows fit a depth, on any target, after any restart, if and only if every record deleted is a give-up or completed at or before now minus the depth (and, where the depth covers the hour, started before it) |
| `Deletions.DeletionGoesUnnoticedIff` | internal/engine/history.go:37-86 | The same for any deletion of any records: by the count limit, a sweep or a person |
| `Pruner.PruneIgnoresTheFloor` | internal/engine/controller.go:282-329 | Two records and a limit of one: after pruning, a restart forgets a completion one second old, inside any longer cooldown |
| `Restart.RestartNeverLoosens` | internal/engine/history.go:54-73 | Over every run of creates, status writes with lost replies, sweeps, count limits and other deletions of records out of every window, prunes of the index and earlier restarts, what the replayed history allows the live history it replaces would have allowed too |
| `Restart.RestartKeepsCompletions` | internal/engine/history.go:54-73 | Over the same runs, when no reply was lost, replayed and live completions count the same as far back as any guard looks |
| `Restart.DeliveriesAreEvents` | internal/engine/sink.go:155-184 | What one alert makes is one of the creates those theorems quantify over, with its start recorded exactly when it may execute |
| `Restart.SweepsAreEvents` | internal/engine/sweeper.go:107-154 | What a sweep deletes is one of the sweeps those theorems quantify over |
| `Restart.PrunesAreEvents` | internal/engine/controller.go:282-329 | What the count limit deletes is one of the deletions those theorems quantify over if and only if every record in it is out of every window |
| `Restart.ProtocolStepsAreEvents` | internal/engine/controller.go:231-258 | Every step of the lifecycle protocol is, to the guards, nothing or one status write of the kind those theorems quantify over |
| `Matching.Matches` | internal/matching/matching.go:49-59 | The loop decides whether every matcher equals the label, an absent label reading as empty |
| `Matching.Select` | internal/matching/matching.go:84-90 | The first of the sorted candidates |
| `Matching.SelectedIsBest` | internal/matching/matching.go:64-90 | With distinct names the selected rule matches and every other match has fewer matchers, or as many and a greater name; none is selected exactly when none matches |
| `Matching.SelectionIgnoresOrder` | internal/matching/matching.go:64-90 | Candidates and selection do not depend on the order rules are listed in |
| `Matching.WhyNot` | internal/matching/matching.go:106-135 | The explanation is the first obstacle: disabled, no matchers, or the first mismatch in key order with what was wanted and found; empty exactly when there is none |
| `Matching.ExplanationAgreesIff` | internal/matching/matching.go:106-135 | No explanation implies a match; a match has no explanation if and only if no matcher wants an empty value of a label the alert lacks |
| `Fingerprint.HashedBytes` | internal/alert/alert.go:93-107 | Whatever order the map yields its keys in, the bytes hashed are the encoding of the labels in key order |
| `Fingerprint.RoundTrip` | internal/alert/alert.go:93-107 | A decoder recovers the label map from its encoding |
| `Fingerprint.EncodingIsFaithful` | internal/alert/alert.go:93-107 | Two label maps have the same encoding if and only if they are equal |
| `Drain.Classify` | internal/action/node/drain.go:243-314 | The loop splits the listed pods, sorts both halves by name and applies the limit |
| `Drain.ClassifyLosesNothing` | internal/action/node/drain.go:243-314 | Every pod of the node is on exactly one list as often as it was listed: evictable if it may be evicted, said without the order of the checks, skipped otherwise |
| `Drain.SkippedNamesWhatIsLeft` | internal/action/node/drain.go:243-314 | Each skipped entry names a pod left alone and the first reason that holds of it |
| `Drain.WhyLeft` | internal/action/node/drain.go:259-298 | Why a pod of the node is left alone: the first reason that holds, each exactly when |
| `Drain.OverLimitIff` | internal/action/node/drain.go:300-312 | The limit on pods: none, kept, exceeded or unreadable, each exactly when |
| `Drain.ListsAreByName` | internal/action/node/drain.go:292-298 | Both lists read in the order of the pods' names |
| `Drain.NodeDrain.EvictAll` | internal/action/node/drain.go:182-226 | Over any number of refusal rounds and on every exit: gone and handed-back pods are the input as multisets, among distinct pods none found gone is asked again, there is no error exactly when nothing is left, and an error is explained: the last eviction was forbidden or failed, or every pod handed back was refused in every round |
| `Drain.AskingConserves` | internal/action/node/drain.go:190-212 | One eviction keeps those facts, whatever the reply |
| `Drain.NodeDrain.Execute` | internal/action/node/drain.go:104-146 | A limit exceeded or a cordon refused ends it with that error and nothing touched; otherwise the node is cordoned and the evictable pods, and no others, are asked for, with the result of the eviction and the list of what was skipped |
| `Scale.TargetCount` | internal/action/workload/scale.go:302-362 | The method computes the outcome, in int32 arithmetic that wraps around |
| `Scale.AcceptedStaysWithinTheCeiling` | internal/action/workload/scale.go:330-362 | Read off the outcome: for every int32 input, an accepted relative change is above the current count and at most the ceiling |
| `Scale.RelativeIsExactIff` | internal/action/workload/scale.go:335-361 | The outcome is min(ceiling, current plus the delta or the rounded-up percentage), or a refusal when that is no increase, if and only if nothing wraps, or the ceiling is no increase, or the distance of a wrapped percentage above a multiple of 2^32 still covers what the ceiling needs and overflows nothing further |
| `Scale.PercentIsExactBeyondIff` | internal/action/workload/scale.go:343-361 | For a percentage under a ceiling that is no increase, or further above the current count than a wrapped share can reach: if and only if nothing wraps or the ceiling is no increase |
| `Scale.IncreaseByIsExactIff` | internal/action/workload/scale.go:337-342 | For a delta: if and only if the sum fits or the ceiling is no increase |
| `Scale.OneParameterIsSet` | internal/action/workload/scale.go:307-322 | Nothing set and more than one parameter set are refused, each exactly then |
| `Scale.AbsoluteCount` | internal/action/workload/scale.go:324-330 | An absolute count is taken as it is said, if it is a positive int32 |
| `Scale.IncreaseByCount` | internal/action/workload/scale.go:332-342 | An increase by a count: the refusals of parameters that cannot be read, and min(ceiling, current plus delta) if and only if the sum fits or the ceiling is no increase |
| `Scale.IncreaseByPercent` | internal/action/workload/scale.go:332-361 | An increase by a percentage: the same, with the exact condition |
| `Numbers.ParsePositiveIff` | internal/action/workload/scale.go:364-376 | A positive number is read from nothing but its digits, with or without a plus sign, and is the number they stand for, if it fits |
| `Scale.PercentWrapsAround` | internal/action/workload/scale.go:343-351 | A concrete increase that wraps: 7,100,328 replicas instead of 50,050,000 |
| `Pvc.TargetSize` | internal/action/node/pvc.go:233-277 | For every quantity, negative ones included, and whatever int64 byte count is reported for it, the method computes the outcome, in int64 arithmetic that wraps around and exact quantities |
| `Pvc.AcceptedStaysWithinTheCeiling` | internal/action/node/pvc.go:256-290 | Read off the outcome: whatever wraps, an accepted growth is above the current size and at most the ceiling |
| `Pvc.GrowthIsExactIff` | internal/action/node/pvc.go:266-277 | The outcome is min(ceiling, the growth rounded up to whole mebibytes), or a refusal when that is no increase, if and only if nothing wraps, or the ceiling is no increase, or what the wrapped product leaves beyond a multiple of 2^64 still covers what the ceiling needs and overflows nothing further |
| `Pvc.GrowthIsExactBeyondIff` | internal/action/node/pvc.go:266-277 | Under a ceiling that is no increase, or further above the current size than a wrapped growth can reach: if and only if nothing wraps or the ceiling is no increase |
| `Pvc.AbsoluteSize` | internal/action/node/pvc.go:233-253 | Both or neither parameter is refused, and so is one that cannot be read; an absolute size is taken if it is an increase |
| `Pvc.GrowthByPercent` | internal/action/node/pvc.go:255-277 | A growth by a percentage: the refusals of parameters that cannot be read, and min(ceiling, the grown size in whole mebibytes) with the exact condition |
| `Pvc.GrowthWrapsAround` | internal/action/node/pvc.go:266-277 | A concrete growth that wraps: refused, where the ceiling was meant |
| `DashboardFilter.NamespaceIsTheMiddlePart` | internal/dashboard/filter.go:173-190 | A target of three parts belongs to its middle part, any other to no namespace |
| `DashboardFilter.ApplyFilter` | internal/dashboard/view.go:354-376 | The kept records are those that match, in order; an inactive filter keeps all |
| `DashboardFilter.CountByValue` | internal/dashboard/filter.go:447-464 | The one-pass tally equals, for every value, the scan that counts records which match and carry it |
| `DashboardFilter.Choices` | internal/dashboard/filter.go:393-424 | Each option of a dimension with its link, whether it is in force, and its count |
| `DashboardFilter.CountsAgreeWithLinks` | internal/dashboard/filter.go:330-464 | For every filter, list of records and option not in force, the count beside it is the number of records its link shows, also in the escalation dimension, whose links ask for failures |
| `DashboardFilter.CountInForceAgreesIff` | internal/dashboard/filter.go:393-424 | The count beside the option in force is what the page shows, on every list, if and only if it is not the escalation dimension or the filter also asks for failures |
| `DashboardFilter.LinkInForceLetsGo` | internal/dashboard/filter.go:393-424 | The link of the option in force asks for everything the filter does but that |
| `DashboardFilter.EscalationReads` | internal/dashboard/filter.go:115-130 | An escalation reads none, succeeded or failed, each exactly when |
| `DashboardFilter.BuildOptions` | internal/dashboard/filter.go:264-292 | The offered values are, sorted and without repetition, those some record has (for escalation: some failed record) |
| `DashboardFilter.OfferedOptionsShowSomething` | internal/dashboard/filter.go:264-292 | Without a filter, the link of every option offered shows a record that carries it |
| `DashboardFilter.RowsAddUp` | internal/dashboard/filter.go:330-464 | The counts of a row add up to the records the other clauses keep that have a value there: none is missing, none counted twice |
| `DashboardList.Apply` | internal/dashboard/sort.go:127-174 | The slice is sorted in place by the order in force, and is a permutation of what it was |
| `DashboardList.LessIsOrdered` | internal/dashboard/sort.go:133-173 | In every column and direction the comparison is asymmetric, tells any two names apart, and is negatively transitive |
| `DashboardList.ReadsInOrder` | internal/dashboard/sort.go:127-195 | The list read down: the column's values in the direction asked for, how long each ran from its own times, ties newest first and then by name |
| `DashboardList.OrderIgnoresInput` | internal/dashboard/sort.go:127-174 | With distinct names the sorted list does not depend on the input order |
| `DashboardList.PagesAreTheWholeList` | internal/dashboard/remediations.go:168-174 | The pages one after another are the filtered list |
| `DashboardList.PagingSaysWhatIsDrawn` | internal/dashboard/remediations.go:290-313 | The positions shown are those of the records drawn, and links to neighbours exist exactly where there are neighbours |
| `DashboardList.ClampedIs` | internal/dashboard/remediations.go:285-295 | A page that exists is itself, one before the first is the first, one past the last is the last; there are as many pages of 100 as it takes |
| `DashboardList.BuildLines` | internal/dashboard/remediations.go:216-244 | The nested loops compute the lines |
| `DashboardList.LinesAreThePage` | internal/dashboard/remediations.go:216-256 | Counts add up to the records drawn, each line stands for the next stretch of records that say the same, and grouped lines that follow one another differ |
| `DashboardList.GroupsByTimeOnly` | internal/dashboard/sort.go:111-118 | Records are grouped when the list runs by time, and only then |
| `DashboardList.LinkShowsTheRun` | internal/dashboard/remediations.go:276-283 | The link of a group matches every record of its run |
| `DashboardList.LinkIsExactlyTheRunIff` | internal/dashboard/remediations.go:276-283 | For every filter, order, page and line of the page, with distinct record names: the list the line's link opens is exactly the stretch the line stands for if and only if no listed record outside that stretch, on this page or another, has the line's state and agrees with it on each of strategy, target and alert that the line names |
| `DashboardList.LinkNarrows` | internal/dashboard/remediations.go:276-283 | With distinct names, the list a group's link opens is the list it was on, narrowed in place: same order, same totals |
| `DashboardList.LinkShowsMoreThanTheRun` | internal/dashboard/remediations.go:200-204 | A group of two whose link shows three |
| `DashboardList.UnresolvedTargetShowsEveryTarget` | internal/dashboard/remediations.go:276-283 | A line of one record whose target was never resolved leads to a record that names a target, and reads differently |
| `DashboardList.AdjacentLinesReadDifferentlyIff` | internal/dashboard/remediations.go:246-256 | Records that are not the same fact read the same if and only if one is new, the other pending and the rest equal |
| `DashboardList.BuildRemediations` | internal/dashboard/remediations.go:135-181 | Totals, page, lines and the number collapsed, from the records, the filter, the order and the page number |
| `DashboardList.PageIgnoresListingOrder` | internal/dashboard/remediations.go:135-181 | The page drawn does not depend on the order the cluster lists the records in |
| `Sorting.SortedIsUnique` | internal/engine/controller.go:314-322 | A comparison that tells all elements apart has one sorted result, whatever the sorting algorithm |
| `Sorting.SortedKeys` | internal/dashboard/filter.go:301-308 | The keys of a map in increasing order, whatever order it yields them in |

## Left out

- Reconciler.RemediationReconciler.FinishRecord: applies the count limit to the records as one list call returns them; what others do to those records in between is in `Restart`, not here.
- Restart.RestartNeverLoosens: a deletion by the count limit or by a person is one of its events only when every record in it is out of every window, because otherwise the statement is false (Pruner.PruneIgnoresTheFloor, Deletions.DeletionGoesUnnoticedIff).
- Sink.Sink.ConsumeOne: takes the resolved target and its namespace, whether remediation is paused, the blast-radius verdict and the API server's answer as parameters of the delivery.
- Steps.StepRunner.RunStep: takes an action as a choice of outcomes; what Resolve, Plan, Execute and Verify of each action do is modelled only for draining, scaling and growing.
- Pvc.TargetSize: quantities are parsed and converted to bytes by the API machinery and arrive as values; which byte count it reports for a size beyond int64 is not modelled, so the exactness lemmas speak of sizes that fit.
- Drain.NodeDrain.EvictAll: the time between rounds is a number of rounds before the deadline.
- DashboardFilter.Choices: URLs, labels, the select drawn above eight options and its quick picks are not modelled; links are filters as values.
- DashboardList.BuildRemediations: cells of a row, ages, colours and column headers are not modelled.
- The text of messages, except the remaining wait, which decides whether a wait is written again.
- The cache, watches, leader election, event publishing, metrics and logging.
- The HTTP gateway, JSON decoding, authentication, query strings and templates.
- Hashing of the fingerprint bytes.
- Sub-second timestamps and clock skew between the API server and the operator.
- Rollback, cordon, restart, job, script, webhook and log actions, which are short lookups, and the polling checks that follow an action.
- Who made a decision: the name and note of an approval are not modelled, only the decision.
