# Portikus, verified models

Dafny models of the parts of Portikus where state survives crashes, lost replies, late messages and
concurrent writers, with the properties those parts exist for proved over every input or every run.
`dafny verify dfyconfig.toml` checks everything.

A protocol is a state machine whose steps are the smallest things the source does atomically: one file
write, one database statement, one Incus request, one message. What is proved is proved for every
interleaving of those steps, with every outcome of the outside world (a command, the controller, the
agent, the clock) left free unless a premise says otherwise. Code that changes things in place is also
written as a class whose methods are proved equal to the machine's steps.

| file | part of the system |
|---|---|
| `SettingsTrial.dfy` | the trial of an address or sign-in change: snapshot, apply, keep or put back |
| `ProxyInclude.dfy` | the Squid includes: marker, swap, parse, commit, reload |
| `Lifecycle.dfy`, `Decisions.dfy`, `Operations.dfy`, `SlotQueue.dfy`, `Reconciler.dfy`, `ReconcilerRuns.dfy`, `Sweeps.dfy`, `Convergence.dfy`, `ReachRest.dfy`, `FairRuns.dfy`, `FairStarts.dfy`, `Retries.dfy` | the workspace reconciler |
| `KeepRunning.dfy`, `TimerSweeps.dfy`, `HoldAllowance.dfy`, `IdleWarnings.dfy` | holds, grace and idle timers, the activity throttle |
| `StoredCounter.dfy`, `SecondFactor.dfy` | receipt-based counters |
| `ReplaceHome.dfy` | replacing a home, exactly once |
| `Retention.dfy`, `RebuildWait.dfy` | recovery points: deletion and the rebuild's wait |
| `CountableNames.dfy`, `BlockedNames.dfy`, `DnsQuestion.dfy` | the blocked-name counter and its DNS responder |
| `ZipDirectory.dfy`, `ZipChecks.dfy` | the zip central directory reader and its checks |
| `AgentBoard.dfy`, `CheckRuns.dfy` | the coding-agent board and the check runner's output |
| `Wrappers.dfy`, `Texts.dfy` | `Option`; bytes, lower case, text cut at a separator |

## Where a promise does not hold as written

Each of these has a witness, a reachable state or a lemma for every start of the kind, and the exact
condition under which the promise does hold.

- The comment on settling holds says the grace step skips a held workspace. The grace statement never
  looks at the hold: `LateHoldIsStopped` reaches a stopped one, and `HeldGraceStoppedIff` says what is
  stopped is held exactly when the hold was set between that sweep's deadlines and its grace step.
- An ended hold is said to restart both timers, whether by time or by the student. The grace period gets its
  full length if and only if the worker ended the hold, or the student did with no sweep begun earlier still to
  stamp and none holding a deadline that is over and too early (`FullGraceIff`, witnesses `StudentEndsMidSweep`
  and `StudentEndsLateHold`). The idle time does if and only if no activity write under way at the end carries a
  time before it and no sweep under way began before it (`FullIdleIff`, witnesses `WriteCrossesTheEnd` and
  `StudentEndsMidSweep`).
- The once-a-minute activity write can swallow the answer to a warning. With its own write over, that is so
  if and only if the last claim's write had landed and was less than a minute old as the warning was written
  (`AnswerSwallowedIff`, witness `BackdatedAnswerIsSwallowed`). An answer left to a write still under way is
  lost exactly when that write fails (`LostIffWriteFails`, witness `AnswerLostToFailedWrite`).
- A stop inside a revert of a trial whose hash is recorded is taken for an outside edit by the next recovery.
  `CutRevertIff` says for each stop whether the files still end as they were; `CutRevertKeepsTrialSecrets` is
  a host on which they do not.
- A key snapshot left over by a keep cut short can be put back by the next trial's rollback
  (`CutKeepBringsKeyBack`, for every such keep); `RollbackExactIff` is the exact condition on the leftover.
- A refused include is put back from what could be read of the old one: a link or an oversized file is lost
  (`UnreadableIncludeIsLost`), and nothing else is (`RefusedRunUndoneIff`).
- "Replace home" reports truly in all runs of a start if and only if the start is one of those that
  `TellsTruth` names (`ReportsTrulyIff`). The three ways it does not are `NoHomeIsMisreported`,
  `LateDateIsMisreported` and `DetachedIsMisreported`, each for every start of the kind.
- Retention's single pass deletes more than its stated rule when an older point expires later than a younger
  one (`LateExpiryDeletesMore`); `PassFollowsRuleIff` is the exact condition.
- The board shows the same whatever order posts arrive in over n terminals if and only if n is at most its
  cap (`OrderNeverMattersIff`, witness `PastTheCapOrderMatters` for every cap and every greater n).

## Model

| member | source | states |
|---|---|---|
| SettingsTrial.WholeRunSafe | packaging/site/site_trial.py:182-292 | over every sequence of open, keep, rollback, expire and recover jobs, opening jobs cut short at any file operation included, whenever no trial is open the three settings files are those of the last kept trial or the initial ones |
| SettingsTrial.JobKeepsInv | packaging/site/site_trial.py:236-292 | each job keeps: an open or cut-short trial has the kept files in its snapshot, and no trial means the files are the kept ones |
| SettingsTrial.ForwardSafe | packaging/site/site_trial.py:243-288 | the invariant holds after every single file operation of an opening job, not only at its end |
| SettingsTrial.OpensIff | packaging/site/site_trial.py:236-292 | with no trial before, an opening job ends with its trial open and the planned files in force if and only if everything it needs goes well; otherwise with no trial and the files as they were |
| SettingsTrial.KeepOrRollback | packaging/site/site_trial.py:368-393 | a keep or a rollback ends the open trial it names, with its files or with the kept ones, and changes nothing otherwise |
| SettingsTrial.OneTrialAtATime | packaging/site/site_trial.py:243-244 | a request while a trial record exists changes nothing |
| SettingsTrial.KeptIsFinal | packaging/site/site_trial.py:368-405 | after a keep, and any later jobs, that trial's expiry or rollback does nothing at all |
| SettingsTrial.RecoveryAfterCut | packaging/site/site_trial.py:204-234 | an opening job cut at any step, then one completed recovery: all three files are as before it, or it left the open trial with this request's deadline more than five seconds ahead |
| SettingsTrial.DeadlineDecides | packaging/site/site_trial.py:215-234 | an expiry of the trial's own, or a recovery that finds the lock free, leaves the kept files and no trial exactly when it was cut short or its deadline is at most five seconds ahead; otherwise, and for another trial's expiry, nothing is touched |
| SettingsTrial.OpenTrialEndsIff | packaging/site/site_trial.py:219-223 | an open trial with deadline e is ended by then if and only if e is no later than now plus five |
| SettingsTrial.OutsideEditRespected | packaging/site/site_trial.py:187-202 | once the hash is recorded and portikus.yaml changed from outside, no job writes any settings file |
| SettingsTrial.CutRevertIff | packaging/site/site_trial.py:182-193 | for a stop after n writes of a revert, the next recovery ends with the kept files exactly when n is 0, the answers needed no change, or the secrets and the key were each written or needed none |
| SettingsTrial.CutRevertKeepsTrialSecrets | packaging/site/site_trial.py:187-188 | a host on which a stop after the first write leaves the trial's secrets beside the earlier answers |
| SettingsTrial.RollbackExactIff | packaging/site/site_trial.py:126-147 | from any leftover state directory, a trial rolled back restores every file if and only if it carries a key or the leftover key marks agree with the key file |
| SettingsTrial.CutKeepBringsKeyBack | packaging/site/site_trial.py:154-156 | whenever a kept trial replaced the key and its keep is cut after the trial record went and before the old key did, the next keyless trial rolled back puts the replaced key back |
| SettingsTrial.TrialRunner.Open | packaging/site/site_trial.py:236-292 | the opening job performs exactly the specified file operations in order, whatever fails outside, and its outcome follows |
| SettingsTrial.TrialRunner.Revert | packaging/site/site_trial.py:182-202 | a revert performs the restore and the forget, or only the forget for a superseded trial |
| SettingsTrial.TrialRunner.Restore | packaging/site/site_trial.py:126-147 | the restore's writes and removals, the key marks included |
| SettingsTrial.TrialRunner.Keep | packaging/site/site_trial.py:368-380 | a keep of the open trial forgets it; anything else is refused and touches nothing |
| SettingsTrial.TrialRunner.Rollback | packaging/site/site_trial.py:382-392 | a rollback of the open trial reverts it; anything else is refused and touches nothing |
| SettingsTrial.TrialRunner.Expire | packaging/site/site_trial.py:394-405 | an expiry acts only on its own trial, and only when cut short or overdue |
| SettingsTrial.TrialRunner.Recover | packaging/site/site_trial.py:225-234 | a recovery acts only with the lock free and a trial on record |
| ProxyInclude.EveryStopIsMarked | packaging/site/site_proxy.py:86-122 | over every sequence of jobs, each stopped after any number of file operations, an include that differs from what Squid loaded has the reload-pending marker |
| ProxyInclude.ApplySafe | packaging/site/site_proxy.py:86-122 | the marker rule holds after every operation of a run, and a run that is applied ends with the new include loaded, the page file committed and no marker |
| ProxyInclude.UnparsedIsNeverLoaded | packaging/site/site_proxy.py:97-101 | a new include that Squid does not parse is refused and undone, and at no moment of the run has Squid read it |
| ProxyInclude.FailedCommitIsUndone | packaging/site/site_proxy.py:102-108 | a page file that cannot be written undoes the run as well |
| ProxyInclude.FailedReloadStaysMarked | packaging/site/site_proxy.py:109-115 | a failed reload leaves everything written and the marker set |
| ProxyInclude.GoodRunIsApplied | packaging/site/site_proxy.py:78-118 | with nothing in the way the run is applied, reporting whether the include changed |
| ProxyInclude.RefusedRunUndone | packaging/site/site_proxy.py:99-115 | a rejected or failed-commit run ends with the whole disk as it was: include, page file and marker |
| ProxyInclude.RefusedRunUndoneIff | packaging/site/site_proxy.py:75-79 | for every include, such a run restores the disk if and only if the old include was no link and no oversized file |
| ProxyInclude.UnreadableIncludeIsLost | packaging/site/site_proxy.py:75-79 | after it there is no include where a link or an oversized file was, and nothing else differs |
| ProxyInclude.BlockedRunOnlyMarks | packaging/site/site_proxy.py:97-101 | a directory in the include's place stops the run at the rename: only the marker has changed |
| ProxyInclude.SyncPutsPagesInForce | packaging/site/site_proxy.py:173-180 | after any history of stopped jobs, a sync that succeeds ends with both includes equal to the rendering of the page files, loaded, and the marker gone |
| ProxyInclude.GoodSyncPutsPagesInForce | packaging/site/site_proxy.py:164-171 | after any history of stopped jobs a sync whose parses and reloads go well puts both pages in force |
| ProxyInclude.SyncInForceIsIdle | packaging/site/site_proxy.py:173-180 | with both pages in force a sync does no file operation |
| ProxyInclude.HostsChangeStaysInForce | packaging/site/site_proxy.py:182-192 | an applied hosts change leaves both pages in force, with the new hosts stored |
| ProxyInclude.PlatformsChangeStaysInForce | packaging/site/site_proxy.py:184-226 | the same for an accepted change of the platforms; one that is not accepted changes nothing |
| ProxyInclude.RenderAdminCanonical | packaging/site/site_proxy.py:30-42 | host lists with the same hosts up to case, order and repeats render alike |
| ProxyInclude.AllowsExactly | packaging/site/site_proxy.py:30-39 | an include, read line by line and word by word, lets clients connect to exactly the hosts it was rendered from, on port 443 alone; with no host it has no rule |
| ProxyInclude.AdminAllowsExactly | packaging/site/site_proxy.py:42-43 | the page's include allows exactly its hosts in lower case |
| ProxyInclude.LtiAllowsExactly | packaging/site/site_proxy.py:46-56 | the platforms' include allows exactly each platform's keyset host and, where present, its token host |
| ProxyInclude.PagesInForceAllowExactly | packaging/site/site_proxy.py:30-56 | with the pages in force Squid allows exactly the two pages' hosts on port 443 |
| ProxyInclude.ProxyJobs.ApplyInclude | packaging/site/site_proxy.py:86-122 | the run performs exactly the specified operations and reports the specified outcome |
| ProxyInclude.ProxyJobs.Sync | packaging/site/site_proxy.py:173-180 | the second include is applied only after the first succeeded |
| ProxyInclude.ProxyJobs.SetHosts | packaging/site/site_proxy.py:182-192 | the hosts job is an include run that commits the page file |
| ProxyInclude.ProxyJobs.SetPlatforms | packaging/site/site_proxy.py:194-233 | refused by a clash with the operator's platforms or a failed check before the folder is touched; otherwise the include run's outcome, then the API restart's; the check file is gone |
| SlotQueue.SlotsAreSound | apps/worker/src/lifecycle.ts:446-467 | over every run at most six calls hold slots, a waiter means all six are taken, no slot is lost, and grants are the arrivals in order |
| SlotQueue.WaiterAdvances | apps/worker/src/lifecycle.ts:453-467 | each end of a holder moves every waiter one place on, the first into a slot |
| SlotQueue.SlotPool.Acquire | apps/worker/src/lifecycle.ts:453-459 | a call runs at once exactly when a slot is free, and is queued last otherwise |
| SlotQueue.SlotPool.Release | apps/worker/src/lifecycle.ts:461-466 | the slot goes straight to the first waiter, or the count falls |
| Lifecycle.ResolveAgrees | apps/worker/src/reconcile-drift.ts:101-130 | resolving from a true list never moves a row that already agrees, and what it settles agrees |
| Lifecycle.ResolveFollowsList | apps/worker/src/reconcile-drift.ts:31-283 | whatever a row still in the state it was read in said, it says what the list says: up ends as running, down as stopped or, from starting, as an error, none as an error for the missing instance |
| Lifecycle.ErroredIsStoppedIff | apps/worker/src/reconcile-drift.ts:157-185 | an errored row is stopped exactly when its instance is up, a stop is wanted now and as read, and the last one did not fail |
| Lifecycle.ResolveTouches | apps/worker/src/reconcile-drift.ts:66-283 | a row that moved since the read is left alone; one that is moved is stamped, with the error, retries and wish it then has |
| Decisions.OneStageWants | apps/worker/src/reconcile.ts:243-560 | of a sweep's stages, timers apart, at most one wants a row, and exactly when it is named and its state, wish, archive mark, pending operation, retries and waits are that stage's |
| Decisions.SuccessIsRecorded | apps/worker/src/lifecycle.ts:240-694 | what a call that succeeded leaves on the row: state, retries, wish, pending operation and error |
| Decisions.FailureIsRecorded | apps/worker/src/lifecycle.ts:240-694 | what a failed one leaves: an error of its kind, with a full pool waiting for room and an untouched home or an unfinished import leaving the state |
| Decisions.LateRecordIsNone | apps/worker/src/lifecycle.ts:57-75 | a row that has left its call's state is not written to |
| Operations.OperationIsCarriedOut | apps/worker/src/reconcile.ts:349-374 | wherever a workspace with a pending operation rests, a run stops it where it runs and carries the operation out, and each outcome leaves the state and the pending mark it should |
| Operations.TimedStopIsCarriedOut | apps/worker/src/reconcile.ts:376-456 | a workspace whose time is up can be stopped and its stop recorded, a restart under way kept as a start |
| ReconcilerRuns.RunKeepsInv | apps/worker/src/lifecycle.ts:446-518 | every interleaving of sweep steps, calls taking effect, recording and leaving, and API writes keeps the invariant: a row with no call agrees with its instance, and every call, slot and list entry fits its row |
| ReconcilerRuns.NoFalseDrift | apps/worker/src/reconcile-drift.ts:354-397 | after any run, no step of a list refresh moves a running or stopped row, although the list was read instance by instance while calls went on |
| ReconcilerRuns.RestingRowsAgree | apps/worker/src/reconcile-drift.ts:287-305 | in every reachable state a named row without a call agrees with its instance |
| ReconcilerRuns.OneCallPerWorkspace | apps/worker/src/lifecycle.ts:480-493 | the throw in track is never reached, no workspace the sweep is still to act on or to hand a stop has a call, at most six capped calls work at once, and a queued call means six are working |
| ReconcilerRuns.FreshWorkerInv | apps/worker/src/reconcile.ts:62-64 | a worker with nothing in flight over agreeing rows satisfies the invariant |
| Sweeps.StepIsRun | apps/worker/src/reconcile.ts:272-347 | starting, stopping, retrying and resolving all rows a step read is a run of the machine, selection, then act and hand-over for each row; rows and calls are the fold's and track never throws |
| Sweeps.StepTouchesExactly | apps/worker/src/reconcile.ts:272-319 | a sweep step changes each row it read exactly once, starts a call exactly where its compare-and-set holds, and touches nothing else |
| Sweeps.ListIsRead | apps/worker/src/reconcile-drift.ts:354-397 | between its stages a sweep may ask for the list, which sees every instance, and then has before it the tracked rows that have no call, as they stand |
| Sweeps.Worker.StartAll | apps/worker/src/reconcile.ts:272-319 | the start and retry loop, refused compare-and-sets included, equals that fold, with one transition for each row moved |
| Sweeps.Worker.StopExplicit | apps/worker/src/reconcile.ts:322-347 | the same for explicit stops |
| Sweeps.Worker.RefreshFromList | apps/worker/src/reconcile-drift.ts:336-401 | a refresh happens exactly when due and answered; then every row is resolved as read against how it stands, with one transition for each row whose state moves; otherwise nothing changes |
| Sweeps.RefreshRepairsDrift | apps/worker/src/reconcile-drift.ts:354-397 | drift is repaired by one refresh: every unchanged row whose instance is up, down or gone says afterwards what the list says, and none is left starting or waiting for a stop that is over |
| Sweeps.MovesCountsMovedRows | apps/worker/src/reconcile.ts:308-370 | the transitions a step counts are the rows it leaves in another state, each once |
| Convergence.Converges | apps/worker/src/reconcile.ts:272-347 | in every benign run, however interleaved with other rows, a row's situation changes at most its rank, never more than 39 times |
| Convergence.NeverStuck | apps/worker/src/lifecycle.ts:336-440 | until the row is as desired some step lowers its rank, unless it waits behind six working calls |
| FairRuns.EveryFairRunRests | apps/worker/src/reconcile.ts:243-347 | every endless benign run in which rows that would be selected are, stops begun are handed on and calls that can go on do, brings the row to stopped or running as it wanted, "restarting" to running, in at most 39 changes of its own, after which nothing moves it |
| FairRuns.QueueNearer | apps/worker/src/lifecycle.ts:453-467 | in every such run a call waiting for a slot gets it |
| FairStarts.FairRunFromAnywhere | apps/worker/src/lifecycle.ts:446-518 | such a run exists from every state that keeps the invariant and for every calm row in it, at rest or not: a sweep under way ends, the row comes to rest, every other call ends |
| ReachRest.ReachesRest | apps/worker/src/reconcile.ts:243-347 | every calm row, wherever its create, start or stop stands and whoever is ahead of it for a slot, has a benign run to where it wants to be |
| ReachRest.QueueMoves | apps/worker/src/lifecycle.ts:453-467 | while it waits, the end of any holder, even a failed one, moves it up a place or into a slot |
| Convergence.StaysAtRest | apps/worker/src/reconcile.ts:322-347 | once as desired, no benign run moves the row |
| Convergence.RankZeroIffAtRest | apps/worker/src/lifecycle.ts:528-597 | rank zero is exactly: as desired, nothing in flight |
| Retries.RetriesAreBounded | apps/worker/src/reconcile.ts:471-500 | over every run of the machine with clocks that never run back, each sweep acting with the one time it read and every call recording with its own, with no API write to the row and no successful start of it: at most five automatic retries, and by the n-th the first n waits have passed |
| Retries.EachRetryWaits | apps/worker/src/start-backoff.ts:8-14 | at any point of such a run a step that starts the row again is a sweep's, with retries left and the wait over |
| Retries.ExhaustedRowRests | apps/worker/src/reconcile.ts:471-505 | with the retries used up, no sweep, list refresh or call in any run changes the row until the API writes to it |
| Retries.FiveRetriesTakeTime | apps/worker/src/start-backoff.ts:8-9 | in every such run the fifth retry comes at least 520 seconds after the first failure |
| KeepRunning.SettledHoldsLieWithin | apps/worker/src/reconcile.ts:73-141 | in every run, from settling to the end of a sweep, any hold lies ahead of the sweep's time and at most that sweep's cap beyond it, unless the API has set it since the cut |
| KeepRunning.HeldNeverIdleStopped | apps/worker/src/reconcile.ts:411-450 | no idle step of any run stops a held workspace |
| KeepRunning.HeldGraceStoppedIff | apps/worker/src/reconcile.ts:376-399 | in any run, what the grace step stops is held if and only if a step between that sweep's deadlines and its grace step set the hold, still standing |
| KeepRunning.LateHoldIsStopped | apps/worker/src/reconcile.ts:226-239 | a reachable state in which that happens |
| TimerSweeps.SweepDecides | apps/worker/src/reconcile.ts:73-450 | one whole sweep in numbers: a row is stopped exactly when nobody was connected for the grace period or the warning's five minutes are over, warned exactly when idle long enough and unwarned, and neither while a hold outlasts the sweep |
| TimerSweeps.SweepIsThat | apps/worker/src/reconcile.ts:604-631 | the run of the machine that makes the sweep's statements one after another ends with that row |
| TimerSweeps.SettleInNumbers | apps/worker/src/reconcile.ts:73-141 | the hold, activity, disconnection and warning that settling leaves |
| TimerSweeps.GraceInNumbers | apps/worker/src/reconcile.ts:178-399 | the grace step stops exactly after a whole grace period with nobody connected and no hold |
| TimerSweeps.StampsInNumbers | apps/worker/src/reconcile.ts:178-240 | the stamp and deadline a sweep leaves on a running row, none while someone is connected |
| TimerSweeps.BusyIsNotStopped | apps/worker/src/reconcile.ts:376-437 | with a call in flight nothing is stopped |
| TimerSweeps.HoldInNumbers | apps/api/src/routes/workspaces.ts:160-232 | a hold is set exactly when allowed and at most the cap and five minutes ahead, cut to the cap |
| TimerSweeps.UnholdInNumbers | apps/api/src/routes/workspaces.ts:234-258 | ending a running hold starts both timers again now; any other end changes nothing |
| TimerSweeps.ActivityInNumbers | apps/api/src/activity.ts:17-41 | activity is written unless some was claimed within the last minute, and a failed write frees the claim |
| HoldAllowance.FullGraceIff | apps/worker/src/reconcile.ts:120-132 | after a hold has ended at u, by time, by a cap of 0 or by the student, no run stops the row at the grace step before u plus the grace period, until another hold is set, if and only if the end was not the student's while a sweep begun earlier had yet to stamp, or held a deadline over and too early |
| HoldAllowance.FullIdleIff | apps/worker/src/reconcile.ts:120-132 | all runs from there leave the idle time and the five minutes of its warning in full if and only if no activity write under way carries a time before u and no sweep under way began before u |
| HoldAllowance.WriteCrossesTheEnd | apps/api/src/activity.ts:29-35 | a reachable state in which such a write is under way as a hold expires |
| HoldAllowance.StudentEndsMidSweep | apps/api/src/routes/workspaces.ts:234-258 | a reachable state in which the student ends a hold half a second into a sweep, and neither timer is sure of its full time |
| HoldAllowance.StudentEndsLateHold | apps/worker/src/reconcile.ts:212-239 | a reachable state in which a hold set after a sweep's deadlines and ended before its grace step leaves the old deadline in hand |
| IdleWarnings.IdleStopWasWarned | apps/worker/src/reconcile.ts:418-450 | every idle stop has a warning at least five minutes earlier that stood unchanged ever since, written when the whole idle time had passed |
| IdleWarnings.AnswerSwallowedIff | apps/api/src/activity.ts:26-35 | for every warning, an answer to it can be swallowed with its write over if and only if, as it was written, the last claim's write had landed and was less than a minute old |
| IdleWarnings.SwallowedSinceWarning | apps/api/src/activity.ts:26-28 | in a run, a swallowed answer means its warning was written so |
| IdleWarnings.AnswerIsNotSwallowed | apps/api/src/activity.ts:26-40 | a warning written while the record is no older than the last landed claim never has an answer swallowed, whatever happened before or since |
| IdleWarnings.RecordKeepsUp | apps/api/src/activity.ts:29-35 | while no step has moved the record back it is no older than that claim |
| IdleWarnings.LostIffWriteFails | apps/api/src/activity.ts:36-39 | the warning outlives the write an answer was left to exactly when that write fails; one that lands clears it |
| IdleWarnings.LostToAFailure | apps/api/src/activity.ts:36-39 | over a run, an answer whose write is over while the warning stands was lost to that write's failure |
| IdleWarnings.AnswerLostToFailedWrite | apps/api/src/activity.ts:26-40 | a reachable state and a run in which a second answer is lost so and the idle step stops the workspace |
| IdleWarnings.BackdatesOnlyWhen | apps/worker/src/reconcile.ts:84-90 | exactly which steps move recorded activity back |
| IdleWarnings.BackdatedAnswerIsSwallowed | apps/worker/src/reconcile.ts:84-90 | a reachable state in which an answer is swallowed after its write had landed |
| KeepRunning.Row.SettleKeepRunning | apps/worker/src/reconcile.ts:73-141 | with nothing in between, every hold left lies in (now, now + cap], and an ended one restarts both timers from its end |
| KeepRunning.Row.TrackDisconnections | apps/worker/src/reconcile.ts:178-240 | a running row ends with a deadline exactly when disconnected, not held and with a grace period, and it is the stamp plus that period |
| KeepRunning.Row.StopIdle | apps/worker/src/reconcile.ts:411-450 | nothing is stopped by a warning written in the same call, nor while held or turned off |
| KeepRunning.Activity.RecordActivity | apps/api/src/activity.ts:17-41 | one write per interval; a failed write gives the claim up and leaves the row |
| StoredCounter.CountIsConserved | apps/api/src/stored-counter.ts:70-141 | under any interleaving of hits, give-backs, reports and prunes, their replies lost or not, a window's count is its hits less those returned, so at least its unspent receipts |
| StoredCounter.AllowedIff | apps/api/src/stored-counter.ts:70-121 | in any run a try that asks is allowed if and only if fewer than the limit weigh on its window, which lasts a window's length from its first hit |
| StoredCounter.AuditedIffReported | apps/api/src/stored-counter.ts:93-100 | with replies heard, a live window has been audited if and only if a refused try of it has reported |
| StoredCounter.WindowLimit | apps/api/src/stored-counter.ts:106-121 | no window ever has more unreturned allowed tries than the limit |
| StoredCounter.RollingLimit | apps/api/src/stored-counter.ts:70-91 | no rolling interval of one window's length has more than twice the limit |
| StoredCounter.TwoWindows | apps/api/src/stored-counter.ts:79-87 | tries in such an interval fall into at most two windows |
| StoredCounter.AuditOncePerWindow | apps/api/src/stored-counter.ts:93-100 | at most one caller per window is told to audit |
| StoredCounter.CounterFollowsSteps | apps/api/src/stored-counter.ts:70-161 | hit, report, give-back and prune leave the row the machine's steps leave, and report and give-back no other key's |
| StoredCounter.Counter.Attempt | apps/api/src/stored-counter.ts:104-122 | one hit, a receipt exactly when the count is within the limit, an audit only for the first refusal |
| StoredCounter.Counter.GiveBackReceipt | apps/api/src/stored-counter.ts:130-141 | a receipt of this counter returns its count once, and only to its own window |
| StoredCounter.Counter.PruneEnded | apps/api/src/stored-counter.ts:152-161 | only ended windows go |
| SecondFactor.DayRefusalCostsNothing | apps/api/src/second-factor-throttle.ts:64-76 | under any interleaving, a try the day refused leaves the ten-minute count as the other tries alone make it, while that window lasts |
| SecondFactor.BothLimitsHold | apps/api/src/second-factor-throttle.ts:15-18 | never more than ten unreturned in a ten-minute window or thirty in a day |
| SecondFactor.GoesOnIff | apps/api/src/second-factor-throttle.ts:64-68 | a try goes on to the day exactly when fewer than ten weigh on its ten minutes |
| SecondFactor.AllowedItsCheckIff | apps/api/src/second-factor-throttle.ts:69-78 | and to its check exactly when fewer than thirty weigh on its day |
| SecondFactor.RightCodeGivesBoth | apps/api/src/second-factor-throttle.ts:84-87 | a give-back lowers both counts by one while their windows last, and only once |
| SecondFactor.SecondFactorCounts.Attempt | apps/api/src/second-factor-throttle.ts:64-79 | allowed means one more on both counts within both limits; a daily refusal leaves the short count as it was |
| ReplaceHome.ReportsTrulyIff | apps/worker/src/backups.ts:632-723 | for every start: in all runs "replaced" is reported only after exactly one swap and "unchanged" only after none, if and only if the volumes and dates are as TellsTruth names them |
| ReplaceHome.ExactlyOnce | apps/worker/src/backups.ts:632-723 | from a sound start, in every run with lost replies, timeouts and restarts: at most one swap and one import request; "replaced" means one swap, the import attached as home, and names the volume with the old home; "unchanged" means none, for good; the old home is never lost |
| ReplaceHome.TurnDecides | apps/worker/src/backups.ts:632-681 | one turn: the restore request gone or the import failed ends it untouched, a pending or claimed import leaves everything, none asked for asks for one, a finished one leads to the call |
| ReplaceHome.AnswerDecides | apps/worker/src/backups.ts:683-706 | a kept home ends it as replaced, an error but "not found" as touched, a timeout or an unreachable Incus leaves it open, "not found" leads to the listing |
| ReplaceHome.ListingEnds | apps/worker/src/backups.ts:692-723 | a listing ends it with the newest kept home dated at or after the operation began, and untouched exactly when there is none |
| ReplaceHome.HopelessEndsAtNextTurn | apps/worker/src/backups.ts:632-681 | from any moment of any run at which the import has failed or the restore request is gone, the first turn after it, and nothing before, ends the operation untouched for good |
| ReplaceHome.ReportIsFinal | apps/worker/src/backups.ts:590-631 | from any start, what was reported is never changed |
| ReplaceHome.HalfDoneSwapIsFinished | apps/workspace-controller/src/kept-volumes.ts:107-181 | from every reachable half-done state one undisturbed turn taken there, a call of at most six requests and at most one listing, ends as replaced |
| ReplaceHome.RequestKeepsCoherent | apps/workspace-controller/src/kept-volumes.ts:120-176 | each request of the swap leads from one of the known standings of the volumes to another |
| ReplaceHome.NewestIsMine | apps/worker/src/backups.ts:710-723 | with earlier homes dated before, the newest kept home is the one this operation made |
| ReplaceHome.NoHomeIsMisreported | apps/workspace-controller/src/kept-volumes.ts:147-158 | every start without a home volume has a run that swaps and reports unchanged |
| ReplaceHome.LateDateIsMisreported | apps/worker/src/backups.ts:694-706 | every start with an earlier home dated into the operation and no import has a run that reports replaced with no swap |
| ReplaceHome.DetachedIsMisreported | apps/workspace-controller/src/kept-volumes.ts:129-178 | every start with the home detached, no import and any earlier kept home has a run that names that one as the result of no swap |
| ReplaceHome.AttemptIsARun | apps/workspace-controller/src/kept-volumes.ts:112-181 | a whole call of the swap, cut anywhere, is a run of the machine with the same volumes and reply |
| ReplaceHome.Controller.ReplaceHome | apps/workspace-controller/src/kept-volumes.ts:112-181 | the call's requests in order equal that attempt for every fate of every request |
| ReplaceHome.NewestKeptHome | apps/workspace-controller/src/kept-volumes.ts:183-204 | the pass over the listing finds the newest home at or after a date, or that there is none |
| ReplaceHome.Operation.RunReplaceHome | apps/worker/src/backups.ts:561-707 | one turn of the worker is the machine's turn, then its receipt and listing |
| Retention.PassFollowsRule | apps/worker/src/recovery.ts:261-316 | when expiry follows creation the single pass deletes, in order, exactly all expired points and then the oldest until at or below 75% |
| Retention.PassFollowsRuleIff | apps/worker/src/recovery.ts:292-296 | for any dates, it keeps the same points as the rule if and only if the total is no longer over once everything before the rule's first kept point is gone |
| Retention.PassKeepsNoMore | apps/worker/src/recovery.ts:292-314 | for any dates, it never keeps a point the rule deletes |
| Retention.LateExpiryDeletesMore | apps/worker/src/recovery.ts:294-296 | dates for which it deletes more |
| Retention.NewestSurvive | apps/worker/src/recovery.ts:285-293 | no project's newest point is ever deleted |
| Retention.SparedIffNewest | apps/worker/src/recovery.ts:285-286 | the map spares exactly the last point of every project |
| Retention.CompletedPassIsEnough | apps/worker/src/recovery.ts:288-316 | a completed pass ends at or below the target or with only newest points left |
| Retention.PassDeletesIff | apps/worker/src/recovery.ts:282-310 | a point is deleted if and only if it has expired or is met with more than 75 per cent of the allowance in use after the deletions before it |
| Retention.EveryExpiredGoes | apps/worker/src/recovery.ts:285-287 | every expired point goes but a project's newest |
| Retention.KeptAndDeleted | apps/worker/src/recovery.ts:288-313 | sizes deleted and kept add up to the whole |
| Retention.Allocated | apps/worker/src/recovery.ts:383-385 | the size rounded up to whole blocks, by less than a block |
| Retention.Store.ApplyRetention | apps/worker/src/recovery.ts:261-316 | whatever delete fails, the deleted points are the first of the greedy list, and every recorded archive that still exists has its row |
| Retention.CollectNewest | apps/worker/src/recovery.ts:285-286 | the loop's map, and what it spares |
| RebuildWait.WaitEnds | apps/worker/src/recovery.ts:392-410 | n active projects, n completed sweeps begun since the request: every project has been tried, even if the agent is never reached |
| RebuildWait.SweepMakesProgress | apps/worker/src/recovery.ts:76-118 | each such sweep leaves at least one fewer project untried, whatever the agent does |
| RebuildWait.FirstIsUntried | apps/worker/src/recovery.ts:146-169 | in the query's order the first project is untried whenever any is |
| RebuildWait.NoFewerWillDo | apps/worker/src/recovery.ts:103-117 | with an agent never reached, fewer than n sweeps leave a project untried |
| RebuildWait.SweepOne | apps/worker/src/recovery.ts:94-118 | the loop stamps exactly the projects up to the first that finds the agent unreachable |
| RebuildWait.EveryWorkspaceOnce | apps/worker/src/recovery.ts:126-140 | however the lanes interleave, each running workspace is swept exactly once |
| BlockedNames.EveryNameIsAccounted | apps/worker/src/egress-blocked.ts:111-174 | with successful writes, flushes overlapping or not, for each source of a day not pruned, stored plus buffered counts equal the countable names seen, no name is over-counted, and both caps hold |
| BlockedNames.NeverOverCounted | apps/worker/src/egress-blocked.ts:122-182 | with failed writes, commits whose reply is lost and prunes, the difference is exactly what failed flushes dropped and prunes took, and no name is counted more often than it came |
| BlockedNames.EveryNameIsExact | apps/worker/src/egress-blocked.ts:111-174 | in any run in which no more names were seen than the cap, every name is stored, buffered, dropped or pruned exactly as often as it came, and the overflow bucket is never used |
| BlockedNames.FlushCompletesIff | apps/worker/src/egress-blocked.ts:122-174 | a flush completes if and only if every day of its batch commits, and then the table has counted all of it |
| BlockedNames.MergeConserves | apps/worker/src/egress-blocked.ts:147-159 | folding a day's rows under the cap keeps every sum and the cap |
| CountableNames.CountedAsItself | apps/worker/src/egress-blocked.ts:36-43 | a counted name is name-shaped, no address, not the overflow bucket, and counted as itself |
| CountableNames.CountableIff | apps/worker/src/egress-blocked.ts:36-43 | a name is counted exactly when it has at most 253 characters, name characters between its dots, parts that are not numbers alone, and no reverse lookup's end |
| CountableNames.OneNameHoweverWritten | apps/worker/src/egress-blocked.ts:37-38 | any letter case, any white space around it and one final dot give the same counted name |
| CountableNames.OnlyItsOwnForms | apps/worker/src/egress-blocked.ts:36-43 | whatever is counted under a name is that name in some letter case, with white space around it and at most one final dot |
| BlockedNames.BlockedCounter.CountName | apps/worker/src/egress-blocked.ts:111-120 | the buffer after one name, overflow included |
| BlockedNames.BlockedCounter.Flush | apps/worker/src/egress-blocked.ts:122-174 | the flush writes the days in order until one fails |
| DnsQuestion.QueryRoundTrip | apps/worker/src/egress-blocked.ts:46-65 | every well-formed query is read as its own name, type and end, whatever follows; dot-free labels can be had back from the name |
| DnsQuestion.QuerySound | apps/worker/src/egress-blocked.ts:46-65 | whatever is read is a query header and the encoding of some labels |
| DnsQuestion.ParseQuery | apps/worker/src/egress-blocked.ts:52-64 | the label loop never reads past the message and computes the specified result |
| DnsQuestion.ReplyIsNxdomain | apps/worker/src/egress-blocked.ts:68-78 | the reply keeps ID, opcode, RD and question, sets QR and code 3, clears AA and TC, counts one question and no records, and is itself never answered |
| DnsQuestion.ReplyEchoesQuestion | apps/worker/src/egress-blocked.ts:68-71 | the reply's question section is the asked one |
| DnsQuestion.ChunksDoNotMatter | apps/worker/src/egress-blocked.ts:201-223 | for every cut of a TCP stream into chunks, what is sent, counted, left over and whether the connection is destroyed are as for the whole |
| DnsQuestion.StreamIsAnswered | apps/worker/src/egress-blocked.ts:204-222 | a stream of framed queries is answered by the framed replies in order, and the names asked for an address are counted, once a query |
| DnsQuestion.BadMessageEndsIt | apps/worker/src/egress-blocked.ts:209-216 | the first message that is no query destroys the connection, with the queries before it answered and counted and nothing behind it |
| DnsQuestion.Drained | apps/worker/src/egress-blocked.ts:205-208 | between chunks the buffer is below the size the oversize check looks for |
| DnsQuestion.TcpConnection.OnData | apps/worker/src/egress-blocked.ts:202-223 | the handler's loop equals feeding the chunk |
| ZipDirectory.SuccessTiles | apps/workspace-agent/src/extract.ts:105-179 | for every byte string, success means an end record whose directory runs right up to it and is tiled exactly by the returned records |
| ZipDirectory.ReadsIff | apps/workspace-agent/src/extract.ts:105-179 | a file is read as these entries if and only if the last end record a comment can leave room for is within the limits and its directory runs right up to it as one record for each |
| ZipDirectory.RecordReadsIff | apps/workspace-agent/src/extract.ts:141-172 | what makes a record readable, and where the next one begins |
| ZipDirectory.RefusedAs | apps/workspace-agent/src/extract.ts:118-136 | which error a file without an end record, with zip64 marks, too many entries or sizes that do not fit ends in |
| ZipDirectory.RecordFailsAs | apps/workspace-agent/src/extract.ts:141-157 | which error an unreadable record ends in |
| ZipDirectory.TilesArePieces | apps/workspace-agent/src/extract.ts:135-172 | a tiling cuts the directory into one piece per entry, each a whole record read as that entry, with none left over |
| ZipDirectory.ReadsWhatIsWritten | apps/workspace-agent/src/extract.ts:105-173 | every entry list within the limits, whatever comments and one-named extra fields its records have, is read back, backslashes as slashes |
| ZipDirectory.ExtraReadBack | apps/workspace-agent/src/extract.ts:87-98 | whatever blocks an extra field is written with, a second name is found exactly when a Unicode path block holds another one |
| ZipDirectory.ReadEntriesSay | apps/workspace-agent/src/extract.ts:144-168 | each entry so read has the written size, the written name with slashes for backslashes byte by byte, and is a link exactly for file type S_IFLNK, encrypted exactly for bit 0 of the flags, a folder exactly for a name ending in either slash |
| ZipDirectory.RecordSaysItsBytes | apps/workspace-agent/src/extract.ts:144-168 | in any file, what a record is read as stands in its bytes |
| ZipChecks.WrittenZipPassesIff | apps/workspace-agent/src/extract.ts:182-206 | a written zip, read and checked, passes exactly when no record is a link, encrypted, empty, absolute, with a NUL or a drive letter, or has a part ".." or ".git" in any case between its slashes |
| ZipDirectory.ReadZipEntries | apps/workspace-agent/src/extract.ts:105-179 | the search and the record loop compute the specified result, errors included |
| ZipDirectory.SearchEnd | apps/workspace-agent/src/extract.ts:111-117 | the backward search finds the last signature in the tail |
| ZipDirectory.FindsSecondName | apps/workspace-agent/src/extract.ts:87-98 | the loop over extra blocks finds a differing Unicode path |
| ZipDirectory.SignatureIsNumber | apps/workspace-agent/src/extract.ts:42-43 | comparing a signature byte by byte is comparing its little-endian number |
| ZipChecks.CheckedStaysInside | apps/workspace-agent/src/extract.ts:182-206 | a checked entry stays inside its folder at every part of its path, outside any .git, and is neither link nor encrypted |
| ZipChecks.EscapeIsRefused | apps/workspace-agent/src/extract.ts:182-186 | a name that leaves its folder at any part of its path is refused |
| ZipChecks.PartsAreBetweenSlashes | apps/workspace-agent/src/extract.ts:186-201 | a name's parts are exactly what stands between its slashes |
| ZipChecks.CheckEntries | apps/workspace-agent/src/extract.ts:193-210 | a zip passes if and only if it has at most 10,000 entries, each passes, and the sizes together are at most a gibibyte; otherwise the first entry refused decides |
| AgentBoard.ArrivalOrderDoesNotMatter | apps/workspace-agent/src/coding-agent-status.ts:46-102 | over at most the cap of terminals, every arrival order of the same events, repeats included, shows the same agent and state per terminal |
| AgentBoard.BoardShowsLatest | apps/workspace-agent/src/coding-agent-status.ts:46-84 | that is the post that fired last, and nothing for a removed terminal |
| AgentBoard.AlwaysBounded | apps/workspace-agent/src/coding-agent-status.ts:56-60 | for any input at most the cap of entries and twice the cap of times, each terminal once |
| AgentBoard.OrderNeverMattersIff | apps/workspace-agent/src/coding-agent-status.ts:46-102 | over n terminals the order of arrival never matters if and only if n is at most the cap |
| AgentBoard.PastTheCapOrderMatters | apps/workspace-agent/src/coding-agent-status.ts:56-60 | for every cap and every greater n, two orders with different results |
| AgentBoard.CodingAgentBoard.Set | apps/workspace-agent/src/coding-agent-status.ts:46-68 | the board after a post, and listeners told exactly when what is shown changes |
| AgentBoard.CodingAgentBoard.ClearTerminal | apps/workspace-agent/src/coding-agent-status.ts:71-74 | the same for an ended agent |
| AgentBoard.CodingAgentBoard.RemoveTerminal | apps/workspace-agent/src/coding-agent-status.ts:81-84 | the same for a closed terminal |
| AgentBoard.CodingAgentBoard.Remember | apps/workspace-agent/src/coding-agent-status.ts:93-102 | the times kept after the oldest are dropped |
| CheckRuns.RingIsNewest | apps/workspace-agent/src/checks-route.ts:306-321 | at every moment the kept chunks are the last bytes of all output, up to the limit |
| CheckRuns.WatcherSeesAll | apps/workspace-agent/src/checks-route.ts:236-253 | a socket attached at any moment that does not leave before the run ends is sent exactly the output from the start of what was kept, up to the exit or, attached later, to that moment, then the ending once, and is closed |
| CheckRuns.LeftGetsNothing | apps/workspace-agent/src/checks-route.ts:252-253 | a socket that has left is sent nothing more, and is no watcher once the server has heard |
| CheckRuns.EventKeepsInv | apps/workspace-agent/src/checks-route.ts:170-209 | data before and after the exit, the exit, attach and closing keep that for every socket |
| CheckRuns.EvictionSparesLive | apps/workspace-agent/src/checks-route.ts:294-303 | eviction keeps every live run and just the newest finished ones that fit |
| CheckRuns.NeverEvictedAlive | apps/workspace-agent/src/checks-route.ts:114-146 | over any sequence of starts and ends, a run that has not ended is remembered |
| CheckRuns.LiveIffStarted | apps/workspace-agent/src/checks-route.ts:114-146 | over any sequence of starts and ends the live checks, which refuse another start, are just those started and not ended since |
| CheckRuns.EvictOldFinishedRuns | apps/workspace-agent/src/checks-route.ts:294-303 | the loops compute that eviction |
| CheckRuns.LiveRun.Append | apps/workspace-agent/src/checks-route.ts:306-321 | the loop drops exactly the bytes over the limit |
| CheckRuns.LiveRun.OnData | apps/workspace-agent/src/checks-route.ts:179-188 | appends, ended or not, and sends to every watcher |
| CheckRuns.LiveRun.AttachSocket | apps/workspace-agent/src/checks-route.ts:236-253 | replays, then follows or ends |
| CheckRuns.LiveRun.Finish | apps/workspace-agent/src/checks-route.ts:323-337 | every watcher gets the ending and is closed; none is left |

## Left out

- Everything in `apps/web`, HTTP and WebSocket plumbing, queries and clients, notifications, audit metadata and logs.
- Foreign programs (systemd, debconf, Squid, Dex, Incus, unzip, git): only their outcomes are modelled.
- Hashes and identifiers: a hash is its contents, an identifier a number.
- SettingsTrial.WholeRunSafe: a stop inside `forget` or `revert`, or between the key snapshot and the first trial record, is not a step of these runs; CutRevertIff and RollbackExactIff say what such stops can leave. Debconf answers, timers and status files are not part of the state.
- ProxyInclude.EveryStopIsMarked: assumes that no include is a link or over the size limit; RefusedRunUndoneIff covers those. The temporary file a failed rename leaves is not modelled. The alerts job, which shares the lock, is not modelled.
- ProxyInclude.AllowsExactly: reads an include as the lines it is made of; the rest of Squid's language, its own configuration and hosts with a blank or a line break are not modelled.
- Operations.OperationIsCarriedOut: speaks of states in which a controller slot is free and no sweep is under way.
- ReconcilerRuns.NoFalseDrift: rests on the premise that only the worker's own calls change instances and that a call takes effect before it returns. Worker restarts, timed stops of rows without an instance name, the agent address, tokens and quota columns are not modelled.
- HoldAllowance.FullGraceIff: API statements read the clock as they take effect, except the activity write; the early stop it rules in may take a grace period longer than the settings page allows.
- HoldAllowance.FullIdleIff: idle times and grace periods are any numbers; the bounds the settings page puts on them are not modelled.
- FairRuns.EveryFairRunRests: that the worker's loop and the controller are fair is a premise; the timers between sweeps are not modelled.
- Retries.RetriesAreBounded: a row found running by the list, or started with success, ends the run it speaks of.
- StoredCounter.CountIsConserved: one key; clocks of several API processes are taken as one that never runs back.
- ReplaceHome.ExactlyOnce: a request to Incus that takes effect only after the controller gave it up is not modelled, nor are deletes and name clashes with volumes of other instances.
- Retention.Store.ApplyRetention: points recorded while the pass runs, and orphan archives, are not modelled.
- RebuildWait.WaitEnds: the set of active projects is fixed while the request waits.
- CountableNames.CountableName: lower-cases ASCII letters only, which is all that matters for Latin-1 input; the listeners and sockets are not modelled.
- DnsQuestion.TcpConnection.OnData: connection limits and idle timeouts are not modelled, and the buffer of a destroyed connection is taken as empty.
- ZipDirectory.ReadZipEntries: short reads and read errors of the file handle are not modelled; unzip itself and the walk after extraction are not either.
- AgentBoard: the time shown beside a state is kept but nothing is proved of it.
- CheckRuns: back-pressure and stopping a run are not modelled.
- `limits.ts`, `quota.ts`, `guard.ts`, `site_values.py`, `entryCounter`, `pullRequest` and `acceptReport`: not modelled; the host's part of an import is a free step.
