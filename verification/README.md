# Verified model of the temper chaos operator

temper runs chaos experiments on Kubernetes. Three writers share its objects and talk only
through them: the experiment controller, the schedule controller and the safeguard watcher.
This project models all three, the API server they race on, and the pod-kill scenario, and
proves what every interleaving keeps.

How the model is built:

- A reconcile is a **decision tree over its calls** (`Effects.Prog`). The reconcilers, the watcher
  and the scenario are classes with methods in the source's own shape, and each reconciler
  method is proved to follow its tree whatever its calls reply.
- The **API server is the list of all versions** an object has had. An update is accepted only
  if it was made from the last version (Kubernetes API Conventions, "Concurrency Control and
  Consistency"), and `Update` and `Status().Update` write disjoint halves of the object.
- The **machines** (`ExperimentMachine`, `ScheduleMachine`) run any number of reconciles at once,
  each from any version ever stored, call by call. Calls can be refused, a successful update can
  lose its reply, and a reconcile can crash between any two calls. The watcher and users step in anywhere.
- `Safe` is the bridge: every reconcile tree only ever commits one of a short list of atomic moves, given
  what it did since its read. So every interleaving is a chain of moves, and the theorems are about that chain.
- `ExperimentOutcome` and `ScheduleOutcome` say what a reconcile does do: for every object and every answer the
  calls in order, what is put into them, when it gives up and when it asks to come back.
- Times are in nanoseconds and timestamps are cut to whole seconds when stored (RFC 3339,
  section 5.6). The clock never goes back. A reconcile's clock readings and lookups are
  parameters of its tree; the machine reads the clock only when the answer is the true one, and
  answers a lookup of a run with its state now or at any time before, as a cache may.

Where the documentation and the code differ, the model follows the code. `totalPodsKilled` is
documented as the number of pods deleted (`api/v1alpha1/chaosexperiment_types.go:160`), but the code adds
configured counts, while an injection deletes no more pods than it finds running. `KillsExact` proves that
the total is off by the kills configured but not found running by recorded injections, less the pods deleted
by injections that failed on the way or were never recorded. It is right if and only if these balance; where
every injection that deleted a pod succeeded and was recorded, if and only if each recorded one found at
least its configured count of running pods; and where each did, if and only if every injection that deleted
a pod succeeded and was recorded (`KillsReported`). `OverstatedKills` reports two pods and deletes one,
`UnreportedKill` reports none and deletes one, `RepeatedKill` reports one and deletes two.
`concurrencyPolicy` is documented to default to Forbid (`api/v1alpha1/chaosschedule_types.go:143`), but
nothing reads it. `RunsAtOnce` bounds the experiments going at once by one plus four kinds of strays; for
each kind a lemma of `ScheduleRuns` leads from any suitable state to two at once, and `TwoRunsReached`
does so from the creation of a schedule (`EveryMinute` is one).

Files: `Clock`, `Effects`, `Numbers`, `Wrappers` are shared. `ExperimentApi`, `ExperimentProgram`,
`ExperimentController`, `ExperimentOutcome`, `ExperimentMoves`, `ExperimentMachine` model the experiment side, and
`ExperimentHistory`, `PodAccounting`, `ExperimentRuns`, `FaultWindows`, `MeanRecovery`, `Termination` prove its
properties. `PodKill`, `Safeguards`, `Gate` and `Watcher` model the scenario and the checks. `ScheduleApi`,
`ScheduleProgram`, `Naming`, `ScheduleController`, `ScheduleOutcome`, `ScheduleMachine`, `ScheduleHistory`,
`ScheduleRuns` do the same for schedules. `ChaosSystem` puts a schedule, its experiments and the watcher on one
clock and proves that they fit together, and `SystemRuns` follows a breach from the watcher to the stopped
schedule. `dafny verify dfyconfig.toml` checks everything.

## Model

| member | source | states |
|---|---|---|
| ExperimentController.ChaosExperimentReconciler.Reconcile | internal/controller/chaosexperiment_controller.go:63-141 | for every read, answer and pattern of failing calls, the calls made and the result returned are one execution of the tree the machine interleaves |
| ExperimentController.ChaosExperimentReconciler.ReconcileHalt | internal/controller/chaosexperiment_controller.go:95-128 | halt path: a halted experiment only loses its annotations; otherwise revert, store Halted with the reason, count it, consume the annotations, stopping at the first failure |
| ExperimentController.ChaosExperimentReconciler.StopExperiment | internal/controller/chaosexperiment_controller.go:111-127 | after the revert: Halted is stored before the halt is counted, and counted before the annotations go |
| ExperimentController.ChaosExperimentReconciler.ClearHalt | internal/controller/chaosexperiment_controller.go:98-104 | both annotations go in one metadata update |
| ExperimentController.ChaosExperimentReconciler.RevertIfActiveFault | internal/controller/chaosexperiment_controller.go:143-159 | reverts exactly when a fault is recorded for an existing scenario; an unsupported type is an error without a call |
| ExperimentController.ChaosExperimentReconciler.ReconcilePending | internal/controller/chaosexperiment_controller.go:161-169 | one status update to Running, requeue after a second |
| ExperimentController.ChaosExperimentReconciler.ReconcileRunning | internal/controller/chaosexperiment_controller.go:171-227 | completes past the last scenario, injects when no fault is recorded, else polls or advances by the time left |
| ExperimentController.ChaosExperimentReconciler.InjectScenario | internal/controller/chaosexperiment_controller.go:188-223 | the injection call precedes the status that records it; a failed one records Failed instead |
| ExperimentController.ChaosExperimentReconciler.StampInjection | internal/controller/chaosexperiment_controller.go:199-222 | the recorded time is read after the injection, metrics are created if missing, the configured count is added |
| ExperimentController.ChaosExperimentReconciler.PollRecovery | internal/controller/chaosexperiment_controller.go:229-244 | recovery is probed only after the grace period and only until first seen; requeue by the smaller of 5 s and the time left |
| ExperimentController.ChaosExperimentReconciler.StampRecovery | internal/controller/chaosexperiment_controller.go:235-243 | the recovery time is read after the probe and stored in one status update |
| ExperimentController.ChaosExperimentReconciler.RevertAndAdvance | internal/controller/chaosexperiment_controller.go:246-286 | revert precedes the status that advances; reading the mean without metrics is a panic |
| ExperimentController.ChaosExperimentReconciler.FailExperiment | internal/controller/chaosexperiment_controller.go:289-298 | a single status update to Failed |
| ExperimentController.ChaosExperimentReconciler.ProbeRecovery | internal/controller/chaosexperiment_controller.go:300-319 | recovered exactly when some condition is Available=True; unknown on a read error; never for an unnamed target |
| ExperimentController.Client.UpdateStatus | internal/controller/chaosexperiment_controller.go:164 | writes the status half only, timestamps cut to whole seconds, and may fail |
| ExperimentController.Client.Update | internal/controller/chaosexperiment_controller.go:123 | writes the metadata half only, and may fail |
| ExperimentOutcome.UnreadDoes | internal/controller/chaosexperiment_controller.go:66-72 | a missing object ends quietly, an unreadable one in an error |
| ExperimentOutcome.DeletedDoes | internal/controller/chaosexperiment_controller.go:74-85 | a deleted experiment has its fault reverted, then loses its finalizer; a fault that cannot be reverted keeps it |
| ExperimentOutcome.BareDoes | internal/controller/chaosexperiment_controller.go:87-93 | an experiment without finalizer gets it before anything else, and a second later is looked at again |
| ExperimentOutcome.HaltDoes | internal/controller/chaosexperiment_controller.go:95-128 | a halt request leads, in this order, to revert, Halted with the reason, the count by code and both annotations gone; a halted experiment only loses them |
| ExperimentOutcome.PhasesDo | internal/controller/chaosexperiment_controller.go:130-186 | a pending experiment begins, one past its last scenario completes, one that is over is left alone |
| ExperimentOutcome.InjectionDoes | internal/controller/chaosexperiment_controller.go:188-223 | the configured count or one is injected and added after it; the time is read after it; a failed or unsupported one stores Failed |
| ExperimentOutcome.PollDoes | internal/controller/chaosexperiment_controller.go:225-244 | what is read and stored while a fault lasts and by when it is looked at again, with every way it is not recovered yet |
| ExperimentOutcome.AdvanceDoes | internal/controller/chaosexperiment_controller.go:246-286 | revert precedes the one update that moves on, with the new mean, and the pause asked for |
| ExperimentOutcome.RecoveryRecorded | internal/controller/chaosexperiment_controller.go:229-244 | one undisturbed reconcile at or past the grace period stores the recovery, as of the read after the probe, iff the target is named and shows Available/True; else nothing changes, and an unreadable deployment is an error |
| ExperimentOutcome.GoDivTruncates | internal/controller/chaosexperiment_controller.go:260-266 | the mean is divided toward zero |
| Effects.StraightExecution | internal/controller/chaosexperiment_controller.go:63-298 | such a list of calls is what every execution follows: it stops with an error at the first failure and returns the stated result after the last |
| ExperimentMoves.ReconcileSafe | internal/controller/chaosexperiment_controller.go:63-298 | any reconcile of any sound object only commits atomic moves justified by what it did since its read, counts a halt only right after committing one, and never panics |
| ExperimentMoves.MoveKeepsSound | internal/controller/chaosexperiment_controller.go:63-298 | every move keeps the object invariant: index, timestamps, finalizer, metrics, halt reason and kill total fit together |
| ExperimentMachine.StepInvariant | internal/controller/chaosexperiment_controller.go:63-298 | every step of every participant keeps the world invariant and only appends versions |
| ExperimentMachine.RunInvariant | internal/controller/chaosexperiment_controller.go:63-298 | every interleaving with stale reads, refusals, lost replies and crashes is a chain of atomic moves |
| ExperimentHistory.LostReplyStored | internal/controller/chaosexperiment_controller.go:214-216 | an update whose reply is lost is stored as if heard of, and its writer takes the error path |
| ExperimentHistory.HaltFence | internal/controller/chaosexperiment_controller.go:95-128 | once a halt request is stored no later version injects, records recovery, advances or enters another phase than Halted; the request goes only after Halted is stored, and the stored reason was a standing request |
| ExperimentHistory.InjectionsPredateHalt | internal/controller/chaosexperiment_controller.go:189-197 | a reconcile about to inject works from a version older than any stored halt request |
| ExperimentHistory.PhasesAscend | internal/controller/chaosexperiment_controller.go:95-140 | phase rank never falls, Halted is absorbing, finished experiments can only turn Halted, the reason is set exactly when Halted, the halted metric rises at most once |
| ExperimentHistory.NeverPanics | internal/controller/chaosexperiment_controller.go:201-203 | a recorded fault has metrics and finalizer, so the dereference at line 260 is safe in every interleaving |
| ExperimentHistory.HistoryFollowsPlan | internal/controller/chaosexperiment_controller.go:171-286 | committed history is a prefix of Inject(0), Revert(0), Inject(1), ..., its length is encoded by index and InjectedAt, Completed means all of it, and only Running and Halted have a fault open |
| ExperimentHistory.RecordedInjectionHappened | internal/controller/chaosexperiment_controller.go:195-214 | between the two commits around a recorded injection its call succeeded, found pods running and deleted the smaller of their number and the configured count |
| ExperimentHistory.RevertedBeforeLeaving | internal/controller/chaosexperiment_controller.go:74-113 | after a recorded injection of scenario i, a successful Revert(i) precedes any version that advances past i, stores Halted or drops the finalizer |
| PodAccounting.KillAccounting | internal/controller/chaosexperiment_controller.go:201-214 | TotalPodsKilled is the sum of configured counts of recorded injections, across halts and crashes: the pods they deleted plus those they found missing |
| PodAccounting.RecordedKillsExact | internal/controller/chaosexperiment_controller.go:195-214 | at every version TotalPodsKilled is the number of pods that recorded injections deleted if and only if each found at least its configured count of running pods; else it is higher |
| PodAccounting.EveryPodCounted | internal/controller/chaosexperiment_controller.go:188-214 | at every commit and now, each pod deleted was deleted by a recorded injection or by one that failed or went unrecorded, never both |
| PodAccounting.KillsExact | api/v1alpha1/chaosexperiment_types.go:160-161 | TotalPodsKilled minus all pods ever deleted is the kills that recorded injections found no running pod for minus the pods deleted by failed or unrecorded injections; the one is 0 exactly if all found enough, the other exactly if every injection that deleted a pod succeeded and was recorded |
| PodAccounting.KillsReported | api/v1alpha1/chaosexperiment_types.go:160-161 | the total is the number of pods deleted if and only if those two are equal; either one being 0, if and only if the other is |
| PodAccounting.InjectionIsStep | internal/controller/chaosexperiment_controller.go:188-197 | every way a pod-kill injection can end is a step of the machine, logged with what it found and deleted |
| PodAccounting.InjectionNeedsName | internal/controller/chaosexperiment_controller.go:338-347 | an injection can only succeed on a named target, and aims at that name |
| PodAccounting.StepIsInjection | internal/controller/chaosexperiment_controller.go:188-197 | every injection step of the machine is a way a pod-kill injection can end, for any random order |
| ExperimentRuns.OneScenarioRun | internal/controller/chaosexperiment_controller.go:87-286 | any experiment of one pod-kill scenario can run to Completed, reports its configured count and has deleted min(count, running) pods, recorded and in all |
| ExperimentRuns.RecoveredRun | internal/controller/chaosexperiment_controller.go:229-267 | with a recovery seen at some time from the grace period on, the stored mean is the time from the injection to it in whole seconds |
| ExperimentRuns.RepeatedRun | internal/controller/chaosexperiment_controller.go:188-214 | if the reconcile that injected dies before recording it, the injection is repeated: both kills happen, the configured count is reported once |
| ExperimentRuns.FailedRun | internal/controller/chaosexperiment_controller.go:195-197 | an injection that fails after any number of pods it can fail after leaves the experiment Failed with no pod reported |
| ExperimentRuns.OverstatedKills | internal/controller/chaosexperiment_controller.go:201-214 | a complete run that deletes one pod and reports two |
| ExperimentRuns.RecoveryKept | internal/controller/chaosexperiment_controller.go:229-267 | a concrete complete run whose mean recovery time is ten seconds |
| ExperimentRuns.UnreportedKill | internal/scenario/podkill.go:69-73 | a run whose second deletion fails: one pod deleted, none reported, no recorded injection short of pods |
| ExperimentRuns.RepeatedKill | internal/controller/chaosexperiment_controller.go:214-216 | a complete run whose first recording is lost: two pods deleted, one reported, no recorded injection short of pods |
| FaultWindows.InjectedInThePast | internal/controller/chaosexperiment_controller.go:199 | a stored injection time never lies after the commit that holds it |
| FaultWindows.WindowsPass | internal/controller/chaosexperiment_controller.go:199-286 | at every later version the durations of all scenarios left behind have passed since the stored first injection, up to a second of truncation per later injection |
| FaultWindows.FaultsLastLongEnough | internal/controller/chaosexperiment_controller.go:225-279 | from the clock reading of an injection to the commit advancing past scenario j-1 passes more than the sum of durations minus one second each |
| FaultWindows.WindowsDisjoint | internal/controller/chaosexperiment_controller.go:188-199 | the next recorded injection is read off the clock only after the commit that left the previous scenario |
| FaultWindows.Ascending | internal/controller/chaosexperiment_controller.go:272-279 | commit times and the scenario index never go back |
| MeanRecovery.StoredMeanIsFold | internal/controller/chaosexperiment_controller.go:256-267 | the stored mean is the fold of one report per scenario passed, each reported recovery at least the grace period |
| MeanRecovery.MeanError | internal/controller/chaosexperiment_controller.go:260-266 | n times the kept mean falls short of the sum by 0 to n(n-1)/2 ns, where a missed recovery stands for the mean at that point or the first report |
| MeanRecovery.MeanWithin | internal/controller/chaosexperiment_controller.go:256-267 | the kept mean lies between any bounds of the reported recovery times, whichever are missing |
| MeanRecovery.StoredMeanIsAccurate | internal/controller/chaosexperiment_controller.go:256-267 | in every run the stored mean has that error bound, lies within the reports and is never below 5 s |
| MeanRecovery.CompleteMeanIsAccurate | internal/controller/chaosexperiment_controller.go:256-267 | with no missed recovery the bound is against the plain sum |
| Termination.PlayIsExecution | internal/controller/chaosexperiment_controller.go:63-298 | an execution of the reconciler in which every call succeeds ends with the object and result that the progress lemmas speak of |
| Termination.ReconcileProgresses | internal/controller/chaosexperiment_controller.go:161-286 | an undisturbed reconcile, no earlier than requested, strictly lowers the number still needed, or leaves a Completed status alone |
| Termination.FreshExperimentCompletes | internal/controller/chaosexperiment_controller.go:87-286 | a fresh undisturbed experiment is Completed after 3 + sum of max(2, ceil(duration/5s)+1) reconciles |
| Termination.StopsInOneReconcile | internal/controller/chaosexperiment_controller.go:74-128 | one undisturbed reconcile honours and consumes a halt request, keeping the reason of an earlier halt, and one lets a deleted experiment go |
| PodKill.Scenario.Inject | internal/scenario/podkill.go:20-76 | refusals in order without deleting; otherwise deletes the first min(count, running) pods of the shuffled order, or exactly the prefix before the pod whose deletion failed |
| PodKill.Scenario.Revert | internal/scenario/podkill.go:78-81 | reverting never fails |
| PodKill.PodClient.Delete | internal/scenario/podkill.go:70-72 | a deletion removes its pod or fails without effect |
| PodKill.Shuffle | internal/scenario/podkill.go:65-67 | the in-place shuffle is the composition of the chosen swaps |
| PodKill.ShuffledMultiset | internal/scenario/podkill.go:65-67 | for any random choices the shuffle preserves the multiset of pods |
| PodKill.EveryOrderPossible | internal/scenario/podkill.go:65-69 | every arrangement of the running pods is the kill order of some draws |
| PodKill.DrawsDetermined | internal/scenario/podkill.go:65-67 | different draws give different orders of distinct pods, so orders and draws correspond one to one |
| PodKill.AnyPodsCanBeKilled | internal/scenario/podkill.go:57-73 | any min(count, running) of the running pods can be the ones killed, in any order |
| PodKill.RefusedExactly | internal/scenario/podkill.go:20-60 | each refusal happens exactly on its condition, in the order they are checked, with nothing deleted |
| PodKill.RunningPodsExactly | internal/scenario/podkill.go:46-51 | the filter keeps every running pod as often as listed and no other |
| PodKill.KillsExactly | internal/scenario/podkill.go:57-73 | a successful injection deletes exactly min(count, running) distinct pods, each listed and running |
| PodKill.OutcomeSize | internal/scenario/podkill.go:20-76 | an injection that succeeds deletes exactly min(count, running) pods and at least one, one that fails deletes fewer, and neither more than configured, running or listed |
| Safeguards.CheckAlerts | internal/safeguard/alertmanager.go:57-81 | returns the matching alerts in order, whatever order the matchers are visited in |
| Safeguards.MatchingExactly | internal/safeguard/alertmanager.go:57-81 | the alerts reported are exactly the name and labels of those in state active whose every matched label agrees, a missing label counting as empty |
| Safeguards.FirstMatching | internal/safeguard/alertmanager.go:57-81 | the first alert reported is the first active one carrying every label |
| Safeguards.CheckAlertsFiring | internal/safeguard/checks.go:11-26 | no matchers means clear without asking, a failed backend an error without code, otherwise the verdict names the first matching alert |
| Safeguards.CheckSLOBreach | internal/safeguard/checks.go:28-48 | a missing or malformed threshold is a config error with its reason, otherwise the verdict is that of the query loop |
| Safeguards.FirstQueryDecides | internal/safeguard/checks.go:38-47 | the first query that fails or reaches the limit decides, later ones do not matter |
| Gate.CheckSafeguards | internal/controller/chaosschedule_controller.go:273-337 | opens, blocks with the reason, or errors as the gate verdict says |
| Gate.SourceShapes | internal/safeguard/checks.go:11-48 | a halt verdict always carries a reason and an error never a code, so testing the reason and testing the code agree |
| Gate.GateExactly | internal/controller/chaosschedule_controller.go:273-337 | for a named target the gate fails exactly on an unreadable bounded deployment and blocks for replicas exactly when available is below the minimum or else unavailable above the maximum; otherwise alerts, then service levels decide |
| Gate.GateOpensUnasked | internal/controller/chaosschedule_controller.go:273-277 | no safeguards or no target name: the gate is open |
| Gate.TickExactly | internal/safeguard/watcher.go:74-167 | the tick by what was read: a halt verdict of alerts or service levels, else the replicas by their numbers, a breach of theirs even if the others failed, else transient on any failure |
| Gate.GateAgreesWithWatcher | internal/controller/chaosschedule_controller.go:273-337 | on one snapshot the gate opens exactly when the tick is clean, if and only if the target is named or alerts and service levels are clear |
| Gate.UnnamedTargetSlipsThrough | internal/controller/chaosschedule_controller.go:275-277 | a concrete unnamed target that passes the gate and is halted by the first tick |
| Watcher.SafeguardWatcher.Start | internal/safeguard/watcher.go:39-50 | after any number of ticks of a new watcher, every stored counter is that of the key's own recorded ticks, their history is honest, and the halt writes are those of the passes |
| Watcher.SafeguardWatcher.CheckAll | internal/safeguard/watcher.go:56-72 | the counters after a sweep and the halt writes it made are those of its visits; nothing happens when listing fails; a halt is written only when due |
| Watcher.SafeguardWatcher.CheckSchedule | internal/safeguard/watcher.go:74-168 | one visit writes exactly one halt, with its code and reason on the version read, on a breach; one for unreachable checks on the transient tick that reaches the threshold; none otherwise; and changes only its own counter, which goes when a halt is written or the tick is clean |
| Watcher.SafeguardWatcher.Decide | internal/safeguard/watcher.go:128-167 | a breach is written with its code and reason whatever failed; without one a failure raises the counter and is written at the threshold; a refused write leaves the counter as it then stands |
| Watcher.SafeguardWatcher.CheckReplicas | internal/safeguard/watcher.go:110-124 | by the deployment numbers: below the minimum, else above the maximum, else clear; an unreadable deployment is an error |
| Watcher.SafeguardWatcher.CheckTarget | internal/safeguard/watcher.go:105-126 | replicas of a named target decide unless alerts or service levels did; the outcome is that of the tick |
| Watcher.SafeguardWatcher.CheckAlertSource | internal/safeguard/watcher.go:170-183 | a bad alert source is a config error, not a transient one |
| Watcher.SafeguardWatcher.CheckMetricsSource | internal/safeguard/watcher.go:185-198 | a bad metrics source is a config error, not a transient one |
| Watcher.SafeguardWatcher.HaltExperiment | internal/safeguard/watcher.go:200-213 | one write of both annotations on top of the version read, accepted only if that is still the stored one |
| Watcher.SafeguardWatcher.constructor | internal/safeguard/watcher.go:28-37 | no failures at first, threshold 3 |
| Watcher.KeyInjective | internal/safeguard/watcher.go:87 | with no slash in namespaces a key determines namespace and name |
| Watcher.SweepPointwise | internal/safeguard/watcher.go:64-71 | a sweep updates each running schedule's counter by its own tick alone, whatever the list order, and no other counter |
| Watcher.SweepActs | internal/safeguard/watcher.go:56-167 | a sweep writes a halt for every running schedule with a breach, and for a transient tick that reaches the threshold, with its code and reason on the version read, and sets its counter accordingly |
| Watcher.SweepWritesOnly | internal/safeguard/watcher.go:56-167 | and writes for no other |
| Watcher.CounterCountsTransients | internal/safeguard/watcher.go:128-167 | the counter is the number of transient ticks since the last clearing one |
| Watcher.UnreachableNeedsThreshold | internal/safeguard/watcher.go:141-164 | an unreachable halt is written only after at least threshold transient ticks with no clearing tick among them |
| Watcher.HaltsWhenDue | internal/safeguard/watcher.go:128-167 | the next tick leads to a halt exactly on a breach, or if it is transient and with it there were threshold of them since the last clearing one |
| Watcher.ThresholdMeansRefusedWrite | internal/safeguard/watcher.go:152-160 | a counter at the threshold means a threshold halt was refused since the last clearing tick |
| Watcher.CounterIsOwnHistory | internal/safeguard/watcher.go:56-72 | after any sweeps over any lists the stored counter is the fold of that key's own ticks, across pauses and runs |
| Watcher.OwnHistoryIsHonest | internal/safeguard/watcher.go:56-168 | the ticks recorded by the watcher's own sweeps satisfy the premise of the threshold theorems |
| ScheduleController.ChaosScheduleReconciler.Reconcile | internal/controller/chaosschedule_controller.go:60-102 | for every read, answer and pattern of failing calls, calls and result are one execution of the tree the machine interleaves |
| ScheduleController.ChaosScheduleReconciler.ReconcileIdle | internal/controller/chaosschedule_controller.go:104-131 | bad configuration fails the schedule; before the next tick it waits exactly until it; else it creates |
| ScheduleController.ChaosScheduleReconciler.ReconcileRunning | internal/controller/chaosschedule_controller.go:133-160 | looks up the active run, or recovers when none is named |
| ScheduleController.ChaosScheduleReconciler.FollowRun | internal/controller/chaosschedule_controller.go:150-201 | lets go of a finished or vanished run with the matching history, else waits |
| ScheduleController.ChaosScheduleReconciler.FailSchedule | internal/controller/chaosschedule_controller.go:204-211 | a single status update to Failed |
| ScheduleController.ChaosScheduleReconciler.CreateExperiment | internal/controller/chaosschedule_controller.go:213-271 | template, gate, then creation before the status that records it; gate errors retry, blocks skip the tick, failures fail the schedule |
| ScheduleController.ChaosScheduleReconciler.BlockRun | internal/controller/chaosschedule_controller.go:227-236 | a blocked tick is remembered as considered and nothing is created |
| ScheduleController.ChaosScheduleReconciler.NameRun | internal/controller/chaosschedule_controller.go:238-256 | the run is named after the second it is created in; a refused creation fails the schedule |
| ScheduleController.ChaosScheduleReconciler.StartRun | internal/controller/chaosschedule_controller.go:258-270 | one status update records phase, run, time and count together |
| ScheduleOutcome.UnreadDoes | internal/controller/chaosschedule_controller.go:60-69 | a missing schedule ends quietly, an unreadable one in an error |
| ScheduleOutcome.SuspensionDoes | internal/controller/chaosschedule_controller.go:71-102 | suspending pauses once from any phase, resuming sets waiting, a schedule that is over is left alone |
| ScheduleOutcome.WaitingDoes | internal/controller/chaosschedule_controller.go:104-128 | bad configuration fails the schedule; before its tick it asks to come back exactly then |
| ScheduleOutcome.TickDoes | internal/controller/chaosschedule_controller.go:213-271 | at its tick: no template fails, a failing gate is retried, a closed one skips the tick and remembers it, an open one creates the run named after the second read and records it with phase, name, time and count |
| ScheduleOutcome.FollowingDoes | internal/controller/chaosschedule_controller.go:133-201 | what a Running schedule writes and asks for, by what it sees of its run |
| ScheduleOutcome.FinishedRunReleased | internal/controller/chaosschedule_controller.go:162-201 | one undisturbed reconcile leaves a schedule whose run is over or gone Idle, or Halted with its reason, without a name and with exactly the one counter raised; a run still going leaves the status alone |
| ScheduleOutcome.PlayIsExecution | internal/controller/chaosschedule_controller.go:60-271 | an execution in which every call succeeds ends as these speak of |
| ScheduleMachine.ReconcileSafe | internal/controller/chaosschedule_controller.go:60-271 | any reconcile of a sound schedule commits at most one justified move and creates at most one run, only while waiting |
| ScheduleMachine.CommitCovered | internal/controller/chaosschedule_controller.go:162-201 | a commit lets go only of a run that is over, or takes charge of the run its writer created |
| ScheduleMachine.StepInvariant | internal/controller/chaosschedule_controller.go:60-271 | every step of controller, users and runs keeps every live run held, pending, paused over, overlooked or lost |
| ScheduleMachine.ExecuteInvariant | internal/controller/chaosschedule_controller.go:60-271 | so does every interleaving |
| ScheduleMachine.LostReplyStored | internal/controller/chaosschedule_controller.go:264-266 | an update whose reply is lost is stored as if heard of, and its writer takes the error path |
| ScheduleHistory.LiveRunsCovered | internal/controller/chaosschedule_controller.go:133-270 | with any number of reconciles in flight, every live run is the active one, one about to be recorded, or a stray |
| ScheduleHistory.OverlooksOutdated | internal/controller/chaosschedule_controller.go:145-160 | only a lookup answered with an outdated view makes the schedule overlook a run |
| ScheduleHistory.RunsAtOnce | internal/controller/chaosschedule_controller.go:133-270 | with one reconcile at a time, at most one run is live beside those paused over, overlooked or unrecorded, so live runs number at most 1 + the live ones of those |
| ScheduleHistory.RunsAtOnceByHistory | internal/controller/chaosschedule_controller.go:71-79 | live runs number at most 1 + pauses taken while Running, as the stored history has them, + runs overlooked or whose recording commit was or must be lost |
| ScheduleHistory.OneRunAtATime | internal/controller/chaosschedule_controller.go:133-270 | no live run paused over, overlooked or unrecorded: at most one run, and at rest it is the one a Running schedule names |
| ScheduleRuns.PauseAllowsSecondRun | internal/controller/chaosschedule_controller.go:71-95 | from any reachable Running schedule at rest, suspend, resume and the next tick the gate lets through lead to two live runs |
| ScheduleRuns.LossAllowsSecondRun | internal/controller/chaosschedule_controller.go:251-270 | from any reachable waiting schedule, dying between creating a run and recording it lets the next firing start a second one |
| ScheduleRuns.StaleReadAllowsSecondRun | internal/controller/chaosschedule_controller.go:104-131 | a reconcile that reads a version from before the schedule came to run starts a second one |
| ScheduleRuns.StaleLookupAllowsSecondRun | internal/controller/chaosschedule_controller.go:145-160 | a lookup answered from before the run existed makes the schedule let go of it, and the next tick starts a second one |
| ScheduleRuns.TwoRunsReached | internal/controller/chaosschedule_controller.go:71-270 | for any schedule whose first two ticks the gate lets through, each of the four happens from its creation on, with one reconcile at a time and without the other three |
| ScheduleRuns.FinishedRunLetGo | internal/controller/chaosschedule_controller.go:133-201 | from any reachable schedule at rest whose run is over or gone, a reconcile that looks it up lets go of it with the matching history |
| ScheduleRuns.EveryMinute | internal/controller/chaosschedule_controller.go:104-131 | a concrete schedule of that kind |
| ScheduleHistory.RunsAddUp | internal/controller/chaosschedule_controller.go:71-79 | TotalRuns = successful + halted + failed + vanished + paused over + (1 if Running) in every version, and Running always names a run |
| ScheduleHistory.FiringsWithinTicks | internal/controller/chaosschedule_controller.go:116-130 | each start or gate skip passes a tick not passed before |
| ScheduleHistory.FiringRate | internal/controller/chaosschedule_controller.go:227-266 | starts and gate skips together, and TotalRuns, never exceed the ticks since creation |
| ChaosSystem.StepRefines | internal/controller/chaosschedule_controller.go:133-256 | every step of schedule, experiments and watcher together is one step of the schedule machine or none: creations show a fresh experiment, stored changes move its run, a gone one is a run deleted |
| ChaosSystem.ExecuteInvariant | internal/controller/chaosschedule_controller.go:60-271 | in every interleaving the schedule makes a run of its own machine, each experiment one of its own, and the schedule's runs are the experiments as last stored |
| ChaosSystem.HaltReasonHasGrounds | internal/controller/chaosschedule_controller.go:182-190 | a schedule stopped by a halted run reports a reason that the watcher stored as a halt request on the run of that name, after a tick with that breach, or for unreachable checks after three transient ticks with no clearing one among them |
| ChaosSystem.VisitIsStep | internal/safeguard/watcher.go:74-168 | whatever the watcher does on one visit is a step of the whole that keeps its counter the one of its recorded ticks; a breach is one write for the named run, and an accepted write puts its reason and code on top of the version it read |
| ChaosSystem.LiveExperimentsAreRuns | internal/controller/chaosschedule_controller.go:133-201 | the runs a schedule counts as live are exactly its experiments that are neither over nor gone |
| SystemRuns.BreachStopsSchedule | internal/safeguard/watcher.go:128-140 | from any reachable state at rest a breach the watcher gets stored ends with the run Halted for it, counted once and the request consumed, and the schedule Halted, without a run and reporting the reason |
| Naming.NameInjective | internal/controller/chaosschedule_controller.go:239 | an experiment name tells which run of its schedule it is |
| ChaosSystem.OneFaultAtATime | internal/controller/chaosschedule_controller.go:104-270 | with one reconcile of the schedule at a time, open faults are at most as many as live experiments, and those at most one plus the live strays |

## Left out

- HTTP, JSON and URL handling (`http.go`, `prometheus.go`, decoding in `alertmanager.go`): decoded alerts and query results are inputs that may be errors.
- Cron parsing and time zones: the expression is a function giving the next tick, assumed to exist, to be the least and to fall on whole seconds; parsing is a yes/no input.
- Floating point: service-level values are reals, without NaN; a threshold is missing, malformed or a number.
- Wording of halt and block reasons beyond their fixed prefix, events, logs and metrics other than the halted counter.
- Unknown phases: the CRD schema admits none, so the default branches that log them are not modelled.
- External edits of a status, of an experiment's spec or of halt annotations other than by the watcher; edits of a schedule's spec other than `suspend`; deletion of a schedule with its runs.
- Create and Delete calls that time out but were applied; `int32` and `int64` overflow.
- Requeueing as a promise: a reconcile may start at any time; only `Termination` uses the requested delays, and `PauseBetween` is no guaranteed wait.
- Parallel execution, kill interval, label-selector targets, recovery probes, `CurrentRun`, `ActiveScenario` and conditions: declared but not acted on by these controllers.
- Faults opened by an injection that is never recorded: it may repeat after a crash, so the fault properties speak of recorded injections; the pods it deletes are counted (`KillsExact`).
- ScheduleHistory.RunsAtOnce: assumes one reconcile of the schedule at a time, as the controller runtime provides; `LiveRunsCovered` has no such limit.
- ChaosSystem.ExecuteInvariant: a created experiment may have any spec, not only that of the template read for the gate; the watcher is seen from one schedule, the others having counters of their own (`SweepPointwise`).
- ScheduleRuns.PauseAllowsSecondRun: one way only: a run paused over may end before the next one starts, so pausing does not always lead to two.
