/** The experiment reconciler, method by method. Each method is proved to behave as the
    decision tree that ExperimentProgram gives for it, whatever the calls it makes reply. */
module ExperimentController {
  import opened Wrappers
  import opened Numbers
  import opened Clock
  import opened Effects
  import opened ExperimentApi
  import opened ExperimentProgram

  /** The API client, the scenario client and the metrics registry, seen through the calls
      made on them. Any call that leaves the process may fail. */
  class Client {
    var trace: seq<Event<Call>>

    constructor ()
      ensures trace == []
    {
      trace := [];
    }

    method Send(call: Call) returns (ok: bool)
      modifies this
      ensures trace == old(trace) + [Event(call, ok)]
    {
      ok := *;
      trace := trace + [Event(call, ok)];
    }

    method UpdateStatus(exp: ChaosExperiment) returns (ok: bool)
      modifies this
      ensures trace == old(trace) + [Event(PutStatus(Encode(exp.status)), ok)]
    {
      ok := Send(PutStatus(Encode(exp.status)));
    }

    method Update(exp: ChaosExperiment) returns (ok: bool)
      modifies this
      ensures trace == old(trace) + [Event(PutMeta(exp.meta), ok)]
    {
      ok := Send(PutMeta(exp.meta));
    }
  }

  class ChaosExperimentReconciler {
    const client: Client

    constructor (client: Client)
      ensures this.client == client
    {
      this.client := client;
    }

    method Reconcile(read: Read, answers: Answers) returns (res: Result)
      modifies client
      ensures old(client.trace) <= client.trace
      ensures Follows(Program(read, answers), client.trace, |old(client.trace)|, res)
    {
      if read.NotFound? {
        return Stop;
      }
      if read.ReadFailed? {
        return Error;
      }
      var exp := new ChaosExperiment(read.spec, read.obj);
      var ok: bool;

      if exp.meta.deleting {
        if exp.meta.finalizer {
          ok := RevertIfActiveFault(exp);
          if !ok {
            return Error;
          }
          exp.meta := exp.meta.(finalizer := false);
          ok := client.Update(exp);
          if !ok {
            return Error;
          }
        }
        return Stop;
      }

      if !exp.meta.finalizer {
        exp.meta := exp.meta.(finalizer := true);
        ok := client.Update(exp);
        if !ok {
          return Error;
        }
        return RequeueAfter(SECOND);
      }

      if exp.meta.haltReason.Some? {
        res := ReconcileHalt(exp);
        return;
      }

      match exp.status.phase
      case Unset | Pending =>
        res := ReconcilePending(exp);
      case Running =>
        res := ReconcileRunning(exp, answers);
      case Completed | Failed | Halted =>
        res := Stop;
    }

    method ReconcileHalt(exp: ChaosExperiment) returns (res: Result)
      requires exp.meta.haltReason.Some?
      modifies exp, client
      ensures old(client.trace) <= client.trace
      ensures Follows(HaltProg(exp.spec, old(Object(exp.meta, exp.status))), client.trace, |old(client.trace)|, res)
    {
      if exp.status.phase == Halted {
        res := ClearHalt(exp);
        return;
      }

      var ok := RevertIfActiveFault(exp);
      if !ok {
        return Error;
      }
      res := StopExperiment(exp);
    }

    /** The part of the halt path that follows the revert: store Halted, count it, consume the annotations. */
    method StopExperiment(exp: ChaosExperiment) returns (res: Result)
      requires exp.meta.haltReason.Some?
      modifies exp, client
      ensures old(client.trace) <= client.trace
      ensures Follows(StopProg(old(Object(exp.meta, exp.status))), client.trace, |old(client.trace)|, res)
    {
      var reason := exp.meta.haltReason.value;
      var code := exp.meta.haltCode;
      exp.status := exp.status.(phase := Halted);
      exp.status := exp.status.(haltReason := Some(reason));
      var ok := client.UpdateStatus(exp);
      if !ok {
        return Error;
      }
      ok := client.Send(CountHalted(code));
      if !ok {
        return Error;
      }
      res := ClearHalt(exp);
    }

    method ClearHalt(exp: ChaosExperiment) returns (res: Result)
      modifies exp, client
      ensures old(client.trace) <= client.trace
      ensures Follows(ClearProg(old(exp.meta)), client.trace, |old(client.trace)|, res)
    {
      exp.meta := exp.meta.(haltReason := None);
      exp.meta := exp.meta.(haltCode := None);
      var ok := client.Update(exp);
      res := if ok then Stop else Error;
    }

    /** `ok` is false when the revert returned an error or could not be built. */
    method RevertIfActiveFault(exp: ChaosExperiment) returns (ok: bool)
      modifies client
      ensures
        var st := exp.status;
        if st.injectedAt.None? || st.index >= |exp.spec.scenarios| then
          ok && client.trace == old(client.trace)
        else if exp.spec.scenarios[st.index].kind.OtherType? then
          !ok && client.trace == old(client.trace)
        else
          client.trace == old(client.trace) + [Event(Revert(st.index), ok)]
    {
      if exp.status.injectedAt.None? {
        return true;
      }
      var idx := exp.status.index;
      if idx >= |exp.spec.scenarios| {
        return true;
      }
      if exp.spec.scenarios[idx].kind.OtherType? {
        return false;
      }
      ok := client.Send(Revert(idx));
    }

    method ReconcilePending(exp: ChaosExperiment) returns (res: Result)
      modifies exp, client
      ensures old(client.trace) <= client.trace
      ensures Follows(Put(old(exp.status).(phase := Running), RequeueAfter(SECOND)),
                      client.trace, |old(client.trace)|, res)
    {
      exp.status := exp.status.(phase := Running);
      var ok := client.UpdateStatus(exp);
      res := if ok then RequeueAfter(SECOND) else Error;
    }

    method ReconcileRunning(exp: ChaosExperiment, answers: Answers) returns (res: Result)
      modifies exp, client
      ensures old(client.trace) <= client.trace
      ensures Follows(RunningProg(exp.spec, old(exp.status), answers), client.trace, |old(client.trace)|, res)
    {
      var ok: bool;
      var idx := exp.status.index;
      if idx >= |exp.spec.scenarios| {
        exp.status := exp.status.(phase := Completed);
        ok := client.UpdateStatus(exp);
        return if ok then Stop else Error;
      }

      var scenario := exp.spec.scenarios[idx];
      if exp.status.injectedAt.None? {
        res := InjectScenario(exp, scenario, answers);
        return;
      }

      ok := client.Send(ReadClock(answers.elapsedAt));
      if !ok {
        return Error;
      }
      var elapsed := answers.elapsedAt - exp.status.injectedAt.value;
      var remaining := scenario.duration - elapsed;
      if remaining > 0 {
        res := PollRecovery(exp, remaining, answers);
      } else {
        res := RevertAndAdvance(exp, scenario);
      }
    }

    method InjectScenario(exp: ChaosExperiment, scenario: Scenario, answers: Answers) returns (res: Result)
      modifies exp, client
      ensures old(client.trace) <= client.trace
      ensures Follows(InjectProg(scenario, old(exp.status), answers), client.trace, |old(client.trace)|, res)
    {
      var ok: bool;
      if scenario.kind.OtherType? {
        res := FailExperiment(exp);
        return;
      }
      ok := client.Send(Inject(exp.status.index, Count(scenario)));
      if !ok {
        res := FailExperiment(exp);
        return;
      }
      res := StampInjection(exp, scenario, answers);
    }

    /** The fault is in: record when, and how many pods it was configured to kill. */
    method StampInjection(exp: ChaosExperiment, scenario: Scenario, answers: Answers) returns (res: Result)
      modifies exp, client
      ensures old(client.trace) <= client.trace
      ensures Follows(StampInjectionProg(scenario, old(exp.status), answers), client.trace, |old(client.trace)|, res)
    {
      var ok := client.Send(ReadClock(answers.stampAt));
      if !ok {
        return Error;
      }
      exp.status := exp.status.(injectedAt := Some(answers.stampAt));
      if exp.status.metrics.None? {
        exp.status := exp.status.(metrics := Some(Metrics(0, None)));
      }
      if scenario.kind.PodKillType? {
        var count := 1;
        if scenario.podKill.Some? {
          count := scenario.podKill.value;
        }
        var m := exp.status.metrics.value;
        exp.status := exp.status.(metrics := Some(m.(totalPodsKilled := m.totalPodsKilled + count)));
      }
      ok := client.UpdateStatus(exp);
      res := if ok then RequeueAfter(POLL) else Error;
    }

    method PollRecovery(exp: ChaosExperiment, remaining: int, answers: Answers) returns (res: Result)
      requires exp.status.injectedAt.Some?
      modifies exp, client
      ensures old(client.trace) <= client.trace
      ensures Follows(PollProg(exp.spec, old(exp.status), old(exp.status.injectedAt.value), remaining, answers),
                      client.trace, |old(client.trace)|, res)
    {
      var ok: bool;
      if exp.status.recoveredAt.None? {
        ok := client.Send(ReadClock(answers.graceAt));
        if !ok {
          return Error;
        }
        if answers.graceAt - exp.status.injectedAt.value >= GRACE {
          var recovery := ProbeRecovery(exp, answers.deployment);
          if recovery == Unknown {
            return Error;
          } else if recovery == Recovered {
            res := StampRecovery(exp, answers, RequeueAfter(Min(POLL, remaining)));
            return;
          }
        }
      }
      res := RequeueAfter(Min(POLL, remaining));
    }

    method StampRecovery(exp: ChaosExperiment, answers: Answers, poll: Result) returns (res: Result)
      modifies exp, client
      ensures old(client.trace) <= client.trace
      ensures Follows(StampRecoveryProg(old(exp.status), answers, poll), client.trace, |old(client.trace)|, res)
    {
      var ok := client.Send(ReadClock(answers.stampAt));
      if !ok {
        return Error;
      }
      exp.status := exp.status.(recoveredAt := Some(answers.stampAt));
      ok := client.UpdateStatus(exp);
      res := if ok then poll else Error;
    }

    method ProbeRecovery(exp: ChaosExperiment, deployment: DeploymentRead) returns (recovery: Recovery)
      ensures recovery == CheckRecovery(exp.spec, deployment)
    {
      if exp.spec.targetName.None? {
        return NotRecovered;
      }
      if deployment.ReadError? {
        return Unknown;
      }
      var i := 0;
      while i < |deployment.conditions|
        invariant 0 <= i <= |deployment.conditions|
        invariant Condition("Available", "True") !in deployment.conditions[..i]
      {
        var cond := deployment.conditions[i];
        if cond.kind == "Available" && cond.status == "True" {
          assert cond == Condition("Available", "True") && cond in deployment.conditions;
          return Recovered;
        }
        i := i + 1;
      }
      recovery := NotRecovered;
    }

    method RevertAndAdvance(exp: ChaosExperiment, scenario: Scenario) returns (res: Result)
      requires exp.status.injectedAt.Some?
      modifies exp, client
      ensures old(client.trace) <= client.trace
      ensures Follows(AdvanceProg(exp.spec, scenario, old(exp.status)), client.trace, |old(client.trace)|, res)
    {
      if scenario.kind.OtherType? {
        return Error;
      }
      var idx := exp.status.index;
      var ok := client.Send(Revert(idx));
      if !ok {
        return Error;
      }

      if exp.status.recoveredAt.Some? {
        var recoveryTime := exp.status.recoveredAt.value - exp.status.injectedAt.value;
        if exp.status.metrics.None? {
          return Panic;
        }
        var m := exp.status.metrics.value;
        if m.meanRecoveryTime.Some? && idx > 0 {
          var avg := GoDiv(m.meanRecoveryTime.value * idx + recoveryTime, idx + 1);
          exp.status := exp.status.(metrics := Some(m.(meanRecoveryTime := Some(avg))));
        } else {
          exp.status := exp.status.(metrics := Some(m.(meanRecoveryTime := Some(recoveryTime))));
        }
      }

      exp.status := exp.status.(recoveredAt := None);
      exp.status := exp.status.(injectedAt := None);
      exp.status := exp.status.(index := idx + 1);
      ok := client.UpdateStatus(exp);
      if !ok {
        return Error;
      }

      var pause := SECOND;
      if exp.spec.pauseBetween.Some? {
        pause := exp.spec.pauseBetween.value;
      }
      res := RequeueAfter(pause);
    }

    method FailExperiment(exp: ChaosExperiment) returns (res: Result)
      modifies exp, client
      ensures old(client.trace) <= client.trace
      ensures Follows(FailProg(old(exp.status)), client.trace, |old(client.trace)|, res)
    {
      exp.status := exp.status.(phase := Failed);
      var ok := client.UpdateStatus(exp);
      res := if ok then Stop else Error;
    }
  }
}
