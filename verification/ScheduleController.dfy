/** The schedule reconciler, method by method, proved to behave as ScheduleProgram says. */
module ScheduleController {
  import opened Wrappers
  import opened Clock
  import opened Effects
  import opened ScheduleApi
  import opened ScheduleProgram
  import Gate

  class Client {
    var trace: seq<Event<Call>>

    constructor ()
      ensures trace == []
    {
      trace := [];
    }

    method Send(call: Call) returns (ok: bool)
      modifies this
      ensures trace == old(trace) + [Event(call, ok)]
    {
      ok := *;
      trace := trace + [Event(call, ok)];
    }

    method UpdateStatus(sched: ChaosSchedule, reason: Reason) returns (ok: bool)
      modifies this
      ensures trace == old(trace) + [Event(PutStatus(Encode(sched.status), reason), ok)]
    {
      ok := Send(PutStatus(Encode(sched.status), reason));
    }
  }

  class ChaosScheduleReconciler {
    const client: Client

    constructor (client: Client)
      ensures this.client == client
    {
      this.client := client;
    }

    method Reconcile(read: Read, answers: Answers) returns (res: Result)
      modifies client
      ensures old(client.trace) <= client.trace
      ensures Follows(Program(read, answers), client.trace, |old(client.trace)|, res)
    {
      if read.NotFound? {
        return Stop;
      }
      if read.ReadFailed? {
        return Error;
      }
      var sched := new ChaosSchedule(read.spec, read.obj);
      if sched.suspend {
        if sched.status.phase != Paused {
          sched.status := sched.status.(phase := Paused);
          var ok := client.UpdateStatus(sched, Suspending);
          if !ok {
            return Error;
          }
        }
        return Stop;
      }

      match sched.status.phase
      case Unset | Idle =>
        res := ReconcileIdle(sched, answers);
      case Running =>
        res := ReconcileRunning(sched, answers);
      case Paused =>
        sched.status := sched.status.(phase := Idle);
        var ok := client.UpdateStatus(sched, Resuming);
        res := if ok then RequeueAfter(SECOND) else Error;
      case Halted | Completed | Failed =>
        res := Stop;
    }

    method ReconcileIdle(sched: ChaosSchedule, answers: Answers) returns (res: Result)
      modifies sched, client
      ensures old(client.trace) <= client.trace
      ensures Follows(IdleProg(sched.spec, old(sched.status), answers), client.trace, |old(client.trace)|, res)
    {
      if !sched.spec.timezoneValid {
        res := FailSchedule(sched);
        return;
      }
      if !sched.spec.cronValid {
        res := FailSchedule(sched);
        return;
      }
      var ok := client.Send(ReadClock(answers.checkedAt));
      if !ok {
        return Error;
      }
      var lastRun := sched.spec.created;
      if sched.status.lastScheduleTime.Some? {
        lastRun := sched.status.lastScheduleTime.value;
      }
      var nextRun := sched.spec.next(lastRun);
      if answers.checkedAt < nextRun {
        return RequeueAfter(nextRun - answers.checkedAt);
      }
      res := CreateExperiment(sched, answers);
    }

    method ReconcileRunning(sched: ChaosSchedule, answers: Answers) returns (res: Result)
      modifies sched, client
      ensures old(client.trace) <= client.trace
      ensures Follows(RunningProg(old(sched.status), answers), client.trace, |old(client.trace)|, res)
    {
      var ok: bool;
      if sched.status.active.None? {
        sched.status := sched.status.(phase := Idle);
        ok := client.UpdateStatus(sched, Recovering);
        return if ok then RequeueAfter(SECOND) else Error;
      }
      ok := client.Send(Lookup(sched.status.active.value, answers.seen));
      if !ok {
        return Error;
      }
      res := FollowRun(sched, answers.seen);
    }

    method FollowRun(sched: ChaosSchedule, seen: Seen) returns (res: Result)
      modifies sched, client
      ensures old(client.trace) <= client.trace
      ensures Follows(FollowProg(old(sched.status), seen), client.trace, |old(client.trace)|, res)
    {
      var ok: bool;
      if seen.Absent? {
        sched.status := sched.status.(phase := Idle);
        sched.status := sched.status.(active := None);
        ok := client.UpdateStatus(sched, RunVanished);
        return if ok then RequeueAfter(SECOND) else Error;
      }

      var history := sched.status.history;
      match seen.phase
      case Completed =>
        sched.status := sched.status.(phase := Idle);
        sched.status := sched.status.(active := None);
        sched.status := sched.status.(history := history.(successfulRuns := history.successfulRuns + 1));
        ok := client.UpdateStatus(sched, RunCompleted);
        res := if ok then RequeueAfter(SECOND) else Error;
      case Failed =>
        sched.status := sched.status.(phase := Idle);
        sched.status := sched.status.(active := None);
        ok := client.UpdateStatus(sched, RunFailed);
        res := if ok then RequeueAfter(SECOND) else Error;
      case Halted =>
        sched.status := sched.status.(phase := Phase.Halted);
        sched.status := sched.status.(active := None);
        history := history.(haltedRuns := history.haltedRuns + 1);
        history := history.(lastHaltReason := seen.haltReason);
        sched.status := sched.status.(history := history);
        ok := client.UpdateStatus(sched, RunHalted);
        res := if ok then Stop else Error;
      case Unset | Pending | Running =>
        res := RequeueAfter(30 * SECOND);
    }

    method FailSchedule(sched: ChaosSchedule) returns (res: Result)
      modifies sched, client
      ensures old(client.trace) <= client.trace
      ensures Follows(FailProg(old(sched.status)), client.trace, |old(client.trace)|, res)
    {
      sched.status := sched.status.(phase := Phase.Failed);
      var ok := client.UpdateStatus(sched, ScheduleFailed);
      res := if ok then Stop else Error;
    }

    method CreateExperiment(sched: ChaosSchedule, answers: Answers) returns (res: Result)
      modifies sched, client
      ensures old(client.trace) <= client.trace
      ensures Follows(CreateProg(sched.spec, old(sched.status), answers), client.trace, |old(client.trace)|, res)
    {
      if answers.template.None? {
        res := FailSchedule(sched);
        return;
      }
      var safe, _, failed := Gate.CheckSafeguards(sched.spec.safeguards, answers.template.value, answers.snapshot);
      if failed {
        return Error;
      }
      if !safe {
        res := BlockRun(sched, answers);
        return;
      }
      res := NameRun(sched, answers);
    }

    /** Skipping this tick: remember that it was considered. */
    method BlockRun(sched: ChaosSchedule, answers: Answers) returns (res: Result)
      modifies sched, client
      ensures old(client.trace) <= client.trace
      ensures Follows(BlockProg(old(sched.status), answers), client.trace, |old(client.trace)|, res)
    {
      var ok := client.Send(ReadClock(answers.stampAt));
      if !ok {
        return Error;
      }
      sched.status := sched.status.(lastScheduleTime := Some(answers.stampAt));
      ok := client.UpdateStatus(sched, GateBlocked);
      res := if ok then RequeueAfter(SECOND) else Error;
    }

    method NameRun(sched: ChaosSchedule, answers: Answers) returns (res: Result)
      modifies sched, client
      ensures old(client.trace) <= client.trace
      ensures Follows(NameProg(old(sched.status), answers), client.trace, |old(client.trace)|, res)
    {
      var ok := client.Send(ReadClock(answers.nameAt));
      if !ok {
        return Error;
      }
      if !answers.ownerSet {
        return Error;
      }
      var expName := answers.nameAt / SECOND;
      ok := client.Send(Create(expName));
      if !ok {
        res := FailSchedule(sched);
        return;
      }
      res := StartRun(sched, expName, answers);
    }

    method StartRun(sched: ChaosSchedule, expName: RunName, answers: Answers) returns (res: Result)
      modifies sched, client
      ensures old(client.trace) <= client.trace
      ensures Follows(StartProg(old(sched.status), expName, answers), client.trace, |old(client.trace)|, res)
    {
      sched.status := sched.status.(phase := Running);
      sched.status := sched.status.(active := Some(expName));
      var ok := client.Send(ReadClock(answers.stampAt));
      if !ok {
        return Error;
      }
      sched.status := sched.status.(lastScheduleTime := Some(answers.stampAt));
      var history := sched.status.history;
      sched.status := sched.status.(history := history.(totalRuns := history.totalRuns + 1));
      ok := client.UpdateStatus(sched, RunStarted);
      res := if ok then RequeueAfter(SECOND) else Error;
    }
  }
}
