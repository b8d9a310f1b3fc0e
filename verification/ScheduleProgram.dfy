/** What one reconcile of a ChaosSchedule does, as a decision tree over its calls
    (internal/controller/chaosschedule_controller.go). */
module ScheduleProgram {
  import opened Wrappers
  import opened Clock
  import opened Effects
  import opened ScheduleApi
  import E = ExperimentApi
  import Safeguards
  import Gate

  /** What a lookup of a run finds. */
  datatype Seen = Absent | Present(phase: E.Phase, haltReason: Option<string>)

  /** Why a status is written. */
  datatype Reason =
    | Suspending | Resuming | Recovering
    | RunStarted | GateBlocked | ScheduleFailed
    | RunCompleted | RunFailed | RunHalted | RunVanished

  datatype Call =
    | ReadClock(t: int)
    | Create(name: RunName)
    | Lookup(name: RunName, seen: Seen)
    | PutStatus(status: Status, reason: Reason)

  /** The answers of the world to one reconcile: clock readings in the order they are taken,
      the target of the experiment template if it can be read, the safeguard snapshot,
      whether an owner reference can be set, and what the lookup of the active run finds. */
  datatype Answers = Answers(
    checkedAt: int,
    template: Option<Option<string>>,
    snapshot: Safeguards.Snapshot,
    nameAt: int,
    ownerSet: bool,
    stampAt: int,
    seen: Seen)

  datatype Read = NotFound | ReadFailed | Found(spec: Spec, obj: Object)

  function Put(st: Status, reason: Reason, res: Result): Prog<Call> {
    Perform(PutStatus(Encode(st), reason), Return(res), Return(Error))
  }

  function FailProg(st: Status): Prog<Call> {
    Put(st.(phase := Failed), ScheduleFailed, Stop)
  }

  function NameAt(t: int): RunName {
    t / SECOND
  }

  function Started(st: Status, name: RunName, t: int): Status {
    st.(phase := Running, active := Some(name), lastScheduleTime := Some(t),
        history := st.history.(totalRuns := st.history.totalRuns + 1))
  }

  function StartProg(st: Status, name: RunName, a: Answers): Prog<Call> {
    Perform(ReadClock(a.stampAt), Put(Started(st, name, a.stampAt), RunStarted, RequeueAfter(SECOND)), Return(Error))
  }

  function BlockProg(st: Status, a: Answers): Prog<Call> {
    Perform(ReadClock(a.stampAt),
      Put(st.(lastScheduleTime := Some(a.stampAt)), GateBlocked, RequeueAfter(SECOND)),
      Return(Error))
  }

  function NameProg(st: Status, a: Answers): Prog<Call> {
    Perform(ReadClock(a.nameAt),
      if !a.ownerSet then Return(Error)
      else Perform(Create(NameAt(a.nameAt)), StartProg(st, NameAt(a.nameAt), a), FailProg(st)),
      Return(Error))
  }

  function CreateProg(spec: Spec, st: Status, a: Answers): Prog<Call> {
    if a.template.None? then FailProg(st)
    else match Gate.GateOf(spec.safeguards, a.template.value, a.snapshot)
      case GateFailed => Return(Error)
      case Blocked(_) => BlockProg(st, a)
      case Open => NameProg(st, a)
  }

  function IdleProg(spec: Spec, st: Status, a: Answers): Prog<Call> {
    if !spec.timezoneValid || !spec.cronValid then FailProg(st)
    else
      var nextRun := spec.next(LastRun(spec, st));
      Perform(ReadClock(a.checkedAt),
        if a.checkedAt < nextRun then Return(RequeueAfter(nextRun - a.checkedAt)) else CreateProg(spec, st, a),
        Return(Error))
  }

  /** Letting go of the run a lookup found finished, or waiting for it. */
  function FollowProg(st: Status, seen: Seen): Prog<Call> {
    var released := st.(phase := Idle, active := None);
    match seen
    case Absent => Put(released, RunVanished, RequeueAfter(SECOND))
    case Present(Completed, _) =>
      Put(released.(history := st.history.(successfulRuns := st.history.successfulRuns + 1)),
          RunCompleted, RequeueAfter(SECOND))
    case Present(Failed, _) => Put(released, RunFailed, RequeueAfter(SECOND))
    case Present(Halted, reason) =>
      Put(released.(phase := Phase.Halted,
                    history := st.history.(haltedRuns := st.history.haltedRuns + 1, lastHaltReason := reason)),
          RunHalted, Stop)
    case Present(_, _) => Return(RequeueAfter(30 * SECOND))
  }

  function RunningProg(st: Status, a: Answers): Prog<Call> {
    if st.active.None? then Put(st.(phase := Idle), Recovering, RequeueAfter(SECOND))
    else Perform(Lookup(st.active.value, a.seen), FollowProg(st, a.seen), Return(Error))
  }

  function ReconcileProg(spec: Spec, o: Object, a: Answers): Prog<Call> {
    if o.suspend then
      if o.status.phase != Paused then Put(o.status.(phase := Paused), Suspending, Stop) else Return(Stop)
    else match o.status.phase
      case Unset | Idle => IdleProg(spec, o.status, a)
      case Running => RunningProg(o.status, a)
      case Paused => Put(o.status.(phase := Idle), Resuming, RequeueAfter(SECOND))
      case Halted | Completed | Failed => Return(Stop)
  }

  function Program(read: Read, a: Answers): Prog<Call> {
    match read
    case NotFound => Return(Stop)
    case ReadFailed => Return(Error)
    case Found(spec, o) => ReconcileProg(spec, o, a)
  }
}
