/** What one reconcile of a ChaosExperiment does, as a decision tree over its calls
    (internal/controller/chaosexperiment_controller.go). */
module ExperimentProgram {
  import opened Wrappers
  import opened Numbers
  import opened Clock
  import opened Effects
  import opened ExperimentApi

  const GRACE: int := 5 * SECOND
  const POLL: int := 5 * SECOND

  datatype Condition = Condition(kind: string, status: string)
  datatype DeploymentRead = ReadError | Conditions(conditions: seq<Condition>)

  /** The answers the outside world gives to one reconcile: its clock readings, in the
      order it takes them, and the target deployment as read by the recovery check. */
  datatype Answers = Answers(elapsedAt: int, graceAt: int, stampAt: int, deployment: DeploymentRead)

  datatype Call =
    | ReadClock(t: int)
    | Inject(index: nat, count: int)
    | Revert(index: nat)
    | PutStatus(status: Status)
    | PutMeta(meta: Meta)
    | CountHalted(code: Option<string>)

  datatype Read = NotFound | ReadFailed | Found(spec: Spec, obj: Object)

  datatype Recovery = Unknown | NotRecovered | Recovered

  predicate Available(conditions: seq<Condition>) {
    exists c <- conditions :: c == Condition("Available", "True")
  }

  function CheckRecovery(spec: Spec, deployment: DeploymentRead): Recovery {
    if spec.targetName.None? then NotRecovered
    else match deployment
      case ReadError => Unknown
      case Conditions(cs) => if Available(cs) then Recovered else NotRecovered
  }

  /** Go's integer division, which truncates toward zero. */
  function GoDiv(a: int, b: int): int
    requires b > 0
  {
    if a >= 0 then a / b else -((-a) / b)
  }

  /** The mean written when scenario `index` reports recovery time `r`. */
  function NextMean(prev: Option<int>, index: nat, r: int): int {
    if prev.Some? && index > 0 then GoDiv(prev.value * index + r, index + 1) else r
  }

  function Cleared(m: Meta): Meta {
    m.(haltReason := None, haltCode := None)
  }

  function Injected(s: Scenario, st: Status, t: int): Status {
    var m := if st.metrics.None? then Metrics(0, None) else st.metrics.value;
    var killed := if s.kind.PodKillType? then m.totalPodsKilled + Count(s) else m.totalPodsKilled;
    st.(injectedAt := Some(t), metrics := Some(m.(totalPodsKilled := killed)))
  }

  /** The dereference of Metrics that advancing performs is guarded by nothing but this. */
  predicate MeanReadable(st: Status) {
    st.recoveredAt.Some? ==> st.metrics.Some?
  }

  function Advanced(st: Status): Status
    requires st.injectedAt.Some? && MeanReadable(st)
  {
    var metrics :=
      if st.recoveredAt.None? then st.metrics
      else
        var m := st.metrics.value;
        var r := st.recoveredAt.value - st.injectedAt.value;
        Some(m.(meanRecoveryTime := Some(NextMean(m.meanRecoveryTime, st.index, r))));
    st.(metrics := metrics, recoveredAt := None, injectedAt := None, index := st.index + 1)
  }

  function Put(st: Status, res: Result): Prog<Call> {
    Perform(PutStatus(Encode(st)), Return(res), Return(Error))
  }

  function RevertIfActive(spec: Spec, st: Status, next: Prog<Call>): Prog<Call> {
    if st.injectedAt.None? || st.index >= |spec.scenarios| then next
    else if spec.scenarios[st.index].kind.OtherType? then Return(Error)
    else Perform(Revert(st.index), next, Return(Error))
  }

  function ClearProg(m: Meta): Prog<Call> {
    Perform(PutMeta(Cleared(m)), Return(Stop), Return(Error))
  }

  function StopProg(o: Object): Prog<Call> {
    Perform(PutStatus(Encode(o.status.(phase := Halted, haltReason := o.meta.haltReason))),
      Perform(CountHalted(o.meta.haltCode), ClearProg(o.meta), Return(Error)),
      Return(Error))
  }

  function HaltProg(spec: Spec, o: Object): Prog<Call> {
    if o.status.phase == Halted then ClearProg(o.meta)
    else RevertIfActive(spec, o.status, StopProg(o))
  }

  function FailProg(st: Status): Prog<Call> {
    Put(st.(phase := Failed), Stop)
  }

  function StampInjectionProg(s: Scenario, st: Status, a: Answers): Prog<Call> {
    Perform(ReadClock(a.stampAt), Put(Injected(s, st, a.stampAt), RequeueAfter(POLL)), Return(Error))
  }

  function InjectProg(s: Scenario, st: Status, a: Answers): Prog<Call> {
    if s.kind.OtherType? then FailProg(st)
    else Perform(Inject(st.index, Count(s)), StampInjectionProg(s, st, a), FailProg(st))
  }

  function StampRecoveryProg(st: Status, a: Answers, poll: Result): Prog<Call> {
    Perform(ReadClock(a.stampAt), Put(st.(recoveredAt := Some(a.stampAt)), poll), Return(Error))
  }

  /** Polling for recovery while the fault is still meant to last `remaining` more. */
  function PollProg(spec: Spec, st: Status, at: int, remaining: int, a: Answers): Prog<Call> {
    var poll := RequeueAfter(Min(POLL, remaining));
    if st.recoveredAt.Some? then Return(poll)
    else
      Perform(ReadClock(a.graceAt),
        if a.graceAt - at < GRACE then Return(poll)
        else match CheckRecovery(spec, a.deployment)
          case Unknown => Return(Error)
          case NotRecovered => Return(poll)
          case Recovered => StampRecoveryProg(st, a, poll),
        Return(Error))
  }

  function Pause(spec: Spec): int {
    if spec.pauseBetween.Some? then spec.pauseBetween.value else SECOND
  }

  function AdvanceProg(spec: Spec, s: Scenario, st: Status): Prog<Call>
    requires st.injectedAt.Some?
  {
    if s.kind.OtherType? then Return(Error)
    else
      Perform(Revert(st.index),
        if MeanReadable(st) then Put(Advanced(st), RequeueAfter(Pause(spec))) else Return(Panic),
        Return(Error))
  }

  function RunningProg(spec: Spec, st: Status, a: Answers): Prog<Call> {
    if st.index >= |spec.scenarios| then Put(st.(phase := Completed), Stop)
    else
      var s := spec.scenarios[st.index];
      if st.injectedAt.None? then InjectProg(s, st, a)
      else
        var at := st.injectedAt.value;
        var remaining := s.duration - (a.elapsedAt - at);
        Perform(ReadClock(a.elapsedAt),
          if remaining > 0 then PollProg(spec, st, at, remaining, a) else AdvanceProg(spec, s, st),
          Return(Error))
  }

  function ReconcileProg(spec: Spec, o: Object, a: Answers): Prog<Call> {
    if o.meta.deleting then
      if !o.meta.finalizer then Return(Stop)
      else
        RevertIfActive(spec, o.status,
          Perform(PutMeta(o.meta.(finalizer := false)), Return(Stop), Return(Error)))
    else if !o.meta.finalizer then
      Perform(PutMeta(o.meta.(finalizer := true)), Return(RequeueAfter(SECOND)), Return(Error))
    else if o.meta.haltReason.Some? then HaltProg(spec, o)
    else match o.status.phase
      case Unset | Pending => Put(o.status.(phase := Running), RequeueAfter(SECOND))
      case Running => RunningProg(spec, o.status, a)
      case Completed | Failed | Halted => Return(Stop)
  }

  function Program(read: Read, a: Answers): Prog<Call> {
    match read
    case NotFound => Return(Stop)
    case ReadFailed => Return(Error)
    case Found(spec, o) => ReconcileProg(spec, o, a)
  }
}
