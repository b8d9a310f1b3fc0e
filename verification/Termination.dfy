/** A bound on the number of reconciles an undisturbed experiment needs. */
module Termination {
  import opened Wrappers
  import opened Numbers
  import opened Clock
  import opened Effects
  import opened ExperimentApi
  import opened ExperimentProgram
  import opened ExperimentMoves

  /** How a reconcile ends: the stored object, what it returned, and its last clock reading. */
  datatype Ending = Ending(obj: Object, result: Result, last: int)

  /** Carrying out `p` on `o` when every call succeeds. */
  function Play(p: Prog<Call>, o: Object, last: int): Ending
    decreases p
  {
    match p
    case Return(res) => Ending(o, res, last)
    case Perform(PutStatus(st), ok, _) => Play(ok, o.(status := st), last)
    case Perform(PutMeta(m), ok, _) => Play(ok, o.(meta := m), last)
    case Perform(ReadClock(t), ok, _) => Play(ok, o, t)
    case Perform(_, ok, _) => Play(ok, o, last)
  }

  /** `o` after the updates in `trace` from position `from` on. */
  function Applied(o: Object, trace: seq<Event<Call>>, from: nat): Object
    requires from <= |trace|
    decreases |trace| - from
  {
    if from == |trace| then o
    else match trace[from].call
      case PutStatus(st) => Applied(o.(status := st), trace, from + 1)
      case PutMeta(m) => Applied(o.(meta := m), trace, from + 1)
      case _ => Applied(o, trace, from + 1)
  }

  /** An execution in which every call succeeded ends as `Play` says. */
  lemma {:induction false} PlayIsExecution(p: Prog<Call>, o: Object, last: int,
                                           trace: seq<Event<Call>>, from: nat, res: Result)
    requires from <= |trace| && Follows(p, trace, from, res)
    requires forall k :: from <= k < |trace| ==> trace[k].ok
    ensures Play(p, o, last).result == res && Play(p, o, last).obj == Applied(o, trace, from)
    decreases p
  {
    match p
    case Return(_) =>
    case Perform(c, ok, _) =>
      var q := if c.PutStatus? then o.(status := c.status) else if c.PutMeta? then o.(meta := c.meta) else o;
      PlayIsExecution(ok, q, if c.ReadClock? then c.t else last, trace, from + 1, res);
  }

  /** Nobody asks for a halt or a deletion, every scenario is of the supported type. */
  predicate Undisturbed(spec: Spec, o: Object) {
    && Sound(spec, o) && !o.meta.deleting && o.meta.haltReason.None?
    && (forall s <- spec.scenarios :: s.kind.PodKillType?)
  }

  /** The world's answers to one reconcile that starts no earlier than `start`. */
  predicate Timely(a: Answers, start: int) {
    start <= a.elapsedAt <= a.graceAt <= a.stampAt && a.deployment.Conditions?
  }

  /** The earliest the next reconcile may start: the requested delay after the last reading. */
  function NextStart(e: Ending): int {
    if e.result.RequeueAfter? then e.last + Max(0, e.result.delay) else e.last
  }

  function Reconcile(spec: Spec, o: Object, a: Answers, start: int): Ending {
    Play(ReconcileProg(spec, o, a), o, start)
  }

  /** The object after reconciles with these answers, one after the other. */
  function Reconciled(spec: Spec, o: Object, start: int, answers: seq<Answers>): Object
    decreases |answers|
  {
    if answers == [] then o
    else
      var e := Reconcile(spec, o, answers[0], start);
      Reconciled(spec, e.obj, NextStart(e), answers[1..])
  }

  /** Each reconcile runs no earlier than the previous one asked for. */
  predicate Paced(spec: Spec, o: Object, start: int, answers: seq<Answers>)
    decreases |answers|
  {
    answers != [] ==>
      var e := Reconcile(spec, o, answers[0], start);
      Timely(answers[0], start) && Paced(spec, e.obj, NextStart(e), answers[1..])
  }

  /** Ceiling of `d` in polling intervals. */
  function Polls(d: int): nat {
    if d <= 0 then 0 else (d + POLL - 1) / POLL
  }

  function ScenarioBound(s: Scenario): nat {
    var polls := Polls(s.duration);
    if polls + 1 >= 2 then polls + 1 else 2
  }

  function ScenariosBound(scenarios: seq<Scenario>, from: nat): nat
    requires from <= |scenarios|
    decreases |scenarios| - from
  {
    if from == |scenarios| then 0 else ScenarioBound(scenarios[from]) + ScenariosBound(scenarios, from + 1)
  }

  function Bound(spec: Spec): nat {
    3 + ScenariosBound(spec.scenarios, 0)
  }

  /** Reconciles still needed when the next one starts no earlier than `start`. */
  function Needed(spec: Spec, o: Object, start: int): nat
    requires Sound(spec, o)
  {
    var st := o.status;
    var finalizer := if o.meta.finalizer then 0 else 1;
    match st.phase
    case Unset | Pending => finalizer + 2 + ScenariosBound(spec.scenarios, st.index)
    case Running =>
      if Active(st) then
        Polls(spec.scenarios[st.index].duration - (start - st.injectedAt.value))
        + 1 + ScenariosBound(spec.scenarios, st.index + 1) + 1
      else finalizer + ScenariosBound(spec.scenarios, st.index) + 1
    case Completed | Failed | Halted => 0
  }

  lemma PollsMonotone(d: int, e: int)
    requires d <= e
    ensures Polls(d) <= Polls(e)
  {
  }

  /** Waiting for the smaller of one interval and what remains uses up one interval. */
  lemma PollsShrink(d: int)
    requires d > 0
    ensures Polls(d) >= 1 && Polls(d - Min(POLL, d)) == Polls(d) - 1
  {
  }

  predicate Progressing(spec: Spec, o: Object) {
    Undisturbed(spec, o) && o.status.phase != Failed && o.status.phase != Halted
  }

  /** What one reconcile of a progressing experiment achieves. */
  predicate Progressed(spec: Spec, o: Object, start: int, e: Ending) {
    && Progressing(spec, o) && Progressing(spec, e.obj)
    && (o.status.phase == Completed ==> e.obj.status == o.status)
    && (o.status.phase != Completed ==> Needed(spec, e.obj, NextStart(e)) < Needed(spec, o, start))
  }

  lemma PlayPut(o: Object, st: Status, res: Result, last: int)
    ensures Play(Put(st, res), o, last) == Ending(o.(status := Encode(st)), res, last)
  {
  }

  lemma PlayRead(o: Object, t: int, res: Result, last: int)
    ensures Play(Perform(ReadClock(t), Return(res), Return(Error)), o, last) == Ending(o, res, t)
  {
  }

  lemma PlayStamp(o: Object, t: int, st: Status, res: Result, last: int)
    ensures Play(Perform(ReadClock(t), Put(st, res), Return(Error)), o, last)
         == Ending(o.(status := Encode(st)), res, t)
  {
    PlayPut(o, st, res, t);
  }

  lemma InjectProgresses(spec: Spec, o: Object, a: Answers, start: int)
    requires Progressing(spec, o) && Quiet(o) && o.status.phase == Running && !Active(o.status)
    requires o.status.index < |spec.scenarios| && Timely(a, start)
    ensures Progressed(spec, o, start, Reconcile(spec, o, a, start))
  {
    var st := o.status;
    var s := spec.scenarios[st.index];
    assert s in spec.scenarios;
    var q := o.(status := Injected(s, st, Trunc(a.stampAt)));
    assert Encode(Injected(s, st, a.stampAt)) == q.status;
    PlayStamp(o, a.stampAt, Injected(s, st, a.stampAt), RequeueAfter(POLL), start);
    var e := Reconcile(spec, o, a, start);
    assert e == Ending(q, RequeueAfter(POLL), a.stampAt);
    MoveKeepsSound(spec, o, q, Evidence({}, Some(st.index), Some(a.stampAt)));
    hide Sound;
    PollsMonotone(s.duration - (NextStart(e) - q.status.injectedAt.value), s.duration - POLL);
    if s.duration > POLL {
      PollsShrink(s.duration);
    }
  }

  lemma PollProgresses(spec: Spec, o: Object, a: Answers, start: int)
    requires Progressing(spec, o) && Quiet(o) && o.status.phase == Running && Active(o.status)
    requires spec.scenarios[o.status.index].duration - (a.elapsedAt - o.status.injectedAt.value) > 0 && Timely(a, start)
    ensures Progressed(spec, o, start, Reconcile(spec, o, a, start))
  {
    var st := o.status;
    var at := st.injectedAt.value;
    var s := spec.scenarios[st.index];
    var remaining := s.duration - (a.elapsedAt - at);
    var poll := RequeueAfter(Min(POLL, remaining));
    var e := Reconcile(spec, o, a, start);
    var recovers := st.recoveredAt.None? && a.graceAt - at >= GRACE && CheckRecovery(spec, a.deployment) == Recovered;
    if recovers {
      var q := o.(status := st.(recoveredAt := Some(Trunc(a.stampAt))));
      EncodeStored(st);
      PlayStamp(o, a.stampAt, st.(recoveredAt := Some(a.stampAt)), poll, a.graceAt);
      TruncKeepsWhole(a.stampAt, at + GRACE);
      assert Play(PollProg(spec, st, at, remaining, a), o, a.elapsedAt) == Ending(q, poll, a.stampAt);
      assert e == Ending(q, poll, a.stampAt);
      MoveKeepsSound(spec, o, q, Evidence({}, None, Some(a.stampAt)));
    } else {
      var rest := Play(PollProg(spec, st, at, remaining, a), o, a.elapsedAt);
      if st.recoveredAt.None? {
        assert PollProg(spec, st, at, remaining, a) == Perform(ReadClock(a.graceAt), Return(poll), Return(Error));
        PlayRead(o, a.graceAt, poll, a.elapsedAt);
      }
      assert rest == Ending(o, poll, if st.recoveredAt.Some? then a.elapsedAt else a.graceAt);
      assert e == rest;
    }
    hide Sound;
    PollsMonotone(s.duration - (NextStart(e) - at), remaining - Min(POLL, remaining));
    PollsShrink(remaining);
    PollsMonotone(remaining, s.duration - (start - at));
  }

  lemma AdvanceProgresses(spec: Spec, o: Object, a: Answers, start: int)
    requires Progressing(spec, o) && Quiet(o) && o.status.phase == Running && Active(o.status)
    requires spec.scenarios[o.status.index].duration - (a.elapsedAt - o.status.injectedAt.value) <= 0
    requires Timely(a, start)
    ensures Progressed(spec, o, start, Reconcile(spec, o, a, start))
  {
    var st := o.status;
    var s := spec.scenarios[st.index];
    assert s in spec.scenarios;
    var q := o.(status := Advanced(st));
    PlayPut(o, Advanced(st), RequeueAfter(Pause(spec)), a.elapsedAt);
    assert Play(AdvanceProg(spec, s, st), o, a.elapsedAt) == Ending(q, RequeueAfter(Pause(spec)), a.elapsedAt);
    assert Reconcile(spec, o, a, start) == Ending(q, RequeueAfter(Pause(spec)), a.elapsedAt);
    MoveKeepsSound(spec, o, q, Evidence({} + {st.index}, None, Some(a.elapsedAt)));
  }

  /** One reconcile of an undisturbed experiment brings it strictly nearer to completion. */
  lemma ReconcileProgresses(spec: Spec, o: Object, a: Answers, start: int)
    requires Progressing(spec, o) && Timely(a, start)
    ensures Progressed(spec, o, start, Reconcile(spec, o, a, start))
  {
    var st := o.status;
    var e := Reconcile(spec, o, a, start);
    EncodeStored(st);
    if !o.meta.finalizer {
      var q := o.(meta := o.meta.(finalizer := true));
      var put := Perform(PutMeta(q.meta), Return(RequeueAfter(SECOND)), Return(Error));
      assert ReconcileProg(spec, o, a) == put;
      assert Play(put, o, start) == Ending(q, RequeueAfter(SECOND), start);
      assert e == Ending(q, RequeueAfter(SECOND), start);
      MoveKeepsSound(spec, o, q, NO_EVIDENCE);
    } else if st.phase == Unset || st.phase == Pending {
      var q := o.(status := st.(phase := Running));
      PlayPut(o, st.(phase := Running), RequeueAfter(SECOND), start);
      assert e == Ending(q, RequeueAfter(SECOND), start);
      MoveKeepsSound(spec, o, q, NO_EVIDENCE);
    } else if st.phase == Running {
      if st.index >= |spec.scenarios| {
        var q := o.(status := st.(phase := Completed));
        PlayPut(o, st.(phase := Completed), Stop, start);
        MoveKeepsSound(spec, o, q, NO_EVIDENCE);
      } else if !Active(st) {
        InjectProgresses(spec, o, a, start);
      } else if spec.scenarios[st.index].duration - (a.elapsedAt - st.injectedAt.value) > 0 {
        PollProgresses(spec, o, a, start);
      } else {
        AdvanceProgresses(spec, o, a, start);
      }
    }
  }

  lemma {:induction false} EventuallyCompleted(spec: Spec, o: Object, start: int, answers: seq<Answers>)
    requires Progressing(spec, o) && Paced(spec, o, start, answers) && |answers| >= Needed(spec, o, start)
    ensures Reconciled(spec, o, start, answers).status.phase == Completed
    decreases |answers|
  {
    hide Progressing, ReconcileProg, Sound;
    NeededWhileUnfinished(spec, o, start);
    if answers != [] {
      var e := Reconcile(spec, o, answers[0], start);
      ReconcileProgresses(spec, o, answers[0], start);
      CompletedNeedsNothing(spec, o, start, e);
      EventuallyCompleted(spec, e.obj, NextStart(e), answers[1..]);
    }
  }

  lemma NeededWhileUnfinished(spec: Spec, o: Object, start: int)
    requires Progressing(spec, o)
    ensures Sound(spec, o) && (o.status.phase != Completed ==> Needed(spec, o, start) > 0)
  {
  }

  lemma CompletedNeedsNothing(spec: Spec, o: Object, start: int, e: Ending)
    requires Progressed(spec, o, start, e)
    ensures Sound(spec, o) && Sound(spec, e.obj)
    ensures o.status.phase == Completed ==> Needed(spec, e.obj, NextStart(e)) == 0
    ensures o.status.phase != Completed ==> Needed(spec, e.obj, NextStart(e)) < Needed(spec, o, start)
  {
  }

  /** A fresh experiment whose calls all succeed and which nobody disturbs is Completed after
      at most 3 reconciles plus, for every scenario, the larger of 2 and its duration in
      polling intervals plus 1. */
  lemma FreshExperimentCompletes(spec: Spec, start: int, answers: seq<Answers>)
    requires forall s <- spec.scenarios :: s.kind.PodKillType?
    requires var o := Object(Meta(false, false, None, None), FRESH_STATUS);
             Paced(spec, o, start, answers) && |answers| >= Bound(spec)
    ensures var o := Object(Meta(false, false, None, None), FRESH_STATUS);
            Reconciled(spec, o, start, answers).status.phase == Completed
  {
    var o := Object(Meta(false, false, None, None), FRESH_STATUS);
    assert KillsBefore(spec.scenarios, 0) == 0;
    assert Progressing(spec, o);
    EventuallyCompleted(spec, o, start, answers);
  }

  /** One undisturbed reconcile is enough to honour a halt request, which it consumes, and one
      is enough to let a deleted experiment go. */
  lemma StopsInOneReconcile(spec: Spec, o: Object, a: Answers, start: int)
    requires Sound(spec, o) && o.meta.finalizer
    ensures var p := Reconcile(spec, o, a, start).obj;
            && (o.meta.deleting ==> Gone(p) && p.status == o.status)
            && (!o.meta.deleting && o.meta.haltReason.Some? ==>
                  && p.meta.haltReason.None? && p.meta.haltCode.None? && p.status.phase == Halted
                  && p.status.haltReason == if o.status.phase == Halted then o.status.haltReason else o.meta.haltReason)
  {
    EncodeStored(o.status);
    var st := o.status.(phase := Halted, haltReason := o.meta.haltReason);
    var stopped := o.(status := st);
    PlayMeta(o, o.meta.(finalizer := false), Stop, start);
    PlayMeta(o, Cleared(o.meta), Stop, start);
    PlayMeta(stopped, Cleared(o.meta), Stop, start);
    var count := Perform(CountHalted(o.meta.haltCode), ClearProg(o.meta), Return(Error));
    assert Play(count, stopped, start) == Play(ClearProg(o.meta), stopped, start);
    assert Play(StopProg(o), o, start) == Play(count, stopped, start);
  }

  lemma PlayMeta(o: Object, m: Meta, res: Result, last: int)
    ensures Play(Perform(PutMeta(m), Return(res), Return(Error)), o, last) == Ending(o.(meta := m), res, last)
  {
  }
}
