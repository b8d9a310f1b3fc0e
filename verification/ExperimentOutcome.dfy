/** What one reconcile of an experiment does: the calls it makes, in order, with what it puts
    into them, when it gives up and what it returns. */
module ExperimentOutcome {
  import opened Wrappers
  import opened Clock
  import opened Effects
  import opened ExperimentApi
  import opened ExperimentProgram
  import opened ExperimentMoves
  import opened Termination

  /** No answer, no object: nothing is done. */
  lemma UnreadDoes(a: Answers)
    ensures Program(NotFound, a) == Return(Stop) && Program(ReadFailed, a) == Return(Error)
  {
  }

  /** Whether a fault is recorded for a scenario that exists, and the call that reverts it. */
  predicate Faulty(spec: Spec, st: Status) {
    st.injectedAt.Some? && st.index < |spec.scenarios|
  }

  function RevertCall(spec: Spec, st: Status): seq<Call> {
    if Faulty(spec, st) then [Call.Revert(st.index)] else []
  }

  /** A deleted experiment has its fault reverted before its finalizer goes; a fault of a kind
      that cannot be reverted keeps it. */
  lemma DeletedDoes(spec: Spec, o: Object, a: Answers)
    requires o.meta.deleting
    ensures var p, st := ReconcileProg(spec, o, a), o.status;
            if !o.meta.finalizer then Straight(p, [], Stop)
            else if Faulty(spec, st) && !spec.scenarios[st.index].kind.PodKillType? then Straight(p, [], Error)
            else Straight(p, RevertCall(spec, st) + [PutMeta(o.meta.(finalizer := false))], Stop)
  {
  }

  /** Before anything else an experiment gets its finalizer. */
  lemma BareDoes(spec: Spec, o: Object, a: Answers)
    requires !o.meta.deleting && !o.meta.finalizer
    ensures Straight(ReconcileProg(spec, o, a), [PutMeta(o.meta.(finalizer := true))], RequeueAfter(SECOND))
  {
  }

  /** A halt request is consumed; unless the experiment is halted already its fault is reverted
      first, Halted is stored with the requested reason, and the halt is counted by its code. */
  lemma HaltDoes(spec: Spec, o: Object, a: Answers)
    requires !o.meta.deleting && o.meta.finalizer && o.meta.haltReason.Some?
    ensures var p, st := ReconcileProg(spec, o, a), o.status;
            var clear := PutMeta(o.meta.(haltReason := None, haltCode := None));
            var halted := st.(phase := Halted, haltReason := o.meta.haltReason);
            if st.phase == Halted then Straight(p, [clear], Stop)
            else if Faulty(spec, st) && !spec.scenarios[st.index].kind.PodKillType? then Straight(p, [], Error)
            else
              var stop := [PutStatus(Encode(halted)), CountHalted(o.meta.haltCode), clear];
              Straight(p, RevertCall(spec, st) + stop, Stop)
  {
    var st := o.status;
    var put := PutStatus(Encode(st.(phase := Halted, haltReason := o.meta.haltReason)));
    var count, clear := CountHalted(o.meta.haltCode), PutMeta(Cleared(o.meta));
    var counting := Perform(count, ClearProg(o.meta), Return(Error));
    StraightOn(count, ClearProg(o.meta), [clear], Stop);
    StraightOn(put, counting, [count] + [clear], Stop);
    assert [put] + ([count] + [clear]) == [put, count, clear];
    assert Straight(StopProg(o), [put, count, clear], Stop);
    StraightOn(Call.Revert(st.index), StopProg(o), [put, count, clear], Stop);
    assert [] + [put, count, clear] == [put, count, clear];
  }

  /** Nothing asked of it: an experiment begins, completes past its last scenario, and is left
      alone once it is over. */
  lemma PhasesDo(spec: Spec, o: Object, a: Answers)
    requires !o.meta.deleting && o.meta.finalizer && o.meta.haltReason.None?
    ensures var p, st := ReconcileProg(spec, o, a), o.status;
            match st.phase
            case Unset | Pending => Straight(p, [PutStatus(Encode(st.(phase := Running)))], RequeueAfter(SECOND))
            case Running =>
              st.index >= |spec.scenarios| ==> Straight(p, [PutStatus(Encode(st.(phase := Completed)))], Stop)
            case Completed | Failed | Halted => Straight(p, [], Stop)
  {
  }

  /** A Running experiment with scenarios left and nothing asked of it. */
  predicate Busy(spec: Spec, o: Object) {
    && !o.meta.deleting && o.meta.finalizer && o.meta.haltReason.None?
    && o.status.phase == Running && o.status.index < |spec.scenarios|
  }

  /** With no fault open the scenario is injected, with its configured count or one, and then
      recorded with the time read after it and that count added; if it cannot be built or
      fails, Failed is stored instead. */
  lemma InjectionDoes(spec: Spec, o: Object, a: Answers)
    requires Busy(spec, o) && o.status.injectedAt.None?
    ensures var p, st, s := ReconcileProg(spec, o, a), o.status, spec.scenarios[o.status.index];
            var failed := [PutStatus(Encode(st.(phase := Failed)))];
            var count := if s.podKill.Some? then s.podKill.value else 1;
            var killed := if st.metrics.Some? then st.metrics.value.totalPodsKilled else 0;
            var mean := if st.metrics.Some? then st.metrics.value.meanRecoveryTime else None;
            var injected := st.(injectedAt := Some(a.stampAt), metrics := Some(Metrics(killed + count, mean)));
            if s.kind.OtherType? then Straight(p, failed, Stop)
            else
              && p.Perform? && p.call == Inject(st.index, count)
              && Straight(p.err, failed, Stop)
              && Straight(p.ok, [ReadClock(a.stampAt), PutStatus(Encode(injected))], RequeueAfter(5 * SECOND))
  {
  }

  /** While the fault is to last, recovery is looked for until it is first seen, from five
      seconds after the injection on: it is seen exactly if the target is named and one of its
      conditions is Available/True, and then stored with the time read after that. */
  lemma PollDoes(spec: Spec, o: Object, a: Answers)
    requires Busy(spec, o) && o.status.injectedAt.Some?
    requires a.elapsedAt - o.status.injectedAt.value < spec.scenarios[o.status.index].duration
    ensures var p, st := ReconcileProg(spec, o, a), o.status;
            var left := spec.scenarios[st.index].duration - (a.elapsedAt - st.injectedAt.value);
            var wait := RequeueAfter(if left < 5 * SECOND then left else 5 * SECOND);
            var looked := [ReadClock(a.elapsedAt), ReadClock(a.graceAt)];
            if st.recoveredAt.Some? then Straight(p, [ReadClock(a.elapsedAt)], wait)
            else if a.graceAt - st.injectedAt.value < 5 * SECOND || spec.targetName.None? then Straight(p, looked, wait)
            else if a.deployment.ReadError? then Straight(p, looked, Error)
            else if Condition("Available", "True") !in a.deployment.conditions then Straight(p, looked, wait)
            else
              Straight(p, looked + [ReadClock(a.stampAt), PutStatus(Encode(st.(recoveredAt := Some(a.stampAt))))], wait)
  {
    var p, st, c := ReconcileProg(spec, o, a), o.status, ReadClock(a.elapsedAt);
    if st.recoveredAt.None? {
      var stamp := [ReadClock(a.stampAt), PutStatus(Encode(st.(recoveredAt := Some(a.stampAt))))];
      var q := p.ok;
      if a.graceAt - st.injectedAt.value >= 5 * SECOND && CheckRecovery(spec, a.deployment) == Recovered {
        StraightOn(ReadClock(a.graceAt), q.ok, stamp, q.ok.ok.ok.result);
        StraightOn(c, q, [ReadClock(a.graceAt)] + stamp, q.ok.ok.ok.result);
        assert [c] + ([ReadClock(a.graceAt)] + stamp) == [c, ReadClock(a.graceAt)] + stamp;
      }
    }
  }

  /** When it has lasted long enough it is reverted and the next scenario is up, after the
      configured pause or a second; a recovery seen goes into the mean. */
  lemma AdvanceDoes(spec: Spec, o: Object, a: Answers)
    requires Busy(spec, o) && o.status.injectedAt.Some?
    requires a.elapsedAt - o.status.injectedAt.value >= spec.scenarios[o.status.index].duration
    ensures var p, st := ReconcileProg(spec, o, a), o.status;
            var pause := RequeueAfter(if spec.pauseBetween.Some? then spec.pauseBetween.value else SECOND);
            var next := st.(index := st.index + 1, injectedAt := None, recoveredAt := None);
            if spec.scenarios[st.index].kind.OtherType? then Straight(p, [ReadClock(a.elapsedAt)], Error)
            else if st.recoveredAt.None? then
              Straight(p, [ReadClock(a.elapsedAt), Call.Revert(st.index), PutStatus(Encode(next))], pause)
            else if st.metrics.None? then Straight(p, [ReadClock(a.elapsedAt), Call.Revert(st.index)], Panic)
            else
              var m, r := st.metrics.value, st.recoveredAt.value - st.injectedAt.value;
              var mean := if m.meanRecoveryTime.None? || st.index == 0 then r
                          else GoDiv(m.meanRecoveryTime.value * st.index + r, st.index + 1);
              var kept := next.(metrics := Some(m.(meanRecoveryTime := Some(mean))));
              Straight(p, [ReadClock(a.elapsedAt), Call.Revert(st.index), PutStatus(Encode(kept))], pause)
  {
    var p, st := ReconcileProg(spec, o, a), o.status;
    var c, r := ReadClock(a.elapsedAt), Call.Revert(st.index);
    if spec.scenarios[st.index].kind.PodKillType? && MeanReadable(st) {
      var put := p.ok.ok;
      StraightOn(r, put, [put.call], put.ok.result);
      StraightOn(c, p.ok, [r] + [put.call], put.ok.result);
      assert [c] + ([r] + [put.call]) == [c, r, put.call];
    }
  }

  /** The quotient truncates toward zero. */
  lemma GoDivTruncates(a: int, b: int)
    requires b > 0
    ensures var r := a - GoDiv(a, b) * b; -b < r < b && (a >= 0 ==> r >= 0) && (a <= 0 ==> r <= 0)
  {
  }

  /** `o` after these calls. */
  function Stored(o: Object, calls: seq<Call>): Object
    decreases |calls|
  {
    if calls == [] then o
    else match calls[0]
      case PutStatus(st) => Stored(o.(status := st), calls[1..])
      case PutMeta(m) => Stored(o.(meta := m), calls[1..])
      case _ => Stored(o, calls[1..])
  }

  lemma {:induction false} StraightPlay(p: Prog<Call>, calls: seq<Call>, res: Result, o: Object, last: int)
    requires Straight(p, calls, res)
    ensures Play(p, o, last).obj == Stored(o, calls) && Play(p, o, last).result == res
    decreases p
  {
    match p
    case Return(_) =>
    case Perform(c, ok, _) =>
      var q := if c.PutStatus? then o.(status := c.status) else if c.PutMeta? then o.(meta := c.meta) else o;
      StraightPlay(ok, calls[1..], res, q, if c.ReadClock? then c.t else last);
  }

  /** One undisturbed reconcile of an open fault that is still to last and has shown no recovery:
      at or past the grace period the recovery is stored exactly if the target is named, the
      deployment can be read and one of its conditions is Available/True; otherwise the object
      is left as it is, and an unreadable deployment is an error. */
  lemma RecoveryRecorded(spec: Spec, o: Object, a: Answers, start: int)
    requires Sound(spec, o) && Busy(spec, o) && o.status.injectedAt.Some? && o.status.recoveredAt.None?
    requires a.elapsedAt - o.status.injectedAt.value < spec.scenarios[o.status.index].duration
    ensures var e, st := Reconcile(spec, o, a, start), o.status;
            var looks := a.graceAt - st.injectedAt.value >= 5 * SECOND && spec.targetName.Some?;
            var seen := looks && a.deployment.Conditions? && Condition("Available", "True") in a.deployment.conditions;
            && e.obj == (if seen then o.(status := st.(recoveredAt := Some(Trunc(a.stampAt)))) else o)
            && (e.result == Error <==> looks && a.deployment.ReadError?)
  {
    PollDoes(spec, o, a);
    var p, st := ReconcileProg(spec, o, a), o.status;
    var looked := [ReadClock(a.elapsedAt), ReadClock(a.graceAt)];
    var recovered := st.(recoveredAt := Some(a.stampAt));
    var stamp := looked + [ReadClock(a.stampAt), PutStatus(Encode(recovered))];
    EncodeStored(st);
    LookedStores(o, a, Encode(recovered));
    var looks := a.graceAt - st.injectedAt.value >= 5 * SECOND && spec.targetName.Some?;
    hide ReconcileProg;
    if looks && a.deployment.Conditions? && Condition("Available", "True") in a.deployment.conditions {
      var res: Result :| Straight(p, stamp, res) && res != Error;
      StraightPlay(p, stamp, res, o, start);
    } else {
      var res: Result :| Straight(p, looked, res) && (res == Error <==> looks && a.deployment.ReadError?);
      StraightPlay(p, looked, res, o, start);
    }
  }

  lemma LookedStores(o: Object, a: Answers, st: Status)
    ensures var looked := [ReadClock(a.elapsedAt), ReadClock(a.graceAt)];
            && Stored(o, looked) == o
            && Stored(o, looked + [ReadClock(a.stampAt), PutStatus(st)]) == o.(status := st)
  {
    var looked, stamp := [ReadClock(a.elapsedAt), ReadClock(a.graceAt)], [ReadClock(a.stampAt), PutStatus(st)];
    assert (looked + stamp)[1..][1..] == stamp;
    assert stamp[1..] == [PutStatus(st)];
    assert Stored(o, [PutStatus(st)]) == o.(status := st);
    assert Stored(o, stamp) == Stored(o, [PutStatus(st)]);
    assert looked[1..] == [ReadClock(a.graceAt)];
    assert Stored(o, [ReadClock(a.graceAt)]) == o;
  }
}
