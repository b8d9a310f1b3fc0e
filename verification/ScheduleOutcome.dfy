/** What one reconcile of a schedule does: the calls it makes, in order, with what it puts into
    them, when it gives up and what it returns, and what it leaves stored. */
module ScheduleOutcome {
  import opened Wrappers
  import opened Clock
  import opened Effects
  import opened ScheduleApi
  import opened ScheduleProgram
  import Gate

  lemma UnreadDoes(a: Answers)
    ensures Program(NotFound, a) == Return(Stop) && Program(ReadFailed, a) == Return(Error)
  {
  }

  /** Suspending pauses a schedule in whatever phase, once, and resuming sets it waiting. */
  lemma SuspensionDoes(spec: Spec, o: Object, a: Answers)
    ensures var p, st := ReconcileProg(spec, o, a), o.status;
            && (o.suspend && st.phase != Paused ==>
                  Straight(p, [PutStatus(Encode(st.(phase := Paused)), Suspending)], Stop))
            && (o.suspend && st.phase == Paused ==> Straight(p, [], Stop))
            && (!o.suspend && st.phase == Paused ==>
                  Straight(p, [PutStatus(Encode(st.(phase := Idle)), Resuming)], RequeueAfter(SECOND)))
            && (!o.suspend && (st.phase == Phase.Halted || st.phase == Phase.Completed || st.phase == Phase.Failed) ==>
                  Straight(p, [], Stop))
  {
  }

  predicate Waiting(o: Object) {
    !o.suspend && (o.status.phase == Unset || o.status.phase == Idle)
  }

  /** The tick that follows the last one considered, or the creation. */
  function NextTick(spec: Spec, st: Status): int {
    spec.next(if st.lastScheduleTime.Some? then st.lastScheduleTime.value else spec.created)
  }

  /** A waiting schedule that cannot be read fails; before its tick it comes back exactly then. */
  lemma WaitingDoes(spec: Spec, o: Object, a: Answers)
    requires Waiting(o)
    ensures var p, st := ReconcileProg(spec, o, a), o.status;
            if !spec.timezoneValid || !spec.cronValid then
              Straight(p, [PutStatus(Encode(st.(phase := Phase.Failed)), ScheduleFailed)], Stop)
            else if a.checkedAt < NextTick(spec, st) then
              Straight(p, [ReadClock(a.checkedAt)], RequeueAfter(NextTick(spec, st) - a.checkedAt))
            else p.Perform? && p.call == ReadClock(a.checkedAt) && p.err == Return(Error)
  {
  }

  /** At its tick a schedule without a template fails; the gate failing is tried again; the gate
      closed skips the tick, which is remembered; and the gate open lets a run be created, named
      after the second read then, which is recorded with the time read after it. */
  lemma TickDoes(spec: Spec, o: Object, a: Answers)
    requires Waiting(o) && spec.timezoneValid && spec.cronValid && a.checkedAt >= NextTick(spec, o.status)
    ensures var st, q := o.status, ReconcileProg(spec, o, a).ok;
            var failed := [PutStatus(Encode(st.(phase := Phase.Failed)), ScheduleFailed)];
            if a.template.None? then Straight(q, failed, Stop)
            else match Gate.GateOf(spec.safeguards, a.template.value, a.snapshot)
              case GateFailed => q == Return(Error)
              case Blocked(_) =>
                var skipped := st.(lastScheduleTime := Some(a.stampAt));
                Straight(q, [ReadClock(a.stampAt), PutStatus(Encode(skipped), GateBlocked)], RequeueAfter(SECOND))
              case Open =>
                var run := a.nameAt / SECOND;
                var started := st.(phase := Running, active := Some(run), lastScheduleTime := Some(a.stampAt),
                                   history := st.history.(totalRuns := st.history.totalRuns + 1));
                && q.Perform? && q.call == ReadClock(a.nameAt) && q.err == Return(Error)
                && if !a.ownerSet then q.ok == Return(Error)
                   else
                     && q.ok.Perform? && q.ok.call == Create(run) && Straight(q.ok.err, failed, Stop)
                     && Straight(q.ok.ok, [ReadClock(a.stampAt), PutStatus(Encode(started), RunStarted)],
                                 RequeueAfter(SECOND))
  {
  }

  /** A Running schedule lets go of a run that is over, with the matching count, and of one that
      is gone; it becomes Halted with a halted run, taking over its reason. Otherwise it looks
      again after thirty seconds. Without a run to follow it goes back to waiting. */
  lemma FollowingDoes(spec: Spec, o: Object, a: Answers)
    requires !o.suspend && o.status.phase == Running
    ensures var p, st := ReconcileProg(spec, o, a), o.status;
            var free, h := st.(phase := Idle, active := None), st.history;
            if st.active.None? then
              Straight(p, [PutStatus(Encode(st.(phase := Idle)), Recovering)], RequeueAfter(SECOND))
            else
              var look := Lookup(st.active.value, a.seen);
              var succeeded := free.(history := h.(successfulRuns := h.successfulRuns + 1));
              if a.seen.Absent? then
                Straight(p, [look, PutStatus(Encode(free), RunVanished)], RequeueAfter(SECOND))
              else match a.seen.phase
                case Completed => Straight(p, [look, PutStatus(Encode(succeeded), RunCompleted)], RequeueAfter(SECOND))
                case Failed => Straight(p, [look, PutStatus(Encode(free), RunFailed)], RequeueAfter(SECOND))
                case Halted =>
                  var ended := h.(haltedRuns := h.haltedRuns + 1, lastHaltReason := a.seen.haltReason);
                  var halted := free.(phase := Phase.Halted, history := ended);
                  Straight(p, [look, PutStatus(Encode(halted), RunHalted)], Stop)
                case Unset | Pending | Running => Straight(p, [look], RequeueAfter(30 * SECOND))
  {
  }

  // ---------- what is left stored ----------

  datatype Ending = Ending(status: Status, result: Result)

  /** Carrying out `p` on `st` when every call succeeds. */
  function Play(p: Prog<Call>, st: Status): Ending
    decreases p
  {
    match p
    case Return(res) => Ending(st, res)
    case Perform(PutStatus(t, _), ok, _) => Play(ok, t)
    case Perform(_, ok, _) => Play(ok, st)
  }

  /** `st` after the status updates in `trace` from position `from` on. */
  function Applied(st: Status, trace: seq<Event<Call>>, from: nat): Status
    requires from <= |trace|
    decreases |trace| - from
  {
    if from == |trace| then st
    else Applied(if trace[from].call.PutStatus? then trace[from].call.status else st, trace, from + 1)
  }

  /** An execution in which every call succeeded ends as `Play` says. */
  lemma {:induction false} PlayIsExecution(p: Prog<Call>, st: Status, trace: seq<Event<Call>>, from: nat, res: Result)
    requires from <= |trace| && Follows(p, trace, from, res)
    requires forall k :: from <= k < |trace| ==> trace[k].ok
    ensures Play(p, st) == Ending(Applied(st, trace, from), res)
    decreases p
  {
    match p
    case Return(_) =>
    case Perform(c, ok, _) =>
      PlayIsExecution(ok, if c.PutStatus? then c.status else st, trace, from + 1, res);
  }

  /** A finished run is let go of in one undisturbed reconcile, and one that is going is not:
      what becomes of the phase, the name and the counters of a Running schedule, by what it
      sees of its run. */
  lemma FinishedRunReleased(spec: Spec, o: Object, a: Answers)
    requires !o.suspend && o.status.phase == Running && o.status.active.Some?
    ensures var t, h := Play(ReconcileProg(spec, o, a), o.status).status, o.status.history;
            match a.seen
            case Absent => t.phase == Idle && t.active.None? && t.history == h
            case Present(Completed, _) =>
              t.phase == Idle && t.active.None? && t.history == h.(successfulRuns := h.successfulRuns + 1)
            case Present(Failed, _) => t.phase == Idle && t.active.None? && t.history == h
            case Present(Halted, reason) =>
              && t.phase == Phase.Halted && t.active.None?
              && t.history == h.(haltedRuns := h.haltedRuns + 1, lastHaltReason := reason)
            case Present(_, _) => t == o.status
  {
    var p := ReconcileProg(spec, o, a);
    assert p.call == Lookup(o.status.active.value, a.seen);
    assert Play(p, o.status) == Play(p.ok, o.status);
    if p.ok.Perform? {
      assert Play(p.ok, o.status) == Play(p.ok.ok, p.ok.call.status);
    }
  }

  /** Storing a status cuts its time to whole seconds and leaves the rest. */
  lemma EncodeKeeps(st: Status)
    ensures var t := Encode(st);
            && t == st.(lastScheduleTime := t.lastScheduleTime)
            && (t.lastScheduleTime.Some? <==> st.lastScheduleTime.Some?)
            && (t.lastScheduleTime.Some? ==> t.lastScheduleTime.value == Trunc(st.lastScheduleTime.value))
  {
  }
}
