/** Runs of the schedule machine followed step by step, to show that two experiments of one
    schedule can be going at once, and in which ways. */
module ScheduleRuns {
  import opened Wrappers
  import opened Clock
  import opened ScheduleApi
  import opened ScheduleProgram
  import opened ScheduleMachine
  import opened ScheduleHistory
  import E = ExperimentApi
  import SG = Safeguards
  import Effects
  import Gate

  lemma {:induction false} Continue(w: World, acts: seq<Action>, a: Action)
    requires Legal(w, acts) && Enabled(Execute(w, acts), a)
    ensures Legal(w, acts + [a]) && Execute(w, acts + [a]) == Step(Execute(w, acts), a)
    decreases |acts|
  {
    hide Step, Enabled;
    if acts == [] {
      assert [a][1..] == [];
    } else {
      Continue(Step(w, acts[0]), acts[1..], a);
      assert (acts + [a])[1..] == acts[1..] + [a];
    }
  }

  /** What lets a run through: the target of the template and a snapshot the gate opens on. */
  datatype Pass = Pass(target: Option<string>, snapshot: SG.Snapshot)

  predicate Opens(spec: Spec, pass: Pass) {
    Gate.GateOf(spec.safeguards, pass.target, pass.snapshot) == Gate.Open
  }

  function AnswersAt(t: int, pass: Pass): Answers {
    Answers(t, Some(pass.target), pass.snapshot, t, true, t, Absent)
  }

  /** A reconcile of the schedule `o` would fire at `t`. */
  predicate Fires(v: World, o: Object, t: int, pass: Pass) {
    && !o.suspend && Waiting(o.status)
    && v.spec.timezoneValid && v.spec.cronValid && Opens(v.spec, pass)
    && v.spec.next(LastRun(v.spec, o.status)) <= t
    && v.now <= t && NameAt(t) !in v.runs
  }

  lemma Begin(w: World, acts: seq<Action>, k: nat, t: int, a: Answers) returns (acts': seq<Action>)
    requires Legal(w, acts) && Execute(w, acts).workers == map[]
    requires k < |Execute(w, acts).hist| && Execute(w, acts).now <= t
    ensures Legal(w, acts')
    ensures var v := Execute(w, acts);
            var x := Worker(k, t, NO_EVIDENCE, ReconcileProg(v.spec, v.hist[k].obj, a));
            Execute(w, acts') == v.(now := t, workers := map[0 := x])
  {
    hide ReconcileProg, Legal, Execute;
    Continue(w, acts, Tick(t));
    Continue(w, acts + [Tick(t)], Start(0, k, a));
    acts' := acts + [Tick(t)] + [Start(0, k, a)];
  }

  /** The call the reconcile in flight is about to make succeeds. */
  lemma Proceed(w: World, acts: seq<Action>) returns (acts': seq<Action>)
    requires Legal(w, acts) && Enabled(Execute(w, acts), Succeed(0))
    ensures Legal(w, acts') && Execute(w, acts') == Step(Execute(w, acts), Succeed(0))
  {
    Continue(w, acts, Succeed(0));
    acts' := acts + [Succeed(0)];
  }

  /** The only reconcile in flight dies. */
  lemma Forget(w: World, acts: seq<Action>) returns (acts': seq<Action>)
    requires Legal(w, acts) && Execute(w, acts).workers.Keys == {0}
    ensures Legal(w, acts')
    ensures var v := Execute(w, acts);
            Execute(w, acts') == v.(workers := map[], lost := v.lost + Names(v.workers[0].ev.created))
  {
    Continue(w, acts, Crash(0));
    acts' := acts + [Crash(0)];
    assert Execute(w, acts').workers == map[];
  }

  /** One reconcile that writes a status at once, carried out without disturbance. */
  lemma WriteAtOnce(w: World, acts: seq<Action>, st: Status, reason: Reason, res: Effects.Result, a: Answers)
    returns (acts': seq<Action>)
    requires Legal(w, acts)
    requires var v := Execute(w, acts);
             && v.workers == map[] && |v.hist| > 0
             && ReconcileProg(v.spec, v.hist[|v.hist| - 1].obj, a) == Put(st, reason, res)
    ensures Legal(w, acts')
    ensures var v := Execute(w, acts);
            var o := v.hist[|v.hist| - 1].obj;
            var x := Version(o.(status := Encode(st)), v.now, Some(reason), NO_EVIDENCE);
            Execute(w, acts') == v.(hist := v.hist + [x], suspended := v.suspended + PausedOver(o.status, reason))
  {
    hide ReconcileProg, Legal, Execute, Encode;
    var v := Execute(w, acts);
    acts' := Begin(w, acts, |v.hist| - 1, v.now, a);
    acts' := Proceed(w, acts');
    acts' := Forget(w, acts');
    assert v.lost + {} == v.lost;
  }

  lemma Toggle(w: World, acts: seq<Action>) returns (acts': seq<Action>)
    requires Legal(w, acts) && |Execute(w, acts).hist| > 0
    ensures Legal(w, acts') && Execute(w, acts') == Step(Execute(w, acts), ToggleSuspend)
  {
    Continue(w, acts, ToggleSuspend);
    acts' := acts + [ToggleSuspend];
  }

  /** A pause and a resume, undisturbed: the schedule waits again and still names its run. */
  lemma PauseAndResume(w: World, acts: seq<Action>, a: Answers) returns (acts': seq<Action>)
    requires Legal(w, acts)
    requires var v := Execute(w, acts);
             && v.workers == map[] && |v.hist| > 0
             && var o := v.hist[|v.hist| - 1].obj; !o.suspend && o.status.phase == Running && Sound(o.status)
    ensures Legal(w, acts')
    ensures var v, v' := Execute(w, acts), Execute(w, acts');
            var o := v.hist[|v.hist| - 1].obj;
            && |v'.hist| > 0 && v'.hist[|v'.hist| - 1].obj == o.(status := o.status.(phase := Idle))
            && v' == v.(hist := v'.hist, suspended := v.suspended + Names(o.status.active))
  {
    var v := Execute(w, acts);
    var st := v.hist[|v.hist| - 1].obj.status;
    EncodeStored(st);
    hide Legal, Execute, Sound;
    acts' := Toggle(w, acts);
    acts' := WriteAtOnce(w, acts', st.(phase := Paused), Suspending, Effects.Stop, a);
    acts' := Toggle(w, acts');
    acts' := WriteAtOnce(w, acts', st.(phase := Idle), Resuming, Effects.RequeueAfter(SECOND), a);
  }

  /** The world in which a reconcile of version `k` has created its run at `t`, and is about
      to record it. */
  function Fired(v: World, k: nat, t: int, pass: Pass): World
    requires k < |v.hist|
  {
    var prog := StartProg(v.hist[k].obj.status, NameAt(t), AnswersAt(t, pass));
    v.(now := t,
       runs := v.runs[NameAt(t) := Run(E.Unset, None)],
       workers := map[0 := Worker(k, t, Evidence(Some(t), Some(NameAt(t)), None), prog)])
  }

  lemma Fire(w: World, acts: seq<Action>, k: nat, t: int, pass: Pass) returns (acts': seq<Action>)
    requires Legal(w, acts) && Execute(w, acts).workers == map[]
    requires var v := Execute(w, acts); k < |v.hist| && Fires(v, v.hist[k].obj, t, pass)
    ensures Legal(w, acts') && Execute(w, acts') == Fired(Execute(w, acts), k, t, pass)
  {
    hide Legal, Execute;
    var st := Execute(w, acts).hist[k].obj.status;
    acts' := Begin(w, acts, k, t, AnswersAt(t, pass));
    acts' := Proceed(w, acts');
    assert Execute(w, acts').workers[0].prog == NameProg(st, AnswersAt(t, pass));
    acts' := Proceed(w, acts');
    acts' := Proceed(w, acts');
  }

  /** Firing from the last version and recording it. */
  lemma FireAndRecord(w: World, acts: seq<Action>, t: int, pass: Pass) returns (acts': seq<Action>)
    requires Legal(w, acts) && Execute(w, acts).workers == map[]
    requires var v := Execute(w, acts); |v.hist| > 0 && Fires(v, v.hist[|v.hist| - 1].obj, t, pass)
    ensures Legal(w, acts')
    ensures var v, v' := Execute(w, acts), Execute(w, acts');
            var o := v.hist[|v.hist| - 1].obj;
            && |v'.hist| == |v.hist| + 1 && v.hist <= v'.hist
            && v'.hist[|v.hist|].obj == o.(status := Started(o.status, NameAt(t), Trunc(t)))
            && v' == v.(now := t, hist := v'.hist, runs := v.runs[NameAt(t) := Run(E.Unset, None)])
  {
    hide Legal, Execute, Fires;
    var v := Execute(w, acts);
    acts' := Fire(w, acts, |v.hist| - 1, t, pass);
    acts' := Proceed(w, acts');
    acts' := Proceed(w, acts');
    acts' := Forget(w, acts');
    assert v.lost + {} == v.lost && v.suspended + {} == v.suspended;
  }

  /** The exception for runs paused over is needed: from any Running schedule at rest, pausing,
      resuming and waiting for the next tick that the gate lets through starts a second run. */
  lemma PauseAllowsSecondRun(start: World, acts: seq<Action>, name: RunName, t: int, pass: Pass)
    returns (acts': seq<Action>)
    requires Initial(start) && Legal(start, acts)
    requires var w := Execute(start, acts);
             && w.workers == map[] && |w.hist| > 0 && Active(w) == {name} && Live(w.runs, name)
             && var o := w.hist[|w.hist| - 1].obj;
                !o.suspend && Fires(w, o.(status := o.status.(phase := Idle)), t, pass)
    ensures Legal(start, acts')
    ensures var w, w' := Execute(start, acts), Execute(start, acts');
            && {name, NameAt(t)} <= LiveRuns(w') && name != NameAt(t)
            && w'.suspended == w.suspended + {name}
            && w'.lost == w.lost && w'.overlooked == w.overlooked && Doomed(w') == {}
            && w'.workers.Keys == {0}
  {
    var w := Execute(start, acts);
    ReachableInvariant(w, start, acts);
    LastSound(w);
    hide Invariant, Legal, Execute, Initial;
    acts' := PauseAndResume(start, acts, AnswersAt(t, pass));
    acts' := Fire(start, acts', |Execute(start, acts').hist| - 1, t, pass);
  }

  /** So is the one for runs whose recording was lost: from any waiting schedule, creating a
      run, dying before recording it and firing again under another name leaves two. */
  lemma LossAllowsSecondRun(start: World, acts: seq<Action>, t: int, pass: Pass, t': int, pass': Pass)
    returns (acts': seq<Action>)
    requires Initial(start) && Legal(start, acts)
    requires var w := Execute(start, acts);
             && w.workers == map[] && |w.hist| > 0
             && var o := w.hist[|w.hist| - 1].obj;
                Fires(w, o, t, pass) && Fires(w, o, t', pass')
    requires t <= t' && NameAt(t) != NameAt(t')
    ensures Legal(start, acts')
    ensures var w, w' := Execute(start, acts), Execute(start, acts');
            && {NameAt(t), NameAt(t')} <= LiveRuns(w')
            && w'.lost == w.lost + {NameAt(t)}
            && w'.suspended == w.suspended && w'.overlooked == w.overlooked && Doomed(w') == {}
            && w'.workers.Keys == {0}
  {
    hide Legal, Execute, Initial;
    var k := |Execute(start, acts).hist| - 1;
    acts' := Fire(start, acts, k, t, pass);
    acts' := Forget(start, acts');
    acts' := Fire(start, acts', k, t', pass');
  }

  /** And the one for runs whose recording must be refused: a reconcile that still works from
      an old version, written before the schedule came to run, starts a second run too. */
  lemma StaleReadAllowsSecondRun(start: World, acts: seq<Action>, name: RunName, k: nat, t: int, pass: Pass)
    returns (acts': seq<Action>)
    requires Initial(start) && Legal(start, acts)
    requires var w := Execute(start, acts);
             && w.workers == map[] && |w.hist| > 0 && Active(w) == {name} && Live(w.runs, name)
             && k < |w.hist| && Fires(w, w.hist[k].obj, t, pass)
    ensures Legal(start, acts')
    ensures var w, w' := Execute(start, acts), Execute(start, acts');
            && {name, NameAt(t)} <= LiveRuns(w') && name != NameAt(t)
            && Doomed(w') == {NameAt(t)}
            && w'.suspended == w.suspended && w'.lost == w.lost && w'.overlooked == w.overlooked
            && w'.workers.Keys == {0}
  {
    hide Legal, Execute, Initial;
    var w := Execute(start, acts);
    acts' := Fire(start, acts, k, t, pass);
    var w' := Execute(start, acts');
    assert !Current(w', w'.workers[0].base);
    assert NameAt(t) in Doomed(w');
  }

  /** A reconcile whose lookup does not find the run the schedule names lets go of it. */
  lemma Overlook(w: World, acts: seq<Action>, name: RunName, pass: Pass) returns (acts': seq<Action>)
    requires Legal(w, acts)
    requires var v := Execute(w, acts);
             && v.workers == map[] && |v.hist| > 0 && Live(v.runs, name)
             && var o := v.hist[|v.hist| - 1].obj; !o.suspend && Held(o.status, name) && Sound(o.status)
    ensures Legal(w, acts')
    ensures var v, v' := Execute(w, acts), Execute(w, acts');
            && |v'.hist| > 0
            && v'.hist[|v'.hist| - 1].obj == Released(v.hist[|v.hist| - 1].obj)
            && v' == v.(hist := v'.hist, overlooked := v.overlooked + {name})
  {
    var v := Execute(w, acts);
    var o := v.hist[|v.hist| - 1].obj;
    EncodeStored(Released(o).status);
    hide Legal, Execute, Sound;
    acts' := Begin(w, acts, |v.hist| - 1, v.now, AnswersAt(v.now, pass));
    acts' := Proceed(w, acts');
    assert Execute(w, acts').workers[0].prog == FollowProg(o.status, Absent);
    acts' := Proceed(w, acts');
    acts' := Forget(w, acts');
    assert v.lost + {} == v.lost && v.suspended + {} == v.suspended;
  }

  function Released(o: Object): Object {
    o.(status := o.status.(phase := Idle, active := None))
  }

  /** And the one for runs overlooked: a lookup answered from a cache that does not hold the
      run yet makes the schedule let go of it, and its next tick starts a second one. */
  lemma StaleLookupAllowsSecondRun(start: World, acts: seq<Action>, name: RunName, t: int, pass: Pass)
    returns (acts': seq<Action>)
    requires Initial(start) && Legal(start, acts)
    requires var w := Execute(start, acts);
             && w.workers == map[] && |w.hist| > 0 && Active(w) == {name} && Live(w.runs, name)
             && var o := w.hist[|w.hist| - 1].obj; !o.suspend && Fires(w, Released(o), t, pass)
    ensures Legal(start, acts')
    ensures var w, w' := Execute(start, acts), Execute(start, acts');
            && {name, NameAt(t)} <= LiveRuns(w') && name != NameAt(t)
            && w'.overlooked == w.overlooked + {name}
            && w'.suspended == w.suspended && w'.lost == w.lost && Doomed(w') == {}
            && w'.workers.Keys == {0}
  {
    var w := Execute(start, acts);
    ReachableInvariant(w, start, acts);
    LastSound(w);
    ActiveHeld(w, name);
    hide Invariant, Legal, Execute, Initial;
    acts' := Overlook(start, acts, name, pass);
    acts' := Fire(start, acts', |Execute(start, acts').hist| - 1, t, pass);
  }

  lemma ActiveHeld(w: World, name: RunName)
    requires |w.hist| > 0 && Active(w) == {name}
    ensures Held(w.hist[|w.hist| - 1].obj.status, name)
  {
    assert name in Active(w);
  }

  /** `t` is `s` after letting go of a run seen like this. */
  predicate LetGo(s: Status, t: Status, seen: Seen) {
    && t.active.None? && t.lastScheduleTime == s.lastScheduleTime
    && if seen.Absent? || seen.phase == E.Failed then t.phase == Idle && t.history == s.history
       else if seen.phase == E.Completed then
         t.phase == Idle && t.history == s.history.(successfulRuns := s.history.successfulRuns + 1)
       else
         && t.phase == Phase.Halted
         && t.history == s.history.(haltedRuns := s.history.haltedRuns + 1, lastHaltReason := seen.haltReason)
  }

  lemma FollowOver(w: World, acts: seq<Action>, name: RunName, pass: Pass) returns (acts': seq<Action>)
    requires Legal(w, acts)
    requires var v := Execute(w, acts);
             && v.workers == map[] && |v.hist| > 0 && !Live(v.runs, name)
             && var o := v.hist[|v.hist| - 1].obj; !o.suspend && Held(o.status, name) && Sound(o.status)
    ensures Legal(w, acts')
    ensures var v, v' := Execute(w, acts), Execute(w, acts');
            && |v'.hist| == |v.hist| + 1 && v' == v.(hist := v'.hist)
            && var o, o' := v.hist[|v.hist| - 1].obj, v'.hist[|v.hist|].obj;
               !o'.suspend && LetGo(o.status, o'.status, Look(v.runs, name))
  {
    var v := Execute(w, acts);
    var o, seen := v.hist[|v.hist| - 1].obj, Look(v.runs, name);
    OverProg(o.status, seen);
    hide Legal, Execute, Sound, FollowProg, LetGo, IdleProg, Put;
    acts' := Begin(w, acts, |v.hist| - 1, v.now, AnswersAt(v.now, pass).(seen := seen));
    acts' := Proceed(w, acts');
    var v1 := Execute(w, acts');
    assert v1.workers[0].prog == FollowProg(o.status, seen);
    assert v1.overlooked == v.overlooked + {} == v.overlooked;
    acts' := Proceed(w, acts');
    acts' := Forget(w, acts');
    assert v.lost + {} == v.lost && v.suspended + {} == v.suspended;
  }

  lemma OverProg(st: Status, seen: Seen)
    requires Sound(st) && Dead(seen)
    ensures var p := FollowProg(st, seen);
            && p.Perform? && p.call.PutStatus? && p.call.reason != Suspending && p.ok.Return?
            && LetGo(st, p.call.status, seen)
  {
  }

  /** A finished run does get released: from any reachable schedule at rest whose run is over or
      gone, one reconcile that looks it up as it is lets go of it and counts it. */
  lemma FinishedRunLetGo(start: World, acts: seq<Action>, name: RunName, pass: Pass) returns (acts': seq<Action>)
    requires Initial(start) && Legal(start, acts)
    requires var w := Execute(start, acts);
             && w.workers == map[] && |w.hist| > 0 && Active(w) == {name} && !Live(w.runs, name)
             && !w.hist[|w.hist| - 1].obj.suspend
    ensures Legal(start, acts')
    ensures var w, w' := Execute(start, acts), Execute(start, acts');
            && |w'.hist| == |w.hist| + 1 && w' == w.(hist := w'.hist)
            && LetGo(w.hist[|w.hist| - 1].obj.status, w'.hist[|w.hist|].obj.status, Look(w.runs, name))
  {
    var w := Execute(start, acts);
    ReachableInvariant(w, start, acts);
    LastSound(w);
    ActiveHeld(w, name);
    hide Invariant, Legal, Execute, Initial, LetGo;
    acts' := FollowOver(start, acts, name, pass);
  }

  /** With a single reconcile in flight, two runs are going. */
  predicate Doubled(w: World) {
    w.workers.Keys == {0} && |LiveRuns(w)| >= 2
  }

  lemma TwoLive(w: World, m: RunName, n: RunName)
    requires w.workers.Keys == {0} && m != n && {m, n} <= LiveRuns(w)
    ensures Doubled(w)
  {
    Subset({m, n}, LiveRuns(w));
  }

  /** A schedule just created whose first two ticks, at `t` and `t'`, the gate lets through. */
  predicate TicksTwice(start: World, t: int, t': int, pass: Pass) {
    && Initial(start)
    && Fires(start, start.hist[0].obj, t, pass) && start.spec.next(Trunc(t)) <= t'
    && start.spec.next(start.spec.created) <= t' && t <= t' && NameAt(t) != NameAt(t')
  }

  /** The four ways for a run to go on beside the one a schedule follows. */
  datatype Cause = Pause | Loss | StaleRead | StaleLookup

  /** No run went astray in any other way than this. */
  predicate OnlyBy(w: World, why: Cause) {
    && (why != Pause ==> w.suspended == {})
    && (why != Loss ==> w.lost == {})
    && (why != StaleRead ==> Doomed(w) == {})
    && (why != StaleLookup ==> w.overlooked == {})
  }

  /** Each exception really occurs, from the creation of the schedule on and by itself. */
  lemma TwoRunsReached(start: World, t: int, t': int, pass: Pass, why: Cause) returns (acts: seq<Action>)
    requires TicksTwice(start, t, t', pass)
    ensures Legal(start, acts) && Doubled(Execute(start, acts)) && OnlyBy(Execute(start, acts), why)
  {
    LegalNothing(start);
    hide Legal, Execute, LiveRuns, Doubled, Doomed;
    if why == Loss {
      acts := LossAllowsSecondRun(start, [], t, pass, t', pass);
    } else {
      acts := FireAndRecord(start, [], t, pass);
      match why
      case Pause => acts := PauseAllowsSecondRun(start, acts, NameAt(t), t', pass);
      case StaleRead => acts := StaleReadAllowsSecondRun(start, acts, NameAt(t), 0, t', pass);
      case StaleLookup => acts := StaleLookupAllowsSecondRun(start, acts, NameAt(t), t', pass);
    }
    TwoLive(Execute(start, acts), NameAt(t), NameAt(t'));
  }

  /** Such schedules exist: one without safeguards that fires every minute. */
  lemma EveryMinute() returns (start: World, t: int, t': int, pass: Pass)
    ensures TicksTwice(start, t, t', pass)
  {
    var minute := 60 * SECOND;
    var spec := Spec(true, true, t => t - t % minute + minute, 0, None);
    var silent := SG.Snapshot(_ => false, _ => SG.AlertsFailed, (_, _) => SG.QueryFailed, _ => SG.DeploymentFailed);
    start := World(spec, [Version(Object(false, FRESH_STATUS), 0, None, NO_EVIDENCE)], 0,
                   map[], map[], {}, {}, {}, {});
    t, t', pass := minute, 2 * minute, Pass(None, silent);
  }

  lemma LegalNothing(w: World)
    ensures Legal(w, []) && Execute(w, []) == w
  {
  }
}
