/** A run of the experiment machine followed to its end, to show what the counters can come to. */
module ExperimentRuns {
  import opened Wrappers
  import opened Numbers
  import opened Clock
  import opened Effects
  import opened ExperimentApi
  import opened ExperimentProgram
  import opened ExperimentMoves
  import opened ExperimentMachine
  import opened PodAccounting
  import P = PodKill

  lemma {:induction false} Continue(w: World, acts: seq<Action>, a: Action)
    requires Legal(w, acts) && Enabled(Run(w, acts), a)
    ensures Legal(w, acts + [a]) && Run(w, acts + [a]) == Step(Run(w, acts), a)
    decreases |acts|
  {
    hide Step, Enabled;
    if acts == [] {
      assert [a][1..] == [];
    } else {
      Continue(Step(w, acts[0]), acts[1..], a);
      assert (acts + [a])[1..] == acts[1..] + [a];
    }
  }

  lemma {:induction false} DeletedOfPrefix(hist: seq<Version>, v: Version, n: nat)
    requires n <= |hist|
    ensures PodsDeleted(hist + [v], n) == PodsDeleted(hist, n)
  {
    if n > 1 {
      DeletedOfPrefix(hist, v, n - 1);
    }
  }

  lemma {:induction false} TollOfPrefix(log: seq<Effect>, e: Effect, n: nat)
    requires n <= |log|
    ensures Deleted(log + [e], n) == Deleted(log, n)
  {
    if n > 0 {
      TollOfPrefix(log, e, n - 1);
    }
  }

  /** Pods deleted by recorded injections, and by all. */
  datatype Tally = Tally(recorded: nat, deleted: nat)

  /** `o` is stored at time `now`, and the pods deleted so far are `tally`. */
  predicate Stored(v: World, spec: Spec, now: int, o: Object, tally: Tally) {
    && v.spec == spec && v.now == now
    && |v.hist| > 0 && v.hist[|v.hist| - 1].obj == o
    && tally == Tally(PodsDeleted(v.hist, |v.hist|), Deleted(v.log, |v.log|))
  }

  /** Nothing is in flight. */
  predicate Resting(v: World, spec: Spec, now: int, o: Object, tally: Tally) {
    Stored(v, spec, now, o, tally) && v.workers == map[]
  }

  /** One reconcile is in flight on the last version, about to perform `prog`; it has itself
      deleted `dead` pods. */
  predicate InFlight(v: World, spec: Spec, now: int, o: Object, tally: Tally, prog: Prog<Call>, dead: nat) {
    && Stored(v, spec, now, o, tally) && v.workers.Keys == {0}
    && v.workers[0].base == |v.hist| - 1 && v.workers[0].prog == prog && v.workers[0].kill.deleted == dead
  }

  lemma Begin(w: World, acts: seq<Action>, t: int, a: Answers, spec: Spec, now: int, o: Object, tally: Tally)
    returns (acts': seq<Action>)
    requires Legal(w, acts) && Resting(Run(w, acts), spec, now, o, tally) && now <= t
    ensures Legal(w, acts') && InFlight(Run(w, acts'), spec, t, o, tally, ReconcileProg(spec, o, a), 0)
  {
    hide ReconcileProg, Legal, Run;
    var a1, a2 := Tick(t), Start(0, |Run(w, acts).hist| - 1, a);
    Continue(w, acts, a1);
    Continue(w, acts + [a1], a2);
    acts' := acts + [a1] + [a2];
  }

  /** A call that neither updates nor injects succeeds. */
  lemma Proceed(w: World, acts: seq<Action>, spec: Spec, now: int, o: Object, tally: Tally, prog: Prog<Call>, dead: nat)
    returns (acts': seq<Action>)
    requires Legal(w, acts) && InFlight(Run(w, acts), spec, now, o, tally, prog, dead)
    requires prog.Perform? && (prog.call.Revert? || prog.call == ReadClock(now))
    ensures Legal(w, acts') && InFlight(Run(w, acts'), spec, now, o, tally, prog.ok, dead)
  {
    hide Legal, Run;
    var a := Succeed(0, NOWHERE);
    Continue(w, acts, a);
    acts' := acts + [a];
    var v := Run(w, acts);
    if prog.call.Revert? {
      TollOfPrefix(v.log, DidRevert(prog.call.index), |v.log|);
    }
  }

  /** What a call that is not an injection meets. */
  const NOWHERE := P.Cluster(false, false, None)

  /** The injection succeeds, or fails after `dead` pods. */
  lemma Shoot(w: World, acts: seq<Action>, cluster: P.Cluster, ok: bool, dead: nat,
              spec: Spec, now: int, o: Object, tally: Tally, prog: Prog<Call>)
    returns (acts': seq<Action>)
    requires Legal(w, acts) && InFlight(Run(w, acts), spec, now, o, tally, prog, 0)
    requires prog.Perform? && prog.call.Inject?
    requires if ok then P.MaySucceed(TargetName(spec), prog.call.count, cluster, dead)
             else P.MayFail(TargetName(spec), prog.call.count, cluster, dead)
    ensures Legal(w, acts')
    ensures InFlight(Run(w, acts'), spec, now, o, tally.(deleted := tally.deleted + dead),
                     if ok then prog.ok else prog.err, if ok then dead else 0)
  {
    hide Legal, Run;
    var v := Run(w, acts);
    var a := if ok then Succeed(0, cluster) else Refuse(0, cluster, dead);
    Continue(w, acts, a);
    acts' := acts + [a];
    var v' := Run(w, acts');
    TollOfPrefix(v.log, v'.log[|v.log|], |v.log|);
  }

  /** The reconcile dies before its next call. */
  lemma Die(w: World, acts: seq<Action>, spec: Spec, now: int, o: Object, tally: Tally, prog: Prog<Call>, dead: nat)
    returns (acts': seq<Action>)
    requires Legal(w, acts) && InFlight(Run(w, acts), spec, now, o, tally, prog, dead)
    ensures Legal(w, acts') && Resting(Run(w, acts'), spec, now, o, tally)
  {
    hide Legal, Run;
    Continue(w, acts, Crash(0));
    acts' := acts + [Crash(0)];
  }

  /** The update that ends a reconcile succeeds. */
  lemma Finish(w: World, acts: seq<Action>, spec: Spec, now: int, o: Object, tally: Tally, prog: Prog<Call>, dead: nat)
    returns (acts': seq<Action>)
    requires Legal(w, acts) && InFlight(Run(w, acts), spec, now, o, tally, prog, dead)
    requires prog.Perform? && IsPut(prog.call) && !Gone(o)
    ensures Legal(w, acts')
    ensures var o' := Written(prog.call, o);
            var more := if !Active(o.status) && Active(o'.status) then dead else 0;
            Resting(Run(w, acts'), spec, now, o', tally.(recorded := tally.recorded + more))
  {
    hide Legal, Run;
    var v := Run(w, acts);
    var a1, a2 := Succeed(0, NOWHERE), Crash(0);
    Continue(w, acts, a1);
    Continue(w, acts + [a1], a2);
    acts' := acts + [a1] + [a2];
    var v' := Run(w, acts');
    assert v'.hist == v.hist + [v'.hist[|v.hist|]];
    DeletedOfPrefix(v.hist, v'.hist[|v.hist|], |v.hist|);
  }

  function AnswersAt(t: int): Answers {
    Answers(t, t, t, ReadError)
  }

  /** A reconcile that makes one update and nothing else. */
  lemma WriteAtOnce(w: World, acts: seq<Action>, spec: Spec, now: int, o: Object, tally: Tally)
    returns (acts': seq<Action>)
    requires Legal(w, acts) && Resting(Run(w, acts), spec, now, o, tally) && !Gone(o)
    requires var p := ReconcileProg(spec, o, AnswersAt(now));
             && p.Perform? && IsPut(p.call) && (!Active(o.status) ==> !Active(Written(p.call, o).status))
    ensures Legal(w, acts')
    ensures Resting(Run(w, acts'), spec, now, Written(ReconcileProg(spec, o, AnswersAt(now)).call, o), tally)
  {
    hide ReconcileProg, Legal, Run, Resting, InFlight;
    var p := ReconcileProg(spec, o, AnswersAt(now));
    acts' := Begin(w, acts, now, AnswersAt(now), spec, now, o, tally);
    acts' := Finish(w, acts', spec, now, o, tally, p, 0);
  }

  // ---------- experiments of one scenario ----------

  predicate OneScenario(spec: Spec) {
    |spec.scenarios| == 1 && spec.scenarios[0].kind.PodKillType?
  }

  /** Just created, with nothing in its metadata. */
  predicate Bare(start: World) {
    Initial(start) && OneScenario(start.spec) && start.hist[0].obj.meta == Meta(false, false, None, None)
  }

  const READY := Meta(false, true, None, None)
  const GOING := FRESH_STATUS.(phase := Running)

  /** An injection that meets `cluster` can succeed. */
  predicate Clear(spec: Spec, cluster: P.Cluster)
    requires OneScenario(spec)
  {
    P.Refusal(TargetName(spec), Count(spec.scenarios[0]), cluster).None?
  }

  /** The pods it then deletes. */
  function Killed(spec: Spec, cluster: P.Cluster): nat
    requires OneScenario(spec) && Clear(spec, cluster)
  {
    Min(Count(spec.scenarios[0]), P.Found(cluster))
  }

  /** The only scenario of `spec` injected at time `now`. */
  function InjectedOnce(spec: Spec, now: int): Status
    requires OneScenario(spec)
  {
    Status(Running, Some(Metrics(Count(spec.scenarios[0]), None)), 0, Some(Trunc(now)), None, None)
  }

  lemma Underway(start: World) returns (acts: seq<Action>)
    requires Bare(start)
    ensures Legal(start, acts)
    ensures Resting(Run(start, acts), start.spec, start.now, Object(READY, GOING), Tally(0, 0))
  {
    var bare := start.hist[0].obj.meta;
    acts := [];
    assert Resting(Run(start, acts), start.spec, start.now, Object(bare, FRESH_STATUS), Tally(0, 0));
    hide Legal, Run;
    acts := WriteAtOnce(start, acts, start.spec, start.now, Object(bare, FRESH_STATUS), Tally(0, 0));
    acts := WriteAtOnce(start, acts, start.spec, start.now, Object(READY, FRESH_STATUS), Tally(0, 0));
  }

  lemma InjectOnce(w: World, acts: seq<Action>, cluster: P.Cluster, spec: Spec, now: int, tally: Tally)
    returns (acts': seq<Action>)
    requires OneScenario(spec) && Clear(spec, cluster)
    requires Legal(w, acts) && Resting(Run(w, acts), spec, now, Object(READY, GOING), tally)
    ensures Legal(w, acts')
    ensures Resting(Run(w, acts'), spec, now, Object(READY, InjectedOnce(spec, now)),
                    Tally(tally.recorded + Killed(spec, cluster), tally.deleted + Killed(spec, cluster)))
  {
    hide Legal, Run, Resting, InFlight;
    var o, a, dead := Object(READY, GOING), AnswersAt(now), Killed(spec, cluster);
    var p := ReconcileProg(spec, o, a);
    var after := tally.(deleted := tally.deleted + dead);
    acts' := Begin(w, acts, now, a, spec, now, o, tally);
    acts' := Shoot(w, acts', cluster, true, dead, spec, now, o, tally, p);
    acts' := Proceed(w, acts', spec, now, o, after, p.ok, dead);
    acts' := Finish(w, acts', spec, now, o, after, p.ok.ok, dead);
  }

  /** The fault of the first scenario, recorded in `st`, is reverted at `t`. */
  lemma AdvanceOnce(w: World, acts: seq<Action>, spec: Spec, now: int, t: int, st: Status, tally: Tally)
    returns (acts': seq<Action>)
    requires OneScenario(spec) && st.phase == Running && st.index == 0 && Active(st) && st.metrics.Some?
    requires now <= t && st.injectedAt.value + spec.scenarios[0].duration <= t
    requires Legal(w, acts) && Resting(Run(w, acts), spec, now, Object(READY, st), tally)
    ensures Legal(w, acts')
    ensures Resting(Run(w, acts'), spec, t, Object(READY, Advanced(st)), tally)
  {
    hide Legal, Run, Resting, InFlight;
    var o, a := Object(READY, st), AnswersAt(t);
    var p := ReconcileProg(spec, o, a);
    acts' := Begin(w, acts, t, a, spec, now, o, tally);
    acts' := Proceed(w, acts', spec, t, o, tally, p, 0);
    acts' := Proceed(w, acts', spec, t, o, tally, p.ok, 0);
    acts' := Finish(w, acts', spec, t, o, tally, p.ok.ok, 0);
  }

  /** Its recovery is seen at `t`. */
  lemma RecoverOnce(w: World, acts: seq<Action>, spec: Spec, now: int, t: int, tally: Tally)
    returns (acts': seq<Action>)
    requires OneScenario(spec) && spec.targetName.Some? && now <= t
    requires 5 * SECOND <= t - Trunc(now) < spec.scenarios[0].duration
    requires Legal(w, acts) && Resting(Run(w, acts), spec, now, Object(READY, InjectedOnce(spec, now)), tally)
    ensures Legal(w, acts')
    ensures Resting(Run(w, acts'), spec, t,
                    Object(READY, InjectedOnce(spec, now).(recoveredAt := Some(Trunc(t)))), tally)
  {
    hide Legal, Run, Resting, InFlight;
    var available := Condition("Available", "True");
    var o, a := Object(READY, InjectedOnce(spec, now)), Answers(t, t, t, Conditions([available]));
    var p := ReconcileProg(spec, o, a);
    assert available in [available] && Available([available]);
    acts' := Begin(w, acts, t, a, spec, now, o, tally);
    acts' := Proceed(w, acts', spec, t, o, tally, p, 0);
    acts' := Proceed(w, acts', spec, t, o, tally, p.ok, 0);
    acts' := Proceed(w, acts', spec, t, o, tally, p.ok.ok, 0);
    TruncKeepsWhole(Trunc(now), Trunc(now));
    acts' := Finish(w, acts', spec, t, o, tally, p.ok.ok.ok, 0);
  }

  /** `w` ends in `phase`, reports `stored` pods killed, and deleted `deleted`. */
  predicate EndsWith(w: World, phase: Phase, stored: int, tally: Tally) {
    && |w.hist| > 0
    && w.hist[|w.hist| - 1].obj.status.phase == phase
    && KillsStored(w.hist[|w.hist| - 1].obj.status) == stored
    && tally == Tally(PodsDeleted(w.hist, |w.hist|), Deleted(w.log, |w.log|))
  }

  /** From its injection on, an experiment of one scenario can run to its end. */
  lemma Conclude(start: World, acts: seq<Action>, cluster: P.Cluster, lost: nat) returns (acts': seq<Action>)
    requires OneScenario(start.spec) && Clear(start.spec, cluster) && Legal(start, acts)
    requires Resting(Run(start, acts), start.spec, start.now, Object(READY, GOING), Tally(0, lost))
    ensures Legal(start, acts')
    ensures var dead := Killed(start.spec, cluster);
            EndsWith(Run(start, acts'), Completed, Count(start.spec.scenarios[0]), Tally(dead, lost + dead))
  {
    var spec, now := start.spec, start.now;
    var dead := Killed(spec, cluster);
    var tally := Tally(dead, lost + dead);
    var t := now + Max(0, spec.scenarios[0].duration);
    hide Legal, Run;
    acts' := InjectOnce(start, acts, cluster, spec, now, Tally(0, lost));
    acts' := AdvanceOnce(start, acts', spec, now, t, InjectedOnce(spec, now), tally);
    acts' := WriteAtOnce(start, acts', spec, t, Object(READY, Advanced(InjectedOnce(spec, now))), tally);
  }

  /** An experiment of one scenario whose injection met `cluster`, from creation to the end:
      it reports the configured count whatever it really killed. */
  lemma OneScenarioRun(start: World, cluster: P.Cluster) returns (acts: seq<Action>)
    requires Bare(start) && Clear(start.spec, cluster)
    ensures Legal(start, acts)
    ensures var dead := Killed(start.spec, cluster);
            EndsWith(Run(start, acts), Completed, Count(start.spec.scenarios[0]), Tally(dead, dead))
  {
    hide Legal, Run, Resting, EndsWith;
    acts := Underway(start);
    acts := Conclude(start, acts, cluster, 0);
  }

  /** With a recovery seen at `t`, from the grace period on and while the fault lasts, its mean
      recovery time is the time from the injection to that, in whole seconds. */
  lemma RecoveredRun(start: World, cluster: P.Cluster, t: int) returns (acts: seq<Action>)
    requires Bare(start) && Clear(start.spec, cluster) && start.spec.targetName.Some?
    requires start.now <= t && 5 * SECOND <= t - Trunc(start.now) < start.spec.scenarios[0].duration
    ensures Legal(start, acts)
    ensures var w, dead := Run(start, acts), Killed(start.spec, cluster);
            && EndsWith(w, Completed, Count(start.spec.scenarios[0]), Tally(dead, dead))
            && w.hist[|w.hist| - 1].obj.status.metrics.Some?
            && w.hist[|w.hist| - 1].obj.status.metrics.value.meanRecoveryTime == Some(Trunc(t) - Trunc(start.now))
  {
    var spec, now := start.spec, start.now;
    var dead := Killed(spec, cluster);
    var tally := Tally(dead, dead);
    var end := Max(t, Trunc(now) + spec.scenarios[0].duration);
    var st := InjectedOnce(spec, now).(recoveredAt := Some(Trunc(t)));
    acts := Underway(start);
    hide Legal, Run;
    acts := InjectOnce(start, acts, cluster, spec, now, Tally(0, 0));
    acts := RecoverOnce(start, acts, spec, now, t, tally);
    acts := AdvanceOnce(start, acts, spec, t, end, st, tally);
    acts := WriteAtOnce(start, acts, spec, end, Object(READY, Advanced(st)), tally);
  }

  /** The same if its first reconcile to inject, having met `lost`, dies before recording it:
      the injection is repeated, its pods are deleted too and reported once. */
  lemma RepeatedRun(start: World, lost: P.Cluster, cluster: P.Cluster) returns (acts: seq<Action>)
    requires Bare(start) && Clear(start.spec, lost) && Clear(start.spec, cluster)
    ensures Legal(start, acts)
    ensures var dead := Killed(start.spec, cluster);
            EndsWith(Run(start, acts), Completed, Count(start.spec.scenarios[0]),
                     Tally(dead, Killed(start.spec, lost) + dead))
  {
    var spec, now, o, a := start.spec, start.now, Object(READY, GOING), AnswersAt(start.now);
    var p, dead := ReconcileProg(spec, o, a), Killed(spec, lost);
    hide Legal, Run, Resting, EndsWith, InFlight;
    acts := Underway(start);
    acts := Begin(start, acts, now, a, spec, now, o, Tally(0, 0));
    acts := Shoot(start, acts, lost, true, dead, spec, now, o, Tally(0, 0), p);
    acts := Die(start, acts, spec, now, o, Tally(0, dead), p.ok, dead);
    acts := Conclude(start, acts, cluster, dead);
  }

  /** An injection that fails after `dead` pods fails the experiment, which reports none. */
  lemma FailedRun(start: World, cluster: P.Cluster, dead: nat) returns (acts: seq<Action>)
    requires Bare(start) && P.MayFail(TargetName(start.spec), Count(start.spec.scenarios[0]), cluster, dead)
    ensures Legal(start, acts) && EndsWith(Run(start, acts), Failed, 0, Tally(0, dead))
  {
    var spec, now, o, a := start.spec, start.now, Object(READY, GOING), AnswersAt(start.now);
    var p := ReconcileProg(spec, o, a);
    hide Legal, Run, InFlight, P.MayFail;
    acts := Underway(start);
    acts := Begin(start, acts, now, a, spec, now, o, Tally(0, 0));
    acts := Shoot(start, acts, cluster, false, dead, spec, now, o, Tally(0, 0), p);
    acts := Finish(start, acts, spec, now, o, Tally(0, dead), p.err, 0);
  }

  // ---------- the documentation fails ----------

  /** An experiment that kills `n` pods of one deployment, just created. */
  function Killing(n: int, duration: int): World {
    var o := Object(Meta(false, false, None, None), FRESH_STATUS);
    World(Spec(Some("web"), [Scenario(PodKillType, duration, Some(n))], None),
          [Version(o, 0, 0, NO_EVIDENCE, NO_KILL)], 0, [], 0, map[])
  }

  function Serving(pods: seq<P.Pod>): P.Cluster {
    P.Cluster(true, true, Some(pods))
  }

  lemma OneRunning(p: P.Pod)
    requires P.IsRunning(p)
    ensures P.RunningPods([p]) == [p]
  {
    assert [p][..0] == [];
  }

  lemma TwoRunning(p: P.Pod, q: P.Pod)
    requires P.IsRunning(p) && P.IsRunning(q)
    ensures P.RunningPods([p, q]) == [p, q]
  {
    OneRunning(p);
    assert [p, q][..1] == [p];
  }

  /** Too high: a scenario of count 2 that finds a single pod running deletes one and reports
      two. */
  lemma OverstatedKills() returns (w: World, start: World, acts: seq<Action>)
    ensures Reachable(w, start, acts) && EndsWith(w, Completed, 2, Tally(1, 1))
  {
    var pod := P.Pod("web-1", "Running");
    OneRunning(pod);
    start := Killing(2, 0);
    acts := OneScenarioRun(start, Serving([pod]));
    w := Run(start, acts);
  }

  /** Too low: a scenario of count 2 that finds two pods running and fails to delete the second
      deletes one and reports none, though no recorded injection found too few. */
  lemma UnreportedKill() returns (w: World, start: World, acts: seq<Action>)
    ensures Reachable(w, start, acts) && EndsWith(w, Failed, 0, Tally(0, 1))
    ensures AllFoundEnough(w.spec, w.hist, |w.hist|)
  {
    var p, q := P.Pod("web-1", "Running"), P.Pod("web-2", "Running");
    TwoRunning(p, q);
    start := Killing(2, 0);
    acts := FailedRun(start, Serving([p, q]), 1);
    w := Run(start, acts);
    RecordedKillsExact(w, start, acts, |w.hist|);
  }

  /** Too low again: an injection repeated because its first commit was lost deletes two pods
      and reports one. */
  lemma RepeatedKill() returns (w: World, start: World, acts: seq<Action>)
    ensures Reachable(w, start, acts) && EndsWith(w, Completed, 1, Tally(1, 2))
    ensures AllFoundEnough(w.spec, w.hist, |w.hist|)
  {
    var p, q := P.Pod("web-1", "Running"), P.Pod("web-2", "Running");
    OneRunning(p);
    OneRunning(q);
    start := Killing(1, 0);
    acts := RepeatedRun(start, Serving([p]), Serving([q]));
    w := Run(start, acts);
    RecordedKillsExact(w, start, acts, |w.hist|);
  }

  /** A mean does get stored: a fault meant to last a minute, whose target is back when looked
      at after ten seconds. */
  lemma RecoveryKept() returns (w: World, start: World, acts: seq<Action>)
    ensures Reachable(w, start, acts) && EndsWith(w, Completed, 1, Tally(1, 1))
    ensures w.hist[|w.hist| - 1].obj.status.metrics == Some(Metrics(1, Some(10 * SECOND)))
  {
    var pod := P.Pod("web-1", "Running");
    OneRunning(pod);
    start := Killing(1, 60 * SECOND);
    acts := RecoveredRun(start, Serving([pod]), 10 * SECOND);
    w := Run(start, acts);
  }
}
