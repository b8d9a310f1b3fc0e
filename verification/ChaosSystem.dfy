/** A schedule together with the experiments it creates and the watcher over them: the machines
    side by side on one clock, where a run of the schedule is the experiment as last stored. */
module ChaosSystem {
  import opened Wrappers
  import E = ExperimentApi
  import M = ExperimentMoves
  import X = ExperimentMachine
  import XH = ExperimentHistory
  import XR = ExperimentRuns
  import A = ScheduleApi
  import P = ScheduleProgram
  import S = ScheduleMachine
  import SH = ScheduleHistory
  import SR = ScheduleRuns
  import SG = Safeguards
  import Gate
  import N = Naming
  import W = Watcher

  /** `entries` is what the watcher recorded of this schedule since it started. `requests` are
      the halt requests it had stored, by run and reason, each with what it had recorded then. */
  datatype World = World(
    sched: S.World,
    exps: map<A.RunName, X.World>,
    entries: seq<W.Entry>,
    requests: map<(A.RunName, string), seq<W.Entry>>)

  /** `template` is what a run is created from, if the step creates one; `k` is the version of
      the schedule that the watcher lists. */
  datatype Action =
    | Tick(t: int)
    | OnSchedule(a: S.Action, template: E.Spec)
    | OnRun(name: A.RunName, step: X.Action)
    | OnWatch(k: nat, sight: W.Sight, written: bool)
    | WatcherRestarts

  const THRESHOLD: nat := 3

  /** What the schedule can see of an experiment: nothing once it is gone. */
  function Shown(x: X.World): Option<S.Run> {
    if |x.hist| == 0 || M.Gone(x.hist[|x.hist| - 1].obj) then None
    else Some(S.Run(x.hist[|x.hist| - 1].obj.status.phase, x.hist[|x.hist| - 1].obj.status.haltReason))
  }

  function Show(s: S.World, name: A.RunName, shown: Option<S.Run>): S.World {
    var past := s.past + {(name, S.Look(s.runs, name))};
    if shown.Some? then s.(runs := s.runs[name := shown.value], past := past)
    else if name in s.runs then s.(runs := s.runs - {name}, past := past)
    else s
  }

  function CodeText(code: SG.HaltCode): string {
    match code
    case AlertMatch => "alert-match"
    case SLOBreach => "slo-breach"
    case ReplicaMin => "replica-min"
    case ReplicaMax => "replica-max"
    case Unreachable => "unreachable"
    case ConfigError => "config-error"
  }

  /** A run as the schedule controller creates it. */
  function Fresh(template: E.Spec, now: int): X.World {
    var o := E.Object(E.Meta(false, false, None, None), E.FRESH_STATUS);
    X.World(template, [X.Version(o, now, 0, M.NO_EVIDENCE, X.NO_KILL)], now, [], 0, map[])
  }

  predicate Initial(w: World) {
    S.Initial(w.sched) && w.exps == map[] && w.entries == [] && w.requests == map[]
  }

  predicate Creates(s: S.World, a: S.Action) {
    a.Succeed? && a.id in s.workers && s.workers[a.id].prog.Perform? && s.workers[a.id].prog.call.Create?
  }

  /** The run that version `k` of the schedule names for the watcher to check. */
  function Watched(w: World, k: nat): Option<A.RunName> {
    if k < |w.sched.hist| && w.sched.hist[k].obj.status.phase.Running? then w.sched.hist[k].obj.status.active else None
  }

  function TickSeen(w: World, sight: W.Sight): Gate.Tick {
    Gate.TickOf(w.sched.spec.safeguards, sight.snapshot, W.TargetOf(sight.experiment))
  }

  /** An experiment as it can be read: any version it has had. */
  predicate Readable(w: World, name: A.RunName, read: W.ExperimentRead) {
    && name in w.exps && read.version < |w.exps[name].hist| && read.target == w.exps[name].spec.targetName
  }

  /** The annotations that a halt on this tick writes. */
  function Request(tick: Gate.Tick, version: nat): X.Action {
    if tick.Breach? then X.Annotate(version, tick.reason, CodeText(tick.code))
    else X.Annotate(version, W.UNREACHABLE_REASON, CodeText(SG.Unreachable))
  }

  predicate Enabled(w: World, a: Action) {
    match a
    case Tick(t) => w.sched.now <= t
    case OnSchedule(b, _) => !b.Tick? && !b.RunMoves? && !b.RunDeleted? && S.Enabled(w.sched, b)
    case OnRun(name, b) => !b.Tick? && !b.Annotate? && name in w.exps && X.Enabled(w.exps[name], b)
    case OnWatch(k, sight, written) =>
      var name := Watched(w, k);
      && name.Some?
      && (sight.experiment.Some? ==> Readable(w, name.value, sight.experiment.value))
      && (written ==>
            && sight.experiment.Some?
            && W.Attempts(W.Counter(w.entries), TickSeen(w, sight), THRESHOLD)
            && X.Enabled(w.exps[name.value], Request(TickSeen(w, sight), sight.experiment.value.version)))
    case WatcherRestarts => true
  }

  /** Experiment `name` takes a step, and the schedule sees what comes of it. */
  function StepOf(w: World, name: A.RunName, b: X.Action): World
    requires name in w.exps && X.Enabled(w.exps[name], b)
  {
    var x := X.Step(w.exps[name], b);
    w.(sched := Show(w.sched, name, Shown(x)), exps := w.exps[name := x])
  }

  function Step(w: World, a: Action): World
    requires Enabled(w, a)
  {
    match a
    case Tick(t) => w.(sched := w.sched.(now := t), exps := map n | n in w.exps :: w.exps[n].(now := t))
    case OnSchedule(b, template) =>
      w.(sched := S.Step(w.sched, b),
         exps := if !Creates(w.sched, b) then w.exps
                 else w.exps[w.sched.workers[b.id].prog.call.name := Fresh(template, w.sched.now)])
    case OnRun(name, b) => StepOf(w, name, b)
    case OnWatch(k, sight, written) =>
      var entries := w.entries + [W.Entry(TickSeen(w, sight), written)];
      if !written then w.(entries := entries)
      else
        var name := Watched(w, k).value;
        var b := Request(TickSeen(w, sight), sight.experiment.value.version);
        StepOf(w, name, b).(entries := entries, requests := w.requests[(name, b.reason) := entries])
    case WatcherRestarts => w.(entries := [])
  }

  predicate Legal(w: World, acts: seq<Action>)
    decreases |acts|
  {
    acts == [] || (Enabled(w, acts[0]) && Legal(Step(w, acts[0]), acts[1..]))
  }

  function Execute(w: World, acts: seq<Action>): World
    requires Legal(w, acts)
    decreases |acts|
  {
    if acts == [] then w else Execute(Step(w, acts[0]), acts[1..])
  }

  // ---------- each side is a run of its own machine ----------

  ghost predicate GenuineSchedule(s: S.World) {
    exists start, acts :: S.Reachable(s, start, acts)
  }

  ghost predicate GenuineRun(x: X.World) {
    exists start, acts :: X.Reachable(x, start, acts)
  }

  lemma ScheduleSteps(s: S.World, a: S.Action)
    requires GenuineSchedule(s) && S.Enabled(s, a)
    ensures GenuineSchedule(S.Step(s, a))
  {
    hide S.Enabled, S.Step, S.Legal, S.Execute, S.Initial;
    var start, acts :| S.Reachable(s, start, acts);
    SR.Continue(start, acts, a);
    assert S.Reachable(S.Step(s, a), start, acts + [a]);
  }

  lemma RunSteps(x: X.World, a: X.Action)
    requires GenuineRun(x) && X.Enabled(x, a)
    ensures GenuineRun(X.Step(x, a))
  {
    hide X.Enabled, X.Step, X.Legal, X.Run, X.Initial;
    var start, acts :| X.Reachable(x, start, acts);
    XR.Continue(start, acts, a);
    assert X.Reachable(X.Step(x, a), start, acts + [a]);
  }

  lemma FreshGenuine(template: E.Spec, now: int)
    ensures GenuineRun(Fresh(template, now))
  {
    var x := Fresh(template, now);
    assert X.Legal(x, []) && X.Run(x, []) == x;
    assert X.Reachable(x, x, []);
  }

  lemma InitialGenuine(s: S.World)
    requires S.Initial(s)
    ensures GenuineSchedule(s)
  {
    assert S.Legal(s, []) && S.Execute(s, []) == s;
    assert S.Reachable(s, s, []);
  }

  lemma GenuineInvariant(x: X.World)
    requires GenuineRun(x)
    ensures X.Invariant(x) && |x.hist| > 0
  {
    hide X.AllSound, X.HaltCounted, X.Linked, X.Reachable;
    var start, acts :| X.Reachable(x, start, acts);
    X.ReachableInvariant(x, start, acts);
  }

  // ---------- what an experiment shows ----------

  lemma StepAppends(x: X.World, a: X.Action)
    requires X.Enabled(x, a)
    ensures var x' := X.Step(x, a);
            x'.hist == x.hist || (|x'.hist| == |x.hist| + 1 && x'.hist == x.hist + [x'.hist[|x.hist|]])
  {
  }

  /** An experiment only moves up its phases, and once gone stays gone. */
  lemma ShownMoves(x: X.World, a: X.Action)
    requires X.Invariant(x) && X.Enabled(x, a) && |x.hist| > 0
    ensures var before, after := Shown(x), Shown(X.Step(x, a));
            after.Some? ==> before.Some? && XH.Rank(before.value.phase) <= XH.Rank(after.value.phase)
  {
    hide X.Step, X.Enabled, X.Invariant, M.ControllerMove;
    var x' := X.Step(x, a);
    StepAppends(x, a);
    X.StepInvariant(x, a);
    if x'.hist != x.hist {
      var k := |x.hist|;
      VersionMoved(x', k);
      XH.MoveRank(x'.spec, x'.hist[k - 1].obj, x'.hist[k].obj, x'.hist[k].ev);
    }
  }

  lemma VersionMoved(x: X.World, k: nat)
    requires X.Invariant(x) && 0 < k < |x.hist|
    ensures M.Move(x.spec, x.hist[k - 1].obj, x.hist[k].obj, x.hist[k].ev)
  {
    hide X.AllSound, X.HaltCounted, M.Sound, M.Move, X.Witnessed;
    assert X.LinkedAt(x.spec, x.log, x.hist, k);
  }

  // ---------- where halt reasons come from ----------

  /** Every halt request and every halt reason stored in `o` is among `requests`. */
  predicate Accounted(o: E.Object, name: A.RunName, requests: set<(A.RunName, string)>) {
    && (o.meta.haltReason.Some? ==> (name, o.meta.haltReason.value) in requests)
    && (o.status.haltReason.Some? ==> (name, o.status.haltReason.value) in requests)
  }

  predicate LastAccounted(x: X.World, name: A.RunName, requests: set<(A.RunName, string)>) {
    |x.hist| > 0 && Accounted(x.hist[|x.hist| - 1].obj, name, requests)
  }

  lemma MoveAccounted(spec: E.Spec, o: E.Object, p: E.Object, ev: M.Evidence, name: A.RunName,
                      requests: set<(A.RunName, string)>)
    requires M.ControllerMove(spec, o, p, ev) && Accounted(o, name, requests)
    ensures Accounted(p, name, requests)
  {
  }

  lemma CommitAccounted(x: X.World, id: nat, ok: bool, name: A.RunName, requests: set<(A.RunName, string)>)
    requires X.Invariant(x) && id in x.workers && x.workers[id].prog.Perform? && X.IsPut(x.workers[id].prog.call)
    requires X.Current(x, x.workers[id].base) && LastAccounted(x, name, requests)
    ensures var next := if ok then x.workers[id].prog.ok else x.workers[id].prog.err;
            LastAccounted(X.CommitBy(x, id, next), name, requests)
  {
    hide X.Chain, X.HaltCounted, M.ControllerMove, X.WorkerSound, X.Witnessed;
    var y := x.workers[id];
    var v := X.Version(X.Written(y.prog.call, x.hist[y.base].obj), x.now, |x.log|, y.ev, y.kill);
    X.CommittedWorker(x.spec, x.hist, x.now, x.log, y, v, ok);
    MoveAccounted(x.spec, x.hist[y.base].obj, v.obj, y.ev, name, requests);
  }

  /** Only a request adds a reason; everything the controller stores was requested before. */
  lemma StepAccounted(x: X.World, a: X.Action, name: A.RunName, requests: set<(A.RunName, string)>)
    requires X.Invariant(x) && X.Enabled(x, a) && LastAccounted(x, name, requests)
    ensures LastAccounted(X.Step(x, a), name, requests + if a.Annotate? then {(name, a.reason)} else {})
  {
    hide X.Invariant, X.CommitBy;
    if a.LoseReply? {
      CommitAccounted(x, a.id, false, name, requests);
    } else if a.Succeed? && X.IsPut(x.workers[a.id].prog.call) {
      CommitAccounted(x, a.id, true, name, requests);
    }
  }

  /** Where a run is seen halted, it is for a reason that had been requested of it. */
  predicate SeenJustified(n: A.RunName, seen: P.Seen, requests: set<(A.RunName, string)>) {
    seen.Present? && seen.phase == E.Halted ==> seen.haltReason.Some? && (n, seen.haltReason.value) in requests
  }

  predicate Justified(ev: S.Evidence, requests: set<(A.RunName, string)>) {
    ev.saw.Some? ==> SeenJustified(ev.saw.value.0, ev.saw.value.1, requests)
  }

  predicate AllJustified(s: S.World, requests: set<(A.RunName, string)>) {
    && (forall k :: 0 <= k < |s.hist| ==> Justified(s.hist[k].ev, requests))
    && (forall id :: id in s.workers ==> Justified(s.workers[id].ev, requests))
    && (forall v :: v in s.past ==> SeenJustified(v.0, v.1, requests))
  }

  /** Halted runs show a requested reason. */
  predicate RunsAccounted(runs: map<A.RunName, S.Run>, requests: set<(A.RunName, string)>) {
    forall n :: n in runs && runs[n].phase == E.Halted ==>
      runs[n].haltReason.Some? && (n, runs[n].haltReason.value) in requests
  }

  lemma StepJustified(s: S.World, a: S.Action, requests: set<(A.RunName, string)>)
    requires S.Enabled(s, a) && AllJustified(s, requests) && RunsAccounted(s.runs, requests)
    ensures AllJustified(S.Step(s, a), requests)
  {
  }

  // ---------- the whole ----------

  /** Run `n` is an experiment of its own, and the schedule sees it as it is. */
  ghost predicate Faithful(w: World, n: A.RunName)
    requires n in w.exps
  {
    var x := w.exps[n];
    && GenuineRun(x) && x.now == w.sched.now
    && Shown(x) == (if n in w.sched.runs then Some(w.sched.runs[n]) else None)
    && LastAccounted(x, n, w.requests.Keys)
  }

  ghost predicate Fitting(w: World) {
    && GenuineSchedule(w.sched)
    && (forall n :: n in w.sched.runs ==> n in w.exps)
    && (forall n :: n in w.exps ==> Faithful(w, n))
    && AllJustified(w.sched, w.requests.Keys)
  }

  /** `entries` ends with the tick on which the watcher had a halt for `reason` stored: a breach
      that gave this reason, or the tick that reached the threshold. */
  predicate Warrants(entries: seq<W.Entry>, reason: string) {
    && entries != [] && W.Honest(entries, THRESHOLD)
    && var last := entries[|entries| - 1];
       && last.written
       && if reason == W.UNREACHABLE_REASON then last.tick.Transient?
          else last.tick.Breach? && last.tick.reason == reason
  }

  predicate Backed(w: World) {
    W.Honest(w.entries, THRESHOLD) && forall q :: q in w.requests ==> Warrants(w.requests[q], q.1)
  }

  ghost predicate Invariant(w: World) {
    Fitting(w) && Backed(w)
  }

  lemma InitialInvariant(w: World)
    requires Initial(w)
    ensures Invariant(w)
  {
    InitialGenuine(w.sched);
    W.NothingIsHonest(THRESHOLD);
  }

  lemma LastHaltedHasReason(x: X.World)
    requires GenuineRun(x)
    ensures Shown(x).Some? && Shown(x).value.phase == E.Halted ==> Shown(x).value.haltReason.Some?
  {
    hide X.AllSound, X.HaltCounted, X.Linked, GenuineRun;
    GenuineInvariant(x);
  }

  lemma RunsFitting(w: World)
    requires Fitting(w)
    ensures RunsAccounted(w.sched.runs, w.requests.Keys)
  {
    hide GenuineRun, GenuineSchedule, AllJustified;
    forall n | n in w.sched.runs && w.sched.runs[n].phase == E.Halted
      ensures w.sched.runs[n].haltReason.Some? && (n, w.sched.runs[n].haltReason.value) in w.requests
    {
      assert Faithful(w, n);
      LastHaltedHasReason(w.exps[n]);
    }
  }

  lemma TickFitting(w: World, t: int)
    requires Fitting(w) && w.sched.now <= t
    ensures Fitting(Step(w, Tick(t)))
  {
    hide GenuineRun, GenuineSchedule;
    var w' := Step(w, Tick(t));
    ScheduleSteps(w.sched, S.Tick(t));
    assert w'.sched == S.Step(w.sched, S.Tick(t));
    forall n | n in w'.exps ensures Faithful(w', n) {
      assert Faithful(w, n);
      GenuineInvariant(w.exps[n]);
      TickedRun(w.exps[n], t);
    }
  }

  lemma TickedRun(x: X.World, t: int)
    requires GenuineRun(x) && x.now <= t
    ensures GenuineRun(x.(now := t))
  {
    hide GenuineRun;
    RunSteps(x, X.Tick(t));
  }

  lemma ScheduleStepRuns(s: S.World, a: S.Action)
    requires S.Enabled(s, a) && !a.Tick? && !a.RunMoves? && !a.RunDeleted?
    ensures S.Step(s, a).now == s.now
    ensures !Creates(s, a) ==> S.Step(s, a).runs == s.runs
    ensures Creates(s, a) ==>
              var n := s.workers[a.id].prog.call.name;
              n !in s.runs && S.Step(s, a).runs == s.runs[n := S.Run(E.Unset, None)]
  {
  }

  lemma ScheduleFitting(w: World, a: S.Action, template: E.Spec)
    requires Fitting(w) && Enabled(w, OnSchedule(a, template))
    ensures Fitting(Step(w, OnSchedule(a, template)))
  {
    RunsFitting(w);
    ScheduleSteps(w.sched, a);
    StepJustified(w.sched, a, w.requests.Keys);
    ScheduleStepRuns(w.sched, a);
    FreshGenuine(template, w.sched.now);
    hide GenuineRun, GenuineSchedule, AllJustified, S.Step, S.Enabled;
    var w' := Step(w, OnSchedule(a, template));
    forall n | n in w'.exps ensures Faithful(w', n) {
      if n in w.exps {
        assert Faithful(w, n);
      }
    }
  }

  /** The step of the schedule machine that showing an experiment looks like: a stored change
      moves its run, an experiment that is gone is a run deleted. */
  function ShowsAs(s: S.World, name: A.RunName, shown: Option<S.Run>): Option<S.Action> {
    if shown.Some? then Some(S.RunMoves(name, shown.value))
    else if name in s.runs then Some(S.RunDeleted(name))
    else None
  }

  /** `s'` follows `s` by that step, or is the same. */
  ghost predicate Follows(s: S.World, b: Option<S.Action>, s': S.World) {
    if b.None? then s' == s else S.Enabled(s, b.value) && s' == S.Step(s, b.value)
  }

  lemma ShowFollows(w: World, name: A.RunName, b: X.Action)
    requires Fitting(w) && name in w.exps && X.Enabled(w.exps[name], b)
    ensures var shown := Shown(X.Step(w.exps[name], b));
            Follows(w.sched, ShowsAs(w.sched, name, shown), StepOf(w, name, b).sched)
  {
    hide GenuineRun, X.Invariant, X.Step, X.Enabled, Shown, Follows, Show, ShowsAs, LastAccounted;
    assert Faithful(w, name);
    GenuineInvariant(w.exps[name]);
    ShownMoves(w.exps[name], b);
    ShowSteps(w.sched, name, Shown(X.Step(w.exps[name], b)));
  }

  lemma ShowSteps(s: S.World, name: A.RunName, shown: Option<S.Run>)
    requires shown.Some? ==> name in s.runs && XH.Rank(s.runs[name].phase) <= XH.Rank(shown.value.phase)
    ensures Follows(s, ShowsAs(s, name, shown), Show(s, name, shown))
  {
  }

  lemma FollowsGenuine(s: S.World, b: Option<S.Action>, s': S.World)
    requires GenuineSchedule(s) && Follows(s, b, s')
    ensures GenuineSchedule(s')
  {
    hide GenuineSchedule, S.Step, S.Enabled;
    if b.Some? {
      ScheduleSteps(s, b.value);
    }
  }

  lemma RunStepKeepsTime(x: X.World, a: X.Action)
    requires X.Enabled(x, a) && !a.Tick?
    ensures X.Step(x, a).now == x.now
  {
  }

  lemma MoreRequests(s: S.World, x: X.World, n: A.RunName, r: set<(A.RunName, string)>, r': set<(A.RunName, string)>)
    requires r <= r'
    ensures AllJustified(s, r) ==> AllJustified(s, r')
    ensures LastAccounted(x, n, r) ==> LastAccounted(x, n, r')
  {
  }

  lemma ShowJustified(s: S.World, name: A.RunName, shown: Option<S.Run>, requests: set<(A.RunName, string)>)
    requires AllJustified(s, requests) && RunsAccounted(s.runs, requests)
    ensures AllJustified(Show(s, name, shown), requests)
  {
  }

  lemma StepOfFitting(w: World, name: A.RunName, a: X.Action, w': World)
    requires Fitting(w) && name in w.exps && !a.Tick? && X.Enabled(w.exps[name], a)
    requires w' == StepOf(w, name, a).(entries := w'.entries, requests := w'.requests)
    requires w.requests.Keys + (if a.Annotate? then {(name, a.reason)} else {}) == w'.requests.Keys
    ensures Fitting(w')
  {
    hide GenuineRun, GenuineSchedule, AllJustified, LastAccounted, X.Invariant, X.Step, X.Enabled, Shown, Follows;
    var x := w.exps[name];
    var before, after := w.requests.Keys, w'.requests.Keys;
    assert Faithful(w, name);
    GenuineInvariant(x);
    RunSteps(x, a);
    ShownMoves(x, a);
    StepAccounted(x, a, name, before);
    RunStepKeepsTime(x, a);
    ShowFollows(w, name, a);
    FollowsGenuine(w.sched, ShowsAs(w.sched, name, Shown(X.Step(x, a))), w'.sched);
    RunsFitting(w);
    ShowJustified(w.sched, name, Shown(X.Step(x, a)), before);
    MoreRequests(w'.sched, x, name, before, after);
    forall n | n in w'.exps ensures Faithful(w', n) {
      if n != name {
        assert Faithful(w, n);
        MoreRequests(w.sched, w.exps[n], n, before, after);
      }
    }
  }

  lemma WatchFitting(w: World, k: nat, sight: W.Sight, written: bool)
    requires Fitting(w) && Enabled(w, OnWatch(k, sight, written))
    ensures Fitting(Step(w, OnWatch(k, sight, written)))
  {
    hide Faithful, X.Enabled, X.Step, GenuineSchedule, AllJustified, TickSeen, W.Attempts;
    var w' := Step(w, OnWatch(k, sight, written));
    if written {
      var name := Watched(w, k).value;
      var b := Request(TickSeen(w, sight), sight.experiment.value.version);
      assert w'.requests.Keys == w.requests.Keys + {(name, b.reason)};
      StepOfFitting(w, name, b, w');
    } else {
      SameFitting(w, w');
    }
  }

  lemma SameFitting(w: World, w': World)
    requires Fitting(w) && w' == w.(entries := w'.entries)
    ensures Fitting(w')
  {
    hide GenuineRun, GenuineSchedule, AllJustified, LastAccounted, Shown;
    forall n | n in w'.exps ensures Faithful(w', n) {
      assert Faithful(w, n);
    }
  }

  /** What the watcher has stored it had grounds for. */
  lemma WatchBacked(w: World, k: nat, sight: W.Sight, written: bool)
    requires Backed(w) && Enabled(w, OnWatch(k, sight, written))
    ensures Backed(Step(w, OnWatch(k, sight, written)))
  {
    hide X.Enabled, X.Step, W.Honest, Gate.TickOf;
    var w' := Step(w, OnWatch(k, sight, written));
    var tick := TickSeen(w, sight);
    W.HonestExtended(w.entries, W.Entry(tick, written), THRESHOLD);
    W.BreachReason(w.sched.spec.safeguards, sight.snapshot, W.TargetOf(sight.experiment));
    forall q | q in w'.requests ensures Warrants(w'.requests[q], q.1) {
      if q in w.requests && w'.requests[q] == w.requests[q] {
        assert Warrants(w.requests[q], q.1);
      }
    }
  }

  lemma OthersBacked(w: World, w': World)
    requires Backed(w) && w'.requests == w.requests && (w'.entries == w.entries || w'.entries == [])
    ensures Backed(w')
  {
    W.NothingIsHonest(THRESHOLD);
  }

  lemma StepInvariant(w: World, a: Action)
    requires Invariant(w) && Enabled(w, a)
    ensures Invariant(Step(w, a))
  {
    hide Fitting, Backed, StepOf, X.Enabled, S.Enabled, S.Step;
    match a
    case Tick(t) =>
      TickFitting(w, t);
      OthersBacked(w, Step(w, a));
    case OnSchedule(b, template) =>
      ScheduleFitting(w, b, template);
      OthersBacked(w, Step(w, a));
    case OnRun(name, b) =>
      RunFitting(w, name, b);
      OthersBacked(w, Step(w, a));
    case OnWatch(k, sight, written) =>
      WatchFitting(w, k, sight, written);
      WatchBacked(w, k, sight, written);
    case WatcherRestarts =>
      SameFitting(w, Step(w, a));
      OthersBacked(w, Step(w, a));
  }

  lemma RunFitting(w: World, name: A.RunName, b: X.Action)
    requires Fitting(w) && Enabled(w, OnRun(name, b))
    ensures var w' := Step(w, OnRun(name, b));
            Fitting(w') && w'.requests == w.requests && w'.entries == w.entries
  {
    hide Fitting, X.Enabled, X.Step, Show, Shown;
    var w' := Step(w, OnRun(name, b));
    assert w.requests.Keys + {} == w'.requests.Keys;
    StepOfFitting(w, name, b, w');
  }

  /** The step of the schedule machine that a step of the whole looks like. */
  function SeenAs(w: World, a: Action): Option<S.Action>
    requires Enabled(w, a)
  {
    match a
    case Tick(t) => Some(S.Tick(t))
    case OnSchedule(b, _) => Some(b)
    case OnRun(n, b) => ShowsAs(w.sched, n, Shown(X.Step(w.exps[n], b)))
    case OnWatch(k, sight, written) =>
      if !written then None
      else
        var n := Watched(w, k).value;
        ShowsAs(w.sched, n, Shown(X.Step(w.exps[n], Request(TickSeen(w, sight), sight.experiment.value.version))))
    case WatcherRestarts => None
  }

  /** Each step of the whole is that step of the schedule machine, or leaves the schedule alone;
      and the run that a creation adds is an experiment just created. */
  lemma StepRefines(w: World, a: Action)
    requires Invariant(w) && Enabled(w, a)
    ensures Follows(w.sched, SeenAs(w, a), Step(w, a).sched)
    ensures a.OnSchedule? && Creates(w.sched, a.a) ==>
              var n := w.sched.workers[a.a.id].prog.call.name;
              && n !in w.sched.runs && n in Step(w, a).exps && n in Step(w, a).sched.runs
              && Shown(Step(w, a).exps[n]) == Some(S.Run(E.Unset, None)) == Some(Step(w, a).sched.runs[n])
  {
    hide Fitting;
    match a
    case Tick(_) =>
    case OnSchedule(b, _) =>
      ScheduleStepRuns(w.sched, b);
      hide S.Step, S.Enabled;
    case OnRun(n, b) =>
      ShowFollows(w, n, b);
      hide Follows, ShowsAs, X.Step, X.Enabled, Shown;
    case OnWatch(k, sight, written) =>
      if written {
        hide Follows, ShowsAs, X.Step, X.Enabled, Shown, TickSeen, W.Attempts;
        ShowFollows(w, Watched(w, k).value, Request(TickSeen(w, sight), sight.experiment.value.version));
      }
    case WatcherRestarts =>
  }

  /** Refinement: whatever the two controllers, the watcher and the users do, the schedule makes
      a run of its own machine, every experiment one of its own, and they agree. */
  lemma {:induction false} ExecuteInvariant(w: World, acts: seq<Action>)
    requires Invariant(w) && Legal(w, acts)
    ensures Invariant(Execute(w, acts))
    decreases |acts|
  {
    hide Invariant, Enabled, Step;
    if acts != [] {
      StepInvariant(w, acts[0]);
      ExecuteInvariant(Step(w, acts[0]), acts[1..]);
    }
  }

  ghost predicate Reachable(w: World, start: World, acts: seq<Action>) {
    Initial(start) && Legal(start, acts) && w == Execute(start, acts)
  }

  lemma ReachableInvariant(w: World, start: World, acts: seq<Action>)
    requires Reachable(w, start, acts)
    ensures Invariant(w)
  {
    hide Invariant, Legal, Execute;
    InitialInvariant(start);
    ExecuteInvariant(start, acts);
  }

  // ---------- end to end ----------

  /** What the watcher's code does on one visit is a step, whatever it sees: its counter goes on
      being that of its entries, and a halt write that is accepted is a request on the version
      it read. */
  lemma VisitIsStep(w: World, k: nat, s: W.Schedule, sight: W.Sight, m: map<string, nat>, m': map<string, nat>,
                    writes: seq<W.HaltWrite>, written: bool)
    requires Watched(w, k).Some? && W.Visited(s) && s.config == w.sched.spec.safeguards
    requires s.active == Some(N.ExperimentName(s.name, Watched(w, k).value))
    requires sight.experiment.Some? ==> Readable(w, Watched(w, k).value, sight.experiment.value)
    requires written ==> StoredNow(w, Watched(w, k).value, sight.latest)
    requires W.Get(m, W.Key(s)) == W.Counter(w.entries)
    requires W.Visit(s, W.ReadVersion(sight), sight.latest, W.Observed(s, sight), THRESHOLD, m, m', writes, written)
    ensures var a := OnWatch(k, sight, written);
            && Enabled(w, a)
            && W.Get(m', W.Key(s)) == W.Counter(Step(w, a).entries)
            && (written ==>
                  var n := Watched(w, k).value;
                  && |writes| == 1 && writes[0].experiment == N.ExperimentName(s.name, n)
                  && Stores(Step(w, a), n, sight.latest + 1, writes[0])
                  && Shown(Step(w, a).exps[n]) == Shown(w.exps[n]))
    ensures var tick := W.Observed(s, sight);
            tick.Breach? ==>
              var n := Watched(w, k).value;
              && sight.experiment.Some?
              && writes == [W.HaltWrite(N.ExperimentName(s.name, n), sight.experiment.value.version,
                                        tick.code, tick.reason, written)]
              && (written ==>
                    && Step(w, OnWatch(k, sight, written)).exps[n].hist[sight.latest + 1].obj.meta
                       == w.exps[n].hist[sight.latest].obj.meta.(haltReason := Some(tick.reason),
                                                                 haltCode := Some(CodeText(tick.code)))
                    && |Step(w, OnWatch(k, sight, written)).exps[n].hist| == sight.latest + 2)
  {
    var tick := W.Observed(s, sight);
    NoHaltUnread(w.sched.spec.safeguards, sight.snapshot, W.TargetOf(sight.experiment));
    hide Gate.TickOf, W.Counter;
    assert tick == TickSeen(w, sight);
    CounterGoesOn(w.entries, W.Entry(tick, written));
  }

  lemma CounterGoesOn(entries: seq<W.Entry>, e: W.Entry)
    ensures W.Counter(entries + [e]) == W.After(W.Counter(entries), e.tick, e.written)
  {
    assert (entries + [e])[..|entries|] == entries;
  }

  /** Version `k` of experiment `n` is the stored one. */
  predicate StoredNow(w: World, n: A.RunName, k: nat) {
    n in w.exps && Shown(w.exps[n]).Some? && k + 1 == |w.exps[n].hist|
  }

  /** Version `k` of experiment `n` carries this halt write. */
  predicate Stores(w: World, n: A.RunName, k: nat, h: W.HaltWrite) {
    && n in w.exps && k < |w.exps[n].hist| && (n, h.reason) in w.requests
    && w.exps[n].hist[k].obj.meta.haltReason == Some(h.reason)
    && w.exps[n].hist[k].obj.meta.haltCode == Some(CodeText(h.code))
  }

  lemma NoHaltUnread(config: Option<SG.Config>, snap: SG.Snapshot, experiment: Option<Option<string>>)
    ensures var tick := Gate.TickOf(config, snap, experiment);
            experiment.None? ==> !tick.Breach? && !tick.Transient?
  {
  }

  /** The entries that led to a halt show what it was for: a breach that gave the reason, or as
      many transient ticks as the threshold with no clearing tick among them. */
  ghost predicate Grounds(entries: seq<W.Entry>, reason: string) {
    && entries != [] && entries[|entries| - 1].written
    && if reason == W.UNREACHABLE_REASON then
         exists p :: 0 <= p < |entries| && W.Transients(entries[p..]) >= THRESHOLD
                     && forall i :: p <= i < |entries| - 1 ==> !W.Clears(entries[i])
       else
         entries[|entries| - 1].tick.Breach? && entries[|entries| - 1].tick.reason == reason
  }

  lemma WarrantsGrounds(entries: seq<W.Entry>, reason: string)
    requires Warrants(entries, reason)
    ensures Grounds(entries, reason)
  {
    if reason == W.UNREACHABLE_REASON {
      var p := W.UnreachableNeedsThreshold(entries, THRESHOLD);
    }
  }

  /** From the schedule's status back to the checks: a schedule stopped because its run was
      halted reports a reason that the watcher had stored as a halt request on a run of that
      name, and that the ticks it had recorded gave grounds for. */
  lemma HaltReasonHasGrounds(w: World, start: World, acts: seq<Action>, k: nat)
    requires Reachable(w, start, acts) && 0 < k < |w.sched.hist| && w.sched.hist[k].reason == Some(P.RunHalted)
    ensures var run, reason := w.sched.hist[k - 1].obj.status.active, w.sched.hist[k].obj.status.history.lastHaltReason;
            && run.Some? && reason.Some? && (run.value, reason.value) in w.requests
            && Grounds(w.requests[(run.value, reason.value)], reason.value)
  {
    hide Reachable, S.Reachable, Faithful, S.Sound, Warrants, Grounds;
    ReachableInvariant(w, start, acts);
    var s, sacts :| S.Reachable(w.sched, s, sacts);
    S.VersionLinked(w.sched, s, sacts, k);
    var q := (w.sched.hist[k - 1].obj.status.active.value, w.sched.hist[k].obj.status.history.lastHaltReason.value);
    assert q in w.requests;
    WarrantsGrounds(w.requests[q], q.1);
  }

  /** The experiments a schedule created that are neither over nor gone. */
  function LiveExperiments(w: World): set<A.RunName> {
    set n | n in w.exps && Shown(w.exps[n]).Some? && !XH.Terminal(Shown(w.exps[n]).value.phase)
  }

  /** Experiments with a fault open that nobody has halted yet. */
  function OpenFaults(w: World): set<A.RunName> {
    set n | n in w.exps && Shown(w.exps[n]).Some? && Shown(w.exps[n]).value.phase == E.Running
            && M.Active(w.exps[n].hist[|w.exps[n].hist| - 1].obj.status)
  }

  /** What a schedule counts as a live run is an experiment still going, and conversely. */
  lemma LiveExperimentsAreRuns(w: World)
    requires Fitting(w)
    ensures LiveExperiments(w) == SH.LiveRuns(w.sched)
  {
    hide GenuineRun, GenuineSchedule, AllJustified, LastAccounted, Shown;
    forall n ensures n in LiveExperiments(w) <==> n in SH.LiveRuns(w.sched) {
      if n in w.exps {
        assert Faithful(w, n);
      }
    }
  }

  /** One schedule, one fault at a time: with one reconcile of the schedule at a time, at most
      one of its experiments is still going, let alone has a fault open, beside those paused
      over and those never recorded. */
  lemma OneFaultAtATime(w: World, start: World, acts: seq<Action>)
    requires Reachable(w, start, acts) && |w.sched.workers| <= 1
    ensures |OpenFaults(w)| <= |LiveExperiments(w)| <= 1 + |LiveExperiments(w) * SH.Strays(w.sched)|
  {
    hide Reachable, S.Reachable, Faithful, LiveExperiments, SH.LiveRuns, SH.Strays;
    ReachableInvariant(w, start, acts);
    var s, sacts :| S.Reachable(w.sched, s, sacts);
    SH.RunsAtOnce(w.sched, s, sacts);
    LiveExperimentsAreRuns(w);
    FaultsAreLive(w);
    SH.Subset(OpenFaults(w), LiveExperiments(w));
  }

  lemma FaultsAreLive(w: World)
    ensures OpenFaults(w) <= LiveExperiments(w)
  {
    forall n | n in OpenFaults(w) ensures n in LiveExperiments(w) {
      assert !XH.Terminal(E.Running);
    }
  }
}
