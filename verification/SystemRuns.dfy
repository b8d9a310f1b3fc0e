/** A breach followed all the way: the watcher has the halt stored, the experiment controller
    halts, and the schedule controller lets go of the run and stops. */
module SystemRuns {
  import opened Wrappers
  import opened Effects
  import opened ChaosSystem
  import A = ScheduleApi
  import E = ExperimentApi
  import Gate
  import EP = ExperimentProgram
  import M = ExperimentMoves
  import P = ScheduleProgram
  import S = ScheduleMachine
  import SR = ScheduleRuns
  import W = Watcher
  import X = ExperimentMachine
  import XR = ExperimentRuns

  lemma {:induction false} Continue(w: World, acts: seq<Action>, a: Action)
    requires Legal(w, acts) && Enabled(Execute(w, acts), a)
    ensures Legal(w, acts + [a]) && Execute(w, acts + [a]) == Step(Execute(w, acts), a)
    decreases |acts|
  {
    hide Step, Enabled;
    if acts == [] {
      assert [a][1..] == [];
    } else {
      Continue(Step(w, acts[0]), acts[1..], a);
      assert (acts + [a])[1..] == acts[1..] + [a];
    }
  }

  /** In `v` experiment `n` is stored as `o` with `halted` halts counted, and the schedule is as
      in `s` but for what it sees of its runs. */
  ghost predicate Stands(v: World, s: S.World, n: A.RunName, spec: E.Spec, o: E.Object, halted: nat) {
    && n in v.exps && v.exps[n].spec == spec && v.exps[n].halted == halted
    && |v.exps[n].hist| > 0 && v.exps[n].hist[|v.exps[n].hist| - 1].obj == o
    && v.sched.hist == s.hist && v.sched.workers == s.workers && v.sched.spec == s.spec && v.sched.now == s.now
  }

  /** And a reconcile of its last version is about to perform `prog`. */
  ghost predicate Performs(v: World, s: S.World, n: A.RunName, spec: E.Spec, o: E.Object, halted: nat,
                           prog: Prog<EP.Call>)
  {
    && Stands(v, s, n, spec, o, halted)
    && 0 in v.exps[n].workers && v.exps[n].workers[0].prog == prog
    && v.exps[n].workers[0].base == |v.exps[n].hist| - 1
  }

  lemma Launch(w: World, acts: seq<Action>, s: S.World, n: A.RunName, spec: E.Spec, o: E.Object, halted: nat,
               a: EP.Answers)
    returns (acts': seq<Action>)
    requires Legal(w, acts) && Stands(Execute(w, acts), s, n, spec, o, halted)
    requires 0 !in Execute(w, acts).exps[n].workers
    ensures Legal(w, acts')
    ensures Performs(Execute(w, acts'), s, n, spec, o, halted, EP.ReconcileProg(spec, o, a))
  {
    hide EP.ReconcileProg, Legal, Execute, Shown;
    var b := OnRun(n, X.Start(0, |Execute(w, acts).exps[n].hist| - 1, a));
    Continue(w, acts, b);
    acts' := acts + [b];
  }

  /** The next call of that reconcile, a revert or the counting of its halt, succeeds. */
  lemma Calls(w: World, acts: seq<Action>, s: S.World, n: A.RunName, spec: E.Spec, o: E.Object, halted: nat,
              prog: Prog<EP.Call>)
    returns (acts': seq<Action>)
    requires Legal(w, acts) && Performs(Execute(w, acts), s, n, spec, o, halted, prog)
    requires prog.Perform? && (prog.call.Revert? || prog.call.CountHalted?)
    ensures Legal(w, acts')
    ensures var more := if prog.call.CountHalted? then 1 else 0;
            Performs(Execute(w, acts'), s, n, spec, o, halted + more, prog.ok)
  {
    hide Legal, Execute, Shown;
    var b := OnRun(n, X.Succeed(0, XR.NOWHERE));
    Continue(w, acts, b);
    acts' := acts + [b];
  }

  /** Its next update succeeds. */
  lemma Puts(w: World, acts: seq<Action>, s: S.World, n: A.RunName, spec: E.Spec, o: E.Object, halted: nat,
             prog: Prog<EP.Call>)
    returns (acts': seq<Action>)
    requires Legal(w, acts) && Performs(Execute(w, acts), s, n, spec, o, halted, prog)
    requires prog.Perform? && X.IsPut(prog.call) && !M.Gone(o)
    ensures Legal(w, acts')
    ensures Performs(Execute(w, acts'), s, n, spec, X.Written(prog.call, o), halted, prog.ok)
  {
    hide Legal, Execute, Shown;
    var b := OnRun(n, X.Succeed(0, XR.NOWHERE));
    Continue(w, acts, b);
    acts' := acts + [b];
  }

  function Halting(o: E.Object): E.Object {
    o.(status := o.status.(phase := E.Halted, haltReason := o.meta.haltReason))
  }

  /** `o` halted for `reason`, with the request consumed. */
  function Stopped(o: E.Object, reason: Option<string>): E.Object {
    E.Object(o.meta.(haltReason := None, haltCode := None), o.status.(phase := E.Halted, haltReason := reason))
  }

  /** A requested halt is carried out by one reconcile. */
  lemma HaltsExperiment(w: World, acts: seq<Action>, s: S.World, n: A.RunName, spec: E.Spec, o: E.Object, halted: nat)
    returns (acts': seq<Action>)
    requires Legal(w, acts) && Stands(Execute(w, acts), s, n, spec, o, halted)
    requires 0 !in Execute(w, acts).exps[n].workers && M.Sound(spec, o)
    requires !o.meta.deleting && o.meta.finalizer && o.meta.haltReason.Some? && o.status.phase != E.Halted
    ensures Legal(w, acts')
    ensures Stands(Execute(w, acts'), s, n, spec, Stopped(o, o.meta.haltReason), halted + 1)
  {
    hide Legal, Execute, Stands, Performs;
    var a := XR.AnswersAt(s.now);
    var p := EP.ReconcileProg(spec, o, a);
    acts' := Launch(w, acts, s, n, spec, o, halted, a);
    M.EncodeStored(o.status);
    if M.Active(o.status) {
      acts' := Calls(w, acts', s, n, spec, o, halted, p);
      p := p.ok;
    }
    assert p == EP.StopProg(o);
    acts' := Puts(w, acts', s, n, spec, o, halted, p);
    acts' := Calls(w, acts', s, n, spec, Halting(o), halted, p.ok);
    acts' := Puts(w, acts', s, n, spec, Halting(o), halted + 1, p.ok.ok);
    PerformsStands(Execute(w, acts'), s, n, spec, X.Written(p.ok.ok.call, Halting(o)), halted + 1, p.ok.ok.ok);
  }

  lemma PerformsStands(v: World, s: S.World, n: A.RunName, spec: E.Spec, o: E.Object, halted: nat, prog: Prog<EP.Call>)
    requires Performs(v, s, n, spec, o, halted, prog)
    ensures Stands(v, s, n, spec, o, halted)
  {
  }

  /** The watcher has a halt stored on the version it read. */
  lemma Requests(w: World, acts: seq<Action>, k: nat, n: A.RunName, spec: E.Spec, o: E.Object, halted: nat,
                 sight: W.Sight)
    returns (acts': seq<Action>)
    requires Legal(w, acts) && Stands(Execute(w, acts), Execute(w, acts).sched, n, spec, o, halted)
    requires Watched(Execute(w, acts), k) == Some(n) && TickSeen(Execute(w, acts), sight).Breach? && !M.Gone(o)
    requires sight.experiment == Some(W.ExperimentRead(|Execute(w, acts).exps[n].hist| - 1, spec.targetName))
    ensures Legal(w, acts')
    ensures var v, v' := Execute(w, acts), Execute(w, acts');
            var tick := TickSeen(v, sight);
            Stands(v', v.sched, n, spec, Asked(o, tick), halted) && v'.exps[n].workers == v.exps[n].workers
  {
    hide Legal, Execute, Shown, TickSeen, W.Counter;
    var a := OnWatch(k, sight, true);
    Continue(w, acts, a);
    acts' := acts + [a];
  }

  lemma FollowHalted(st: A.Status, reason: Option<string>)
    requires S.Sound(st)
    ensures var p := P.FollowProg(st, P.Present(E.Halted, reason));
            var h := st.history.(haltedRuns := st.history.haltedRuns + 1, lastHaltReason := reason);
            && p.Perform? && p.call.PutStatus? && p.ok.Return?
            && p.call.status == st.(phase := A.Phase.Halted, active := None, history := h)
  {
  }

  /** The schedule looks its halted run up, takes over the reason and stops. */
  lemma StopsSchedule(w: World, acts: seq<Action>, n: A.RunName, template: E.Spec, reason: Option<string>,
                      pass: SR.Pass)
    returns (acts': seq<Action>)
    requires Legal(w, acts)
    requires var s := Execute(w, acts).sched;
             && s.workers == map[] && |s.hist| > 0 && n in s.runs && s.runs[n] == S.Run(E.Halted, reason)
             && var o := s.hist[|s.hist| - 1].obj; !o.suspend && S.Held(o.status, n) && S.Sound(o.status)
    ensures Legal(w, acts')
    ensures var v, v' := Execute(w, acts), Execute(w, acts');
            var st := v.sched.hist[|v.sched.hist| - 1].obj.status;
            var h := st.history.(haltedRuns := st.history.haltedRuns + 1, lastHaltReason := reason);
            && v'.exps == v.exps && |v'.sched.hist| == |v.sched.hist| + 1
            && v'.sched.hist[|v.sched.hist|].obj.status == st.(phase := A.Phase.Halted, active := None, history := h)
  {
    var v := Execute(w, acts);
    var k := |v.sched.hist| - 1;
    var o := v.sched.hist[k].obj;
    var seen := P.Present(E.Halted, reason);
    FollowHalted(o.status, reason);
    hide Legal, Execute, P.FollowProg, P.IdleProg, S.Sound;
    acts' := Schedules(w, acts, S.Start(0, k, SR.AnswersAt(v.sched.now, pass).(seen := seen)), template);
    var v1 := Execute(w, acts');
    assert v1.sched.workers[0].prog == Perform(P.Lookup(n, seen), P.FollowProg(o.status, seen), Return(Error));
    hide P.ReconcileProg;
    acts' := Schedules(w, acts', S.Succeed(0), template);
    var v2 := Execute(w, acts');
    assert v2.sched.workers[0].prog == P.FollowProg(o.status, seen);
    acts' := Schedules(w, acts', S.Succeed(0), template);
  }

  lemma Schedules(w: World, acts: seq<Action>, b: S.Action, template: E.Spec) returns (acts': seq<Action>)
    requires Legal(w, acts) && S.Enabled(Execute(w, acts).sched, b) && !Creates(Execute(w, acts).sched, b)
    requires b.Start? || b.Succeed?
    ensures Legal(w, acts')
    ensures var v := Execute(w, acts); Execute(w, acts') == v.(sched := S.Step(v.sched, b))
  {
    hide Legal, Execute, S.Enabled, S.Step, Creates;
    Continue(w, acts, OnSchedule(b, template));
    acts' := acts + [OnSchedule(b, template)];
  }

  /** The schedule and its run `n` are at rest, the run not yet halted or deleted, and the watcher
      has read both as they are and sees a breach. */
  ghost predicate Breached(w: World, n: A.RunName, sight: W.Sight) {
    && w.sched.workers == map[] && |w.sched.hist| > 0
    && (var so := w.sched.hist[|w.sched.hist| - 1].obj; !so.suspend && S.Held(so.status, n))
    && n in w.exps && w.exps[n].workers == map[] && |w.exps[n].hist| > 0
    && (var o := w.exps[n].hist[|w.exps[n].hist| - 1].obj;
        !o.meta.deleting && o.meta.finalizer && o.status.phase != E.Halted)
    && sight.experiment == Some(W.ExperimentRead(|w.exps[n].hist| - 1, w.exps[n].spec.targetName))
    && TickSeen(w, sight).Breach?
  }

  /** Run `n` is stored as `o` halted for `reason`, counted, with the request consumed. */
  ghost predicate HaltedRun(v: World, n: A.RunName, o: E.Object, reason: Option<string>, halted: nat) {
    && n in v.exps && |v.exps[n].hist| > 0 && v.exps[n].halted == halted
    && v.exps[n].hist[|v.exps[n].hist| - 1].obj == Stopped(o, reason)
  }

  /** A breach stops the schedule. From any such reachable state, one visit of the watcher whose
      write is accepted, one reconcile of the experiment and one of the schedule end with the
      run Halted for the reason of the breach, counted once and the request consumed, and the
      schedule Halted, letting go of the run and reporting the reason. */
  lemma BreachStopsSchedule(start: World, acts: seq<Action>, n: A.RunName, sight: W.Sight, pass: SR.Pass)
    returns (acts': seq<Action>)
    requires Initial(start) && Legal(start, acts) && Breached(Execute(start, acts), n, sight)
    ensures Legal(start, acts')
    ensures var w, w' := Execute(start, acts), Execute(start, acts');
            var reason := Some(TickSeen(w, sight).reason);
            var o, st := w.exps[n].hist[|w.exps[n].hist| - 1].obj, w.sched.hist[|w.sched.hist| - 1].obj.status;
            && HaltedRun(w', n, o, reason, w.exps[n].halted + 1)
            && |w'.sched.hist| > 0
            && w'.sched.hist[|w'.sched.hist| - 1].obj.status
               == st.(phase := A.Phase.Halted, active := None,
                      history := st.history.(haltedRuns := st.history.haltedRuns + 1, lastHaltReason := reason))
  {
    var w := Execute(start, acts);
    var reason := Some(TickSeen(w, sight).reason);
    hide Legal, Execute, Initial, TickSeen, M.Sound, S.Sound, HaltedRun;
    acts' := BreachHaltsRun(start, acts, n, sight);
    AtRestSound(w, start, acts, n);
    var v := Execute(start, acts');
    acts' := StopsSchedule(start, acts', n, w.exps[n].spec, reason, pass);
    var o := w.exps[n].hist[|w.exps[n].hist| - 1].obj;
    SameExperiments(v, Execute(start, acts'), n, o, reason, w.exps[n].halted + 1);
  }

  lemma SameExperiments(v: World, v': World, n: A.RunName, o: E.Object, reason: Option<string>, halted: nat)
    requires HaltedRun(v, n, o, reason, halted) && v'.exps == v.exps
    ensures HaltedRun(v', n, o, reason, halted)
  {
  }

  /** `o` with the halt requested that `tick` calls for. */
  function Asked(o: E.Object, tick: Gate.Tick): E.Object
    requires tick.Breach?
  {
    o.(meta := o.meta.(haltReason := Some(tick.reason), haltCode := Some(CodeText(tick.code))))
  }

  lemma BreachedFacts(start: World, acts: seq<Action>, n: A.RunName, sight: W.Sight)
    requires Initial(start) && Legal(start, acts) && Breached(Execute(start, acts), n, sight)
    ensures var w := Execute(start, acts);
            var spec, o, tick := w.exps[n].spec, w.exps[n].hist[|w.exps[n].hist| - 1].obj, TickSeen(w, sight);
            var asked := Asked(o, tick);
            && Stands(w, w.sched, n, spec, o, w.exps[n].halted)
            && Watched(w, |w.sched.hist| - 1) == Some(n) && !M.Gone(o)
            && M.Sound(spec, asked) && !asked.meta.deleting && asked.meta.finalizer
            && asked.meta.haltReason == Some(tick.reason) && asked.status.phase != E.Halted
            && Stopped(asked, Some(tick.reason)) == Stopped(o, Some(tick.reason))
  {
    hide Legal, Execute, Initial, M.Sound;
    var w := Execute(start, acts);
    AtRestSound(w, start, acts, n);
    var o := w.exps[n].hist[|w.exps[n].hist| - 1].obj;
    AskedSound(w.exps[n].spec, o, Asked(o, TickSeen(w, sight)));
  }

  lemma BreachHaltsRun(start: World, acts: seq<Action>, n: A.RunName, sight: W.Sight) returns (acts': seq<Action>)
    requires Initial(start) && Legal(start, acts) && Breached(Execute(start, acts), n, sight)
    ensures Legal(start, acts')
    ensures var w, v := Execute(start, acts), Execute(start, acts');
            var reason := Some(TickSeen(w, sight).reason);
            && HaltedRun(v, n, w.exps[n].hist[|w.exps[n].hist| - 1].obj, reason, w.exps[n].halted + 1)
            && n in v.sched.runs && v.sched.runs[n] == S.Run(E.Halted, reason)
            && v.sched.hist == w.sched.hist && v.sched.workers == w.sched.workers
  {
    hide Legal, Execute, Initial, TickSeen, Stands, Stopped, HaltedRun;
    var w := Execute(start, acts);
    var s, spec, o, halted := w.sched, w.exps[n].spec, w.exps[n].hist[|w.exps[n].hist| - 1].obj, w.exps[n].halted;
    var tick := TickSeen(w, sight);
    var asked := Asked(o, tick);
    BreachedFacts(start, acts, n, sight);
    hide Breached, M.Sound, Asked;
    acts' := Requests(start, acts, |s.hist| - 1, n, spec, o, halted, sight);
    acts' := HaltsExperiment(start, acts', s, n, spec, asked, halted);
    HaltedRunSeen(start, acts', s, n, spec, Some(tick.reason), halted + 1, o);
  }

  lemma AskedSound(spec: E.Spec, o: E.Object, asked: E.Object)
    requires M.Sound(spec, o) && M.Annotates(o, asked) && !M.Gone(o)
    ensures M.Sound(spec, asked)
  {
    M.MoveKeepsSound(spec, o, asked, M.NO_EVIDENCE);
  }

  lemma StandsHere(w: World, n: A.RunName)
    requires n in w.exps && |w.exps[n].hist| > 0
    ensures Stands(w, w.sched, n, w.exps[n].spec, w.exps[n].hist[|w.exps[n].hist| - 1].obj, w.exps[n].halted)
  {
  }

  lemma AtRestSound(w: World, start: World, acts: seq<Action>, n: A.RunName)
    requires Reachable(w, start, acts) && n in w.exps && |w.exps[n].hist| > 0 && |w.sched.hist| > 0
    ensures M.Sound(w.exps[n].spec, w.exps[n].hist[|w.exps[n].hist| - 1].obj)
    ensures S.Sound(w.sched.hist[|w.sched.hist| - 1].obj.status)
  {
    hide Reachable, S.Reachable, X.Reachable, X.Linked, X.AllSound, X.HaltCounted, M.Sound, S.Sound;
    hide AllJustified, Backed;
    ReachableInvariant(w, start, acts);
    assert Faithful(w, n);
    GenuineInvariant(w.exps[n]);
    var s, sacts :| S.Reachable(w.sched, s, sacts);
    S.VersionSound(w.sched, s, sacts);
  }

  /** What the experiment controller stored the schedule can see. */
  lemma HaltedRunSeen(start: World, acts: seq<Action>, s: S.World, n: A.RunName, spec: E.Spec,
                      reason: Option<string>, halted: nat, o: E.Object)
    requires Initial(start) && Legal(start, acts)
    requires !o.meta.deleting
    requires Stands(Execute(start, acts), s, n, spec, Stopped(o, reason), halted)
    ensures var v := Execute(start, acts);
            && n in v.sched.runs && v.sched.runs[n] == S.Run(E.Halted, reason)
            && v.sched.hist == s.hist && v.sched.workers == s.workers
            && HaltedRun(v, n, o, reason, halted)
  {
    hide Legal, Execute, Initial, GenuineRun, GenuineSchedule, AllJustified, Backed, LastAccounted;
    var v := Execute(start, acts);
    ReachableInvariant(v, start, acts);
    assert Faithful(v, n);
  }
}
