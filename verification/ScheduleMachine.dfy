/** One stored schedule, any number of reconciles in flight on it, its users toggling
    `suspend`, and the runs it created, which live on by themselves. */
module ScheduleMachine {
  import opened Wrappers
  import opened Clock
  import opened Effects
  import opened ScheduleApi
  import opened ScheduleProgram
  import E = ExperimentApi
  import H = ExperimentHistory

  /** What a reconcile has done since its read: latest clock reading, run created, run looked up. */
  datatype Evidence = Evidence(read: Option<int>, created: Option<RunName>, saw: Option<(RunName, Seen)>)

  const NO_EVIDENCE := Evidence(None, None, None)

  datatype Run = Run(phase: E.Phase, haltReason: Option<string>)

  /** A version, its commit time, the reason it was written (None for a user's edit) and what
      its writer had done. */
  datatype Version = Version(obj: Object, at: int, reason: Option<Reason>, ev: Evidence)

  datatype Worker = Worker(base: nat, since: int, ev: Evidence, prog: Prog<Call>)

  /** `past` holds the views of runs that have been true and may still be found in a cache.
      `suspended` names the runs that were active when the schedule was paused over them;
      `lost` those whose creator failed to record them; `overlooked` those that an outdated
      lookup took for over. */
  datatype World = World(
    spec: Spec,
    hist: seq<Version>,
    now: int,
    workers: map<nat, Worker>,
    runs: map<RunName, Run>,
    past: set<(RunName, Seen)>,
    suspended: set<RunName>,
    lost: set<RunName>,
    overlooked: set<RunName>)

  datatype Action =
    | Tick(t: int)
    | Start(id: nat, version: nat, answers: Answers)
    | Succeed(id: nat)
    | Refuse(id: nat)
    | LoseReply(id: nat)
    | Crash(id: nat)
    | ToggleSuspend
    | RunMoves(name: RunName, to: Run)
    | RunDeleted(name: RunName)

  // ---------- the moves of a stored schedule ----------

  predicate Waiting(st: Status) {
    st.phase == Unset || st.phase == Idle
  }

  /** A clock reading at or past the tick that follows the last considered one. */
  predicate Due(spec: Spec, st: Status, ev: Evidence) {
    ev.read.Some? && ev.read.value >= spec.next(LastRun(spec, st))
  }

  predicate Saw(st: Status, ev: Evidence, seen: Seen) {
    st.phase == Running && st.active.Some? && ev.saw == Some((st.active.value, seen))
  }

  predicate SawPhase(st: Status, ev: Evidence, phase: E.Phase) {
    && st.phase == Running && st.active.Some? && ev.saw.Some?
    && ev.saw.value.0 == st.active.value && ev.saw.value.1.Present? && ev.saw.value.1.phase == phase
  }

  predicate Move(spec: Spec, s: Status, suspend: bool, t: Status, reason: Reason, ev: Evidence) {
    var released := s.(phase := Idle, active := None);
    match reason
    case Suspending => suspend && s.phase != Paused && t == s.(phase := Paused)
    case Resuming => !suspend && s.phase == Paused && t == s.(phase := Idle)
    case Recovering => !suspend && s.phase == Running && s.active.None? && t == s.(phase := Idle)
    case ScheduleFailed => !suspend && Waiting(s) && ev.created.None? && t == s.(phase := Failed)
    case GateBlocked =>
      && !suspend && Waiting(s) && ev.created.None? && Due(spec, s, ev)
      && t == s.(lastScheduleTime := Some(Trunc(ev.read.value)))
    case RunStarted =>
      && !suspend && Waiting(s) && ev.created.Some? && Due(spec, s, ev)
      && t == Started(s, ev.created.value, Trunc(ev.read.value))
    case RunVanished => !suspend && Saw(s, ev, Absent) && t == released
    case RunCompleted =>
      && !suspend && SawPhase(s, ev, E.Completed)
      && t == released.(history := s.history.(successfulRuns := s.history.successfulRuns + 1))
    case RunFailed => !suspend && SawPhase(s, ev, E.Failed) && t == released
    case RunHalted =>
      && !suspend && SawPhase(s, ev, E.Halted)
      && t == released.(phase := Phase.Halted,
                        history := s.history.(haltedRuns := s.history.haltedRuns + 1,
                                              lastHaltReason := ev.saw.value.1.haltReason))
  }

  predicate Sound(st: Status) {
    && (st.phase == Running ==> st.active.Some?)
    && (st.lastScheduleTime.Some? ==> st.lastScheduleTime.value % SECOND == 0)
  }

  lemma MoveKeepsSound(spec: Spec, s: Status, suspend: bool, t: Status, reason: Reason, ev: Evidence)
    requires Sound(s) && Move(spec, s, suspend, t, reason, ev)
    ensures Sound(t)
  {
  }

  /** Running `p` against `o` with `ev` done so far only ever commits moves, once, creates a
      run only while waiting, and never panics. */
  predicate Safe(spec: Spec, o: Object, ev: Evidence, p: Prog<Call>)
    decreases p
  {
    match p
    case Return(r) => r != Panic
    case Perform(c, ok, err) =>
      && Safe(spec, o, ev, err)
      && match c
         case ReadClock(t) => ev.read.None? || ev.read.value <= t ==> Safe(spec, o, ev.(read := Some(t)), ok)
         case Create(n) =>
           ev.created.None? && Waiting(o.status) && !o.suspend && Safe(spec, o, ev.(created := Some(n)), ok)
         case Lookup(n, seen) => Safe(spec, o, ev.(saw := Some((n, seen))), ok)
         case PutStatus(st, reason) =>
           && Move(spec, o.status, o.suspend, st, reason, ev)
           && ok.Return? && ok.result != Panic && err.Return? && err.result != Panic
  }

  lemma PutSafe(spec: Spec, o: Object, ev: Evidence, st: Status, reason: Reason, res: Result)
    requires res != Panic && Move(spec, o.status, o.suspend, Encode(st), reason, ev)
    ensures Safe(spec, o, ev, Put(st, reason, res))
  {
  }

  lemma EncodeStored(st: Status)
    requires Sound(st)
    ensures Encode(st) == st
  {
  }

  lemma StampSafe(spec: Spec, o: Object, ev: Evidence, st: Status, reason: Reason, t: int)
    requires ev.read.Some?
    requires ev.read.value <= t ==> Move(spec, o.status, o.suspend, Encode(st), reason, ev.(read := Some(t)))
    ensures Safe(spec, o, ev, Perform(ReadClock(t), Put(st, reason, RequeueAfter(SECOND)), Return(Error)))
  {
  }

  lemma CreateSafe(spec: Spec, o: Object, ev: Evidence, a: Answers)
    requires Sound(o.status) && !o.suspend && Waiting(o.status) && Due(spec, o.status, ev) && ev.created.None?
    ensures Safe(spec, o, ev, CreateProg(spec, o.status, a))
  {
    var st := o.status;
    EncodeStored(st);
    PutSafe(spec, o, ev, st.(phase := Phase.Failed), ScheduleFailed, Stop);
    StampSafe(spec, o, ev, st.(lastScheduleTime := Some(a.stampAt)), GateBlocked, a.stampAt);
    if ev.read.value <= a.nameAt {
      var name := NameAt(a.nameAt);
      var ev1 := ev.(read := Some(a.nameAt));
      var ev2 := ev1.(created := Some(name));
      PutSafe(spec, o, ev1, st.(phase := Phase.Failed), ScheduleFailed, Stop);
      StampSafe(spec, o, ev2, Started(st, name, a.stampAt), RunStarted, a.stampAt);
      var create := Perform(Create(name), StartProg(st, name, a), FailProg(st));
      assert Safe(spec, o, ev1, create);
    }
    assert Safe(spec, o, ev, NameProg(st, a));
  }

  lemma FollowSafe(spec: Spec, o: Object, seen: Seen)
    requires Sound(o.status) && !o.suspend && o.status.phase == Running
    ensures Safe(spec, o, NO_EVIDENCE.(saw := Some((o.status.active.value, seen))), FollowProg(o.status, seen))
  {
  }

  /** Every reconcile of a sound schedule is safe, whatever the world answers. */
  lemma ReconcileSafe(spec: Spec, o: Object, a: Answers)
    requires Sound(o.status)
    ensures Safe(spec, o, NO_EVIDENCE, ReconcileProg(spec, o, a))
  {
    hide CreateProg, FollowProg;
    var st := o.status;
    EncodeStored(st);
    if o.suspend {
    } else if Waiting(st) {
      PutSafe(spec, o, NO_EVIDENCE, st.(phase := Phase.Failed), ScheduleFailed, Stop);
      if a.checkedAt >= spec.next(LastRun(spec, st)) {
        CreateSafe(spec, o, NO_EVIDENCE.(read := Some(a.checkedAt)), a);
      }
    } else if st.phase == Running {
      FollowSafe(spec, o, a.seen);
    } else if st.phase == Paused {
      PutSafe(spec, o, NO_EVIDENCE, st.(phase := Idle), Resuming, RequeueAfter(SECOND));
    }
  }

  // ---------- the machine ----------

  predicate Initial(w: World) {
    && |w.hist| == 1
    && w.hist[0] == Version(Object(w.hist[0].obj.suspend, FRESH_STATUS), w.now, None, NO_EVIDENCE)
    && w.spec.created <= w.now
    && w.workers == map[] && w.runs == map[] && w.past == {}
    && w.suspended == {} && w.lost == {} && w.overlooked == {}
  }

  /** What a lookup of `name` finds right now. */
  function Look(runs: map<RunName, Run>, name: RunName): Seen {
    if name in runs then Present(runs[name].phase, runs[name].haltReason) else Absent
  }

  /** What a lookup of `name` can find: what is there, or what has been. No run was there at
      first. */
  predicate Visible(w: World, name: RunName, seen: Seen) {
    seen == Look(w.runs, name) || seen == Absent || (name, seen) in w.past
  }

  /** The run that a lookup takes for over while it is going. */
  function Overlooked(runs: map<RunName, Run>, name: RunName, seen: Seen): set<RunName> {
    if Dead(seen) && Live(runs, name) then {name} else {}
  }

  predicate Current(w: World, version: nat) {
    version + 1 == |w.hist|
  }

  predicate Enabled(w: World, a: Action) {
    match a
    case Tick(t) => w.now <= t
    case Start(id, version, _) => id !in w.workers && version < |w.hist|
    case Succeed(id) =>
      id in w.workers && w.workers[id].prog.Perform?
      && (match w.workers[id].prog.call
          case ReadClock(t) => t == w.now
          case Create(n) => n !in w.runs
          case Lookup(n, seen) => Visible(w, n, seen)
          case PutStatus(_, _) => Current(w, w.workers[id].base))
    case Refuse(id) => id in w.workers && w.workers[id].prog.Perform? && !w.workers[id].prog.call.ReadClock?
    case LoseReply(id) =>
      id in w.workers && w.workers[id].prog.Perform? && w.workers[id].prog.call.PutStatus?
      && Current(w, w.workers[id].base)
    case Crash(id) => id in w.workers
    case ToggleSuspend => |w.hist| > 0
    case RunMoves(name, to) => name in w.runs && H.Rank(w.runs[name].phase) <= H.Rank(to.phase)
    case RunDeleted(name) => name in w.runs
  }

  function Names(created: Option<RunName>): set<RunName> {
    if created.Some? then {created.value} else {}
  }

  /** The run a pause takes out of the schedule's sight. */
  function PausedOver(s: Status, reason: Reason): set<RunName> {
    if reason == Suspending && s.phase == Running then Names(s.active) else {}
  }

  function Commit(w: World, id: nat, next: Prog<Call>): World
    requires id in w.workers && w.workers[id].prog.Perform? && w.workers[id].prog.call.PutStatus?
    requires Current(w, w.workers[id].base)
  {
    var x := w.workers[id];
    var o := w.hist[x.base].obj;
    var call := x.prog.call;
    w.(hist := w.hist + [Version(o.(status := call.status), w.now, Some(call.reason), x.ev)],
       workers := w.workers[id := Worker(|w.hist|, w.now, NO_EVIDENCE, next)],
       suspended := w.suspended + PausedOver(o.status, call.reason))
  }

  function Step(w: World, a: Action): World
    requires Enabled(w, a)
  {
    match a
    case Tick(t) => w.(now := t)
    case Start(id, version, answers) =>
      var prog := ReconcileProg(w.spec, w.hist[version].obj, answers);
      w.(workers := w.workers[id := Worker(version, w.now, NO_EVIDENCE, prog)])
    case Succeed(id) =>
      var x := w.workers[id];
      var y := x.(prog := x.prog.ok);
      (match x.prog.call
       case ReadClock(t) => w.(workers := w.workers[id := y.(ev := x.ev.(read := Some(t)))])
       case Create(n) =>
         w.(workers := w.workers[id := y.(ev := x.ev.(created := Some(n)))],
            runs := w.runs[n := Run(E.Unset, None)])
       case Lookup(n, seen) =>
         w.(workers := w.workers[id := y.(ev := x.ev.(saw := Some((n, seen))))],
            overlooked := w.overlooked + Overlooked(w.runs, n, seen))
       case PutStatus(_, _) => Commit(w, id, x.prog.ok))
    case Refuse(id) =>
      var x := w.workers[id];
      if x.prog.call.PutStatus? then
        w.(workers := w.workers[id := x.(prog := x.prog.err, ev := NO_EVIDENCE)], lost := w.lost + Names(x.ev.created))
      else w.(workers := w.workers[id := x.(prog := x.prog.err)])
    case LoseReply(id) => Commit(w, id, w.workers[id].prog.err)
    case Crash(id) => w.(workers := w.workers - {id}, lost := w.lost + Names(w.workers[id].ev.created))
    case ToggleSuspend =>
      var o := w.hist[|w.hist| - 1].obj;
      w.(hist := w.hist + [Version(o.(suspend := !o.suspend), w.now, None, NO_EVIDENCE)])
    case RunMoves(name, to) => w.(runs := w.runs[name := to], past := w.past + {(name, Look(w.runs, name))})
    case RunDeleted(name) => w.(runs := w.runs - {name}, past := w.past + {(name, Look(w.runs, name))})
  }

  predicate Legal(w: World, acts: seq<Action>)
    decreases |acts|
  {
    acts == [] || (Enabled(w, acts[0]) && Legal(Step(w, acts[0]), acts[1..]))
  }

  function Execute(w: World, acts: seq<Action>): World
    requires Legal(w, acts)
    decreases |acts|
  {
    if acts == [] then w else Execute(Step(w, acts[0]), acts[1..])
  }

  predicate Linked(spec: Spec, a: Version, b: Version) {
    && a.at <= b.at
    && (b.ev.read.Some? ==> a.at <= b.ev.read.value <= b.at)
    && match b.reason
       case None => b.obj.status == a.obj.status
       case Some(reason) =>
         b.obj.suspend == a.obj.suspend && Move(spec, a.obj.status, a.obj.suspend, b.obj.status, reason, b.ev)
  }

  predicate LinkedAt(spec: Spec, hist: seq<Version>, k: nat)
    requires 0 < k < |hist|
  {
    Linked(spec, hist[k - 1], hist[k])
  }

  predicate Chain(spec: Spec, hist: seq<Version>, now: int) {
    && |hist| > 0 && hist[0].obj.status == FRESH_STATUS && hist[0].reason.None? && spec.created <= hist[0].at
    && (forall k :: 0 <= k < |hist| ==> Sound(hist[k].obj.status) && hist[k].at <= now)
    && (forall k :: 0 < k < |hist| ==> LinkedAt(spec, hist, k))
  }

  predicate WorkerSound(spec: Spec, hist: seq<Version>, now: int, x: Worker) {
    && x.base < |hist|
    && hist[x.base].at <= x.since <= now
    && (x.ev.read.Some? ==> x.since <= x.ev.read.value <= now)
    && Safe(spec, hist[x.base].obj, x.ev, x.prog)
    && (x.ev.created.Some? ==> Waiting(hist[x.base].obj.status) && !hist[x.base].obj.suspend)
  }

  predicate AllSound(w: World) {
    forall id :: id in w.workers ==> WorkerSound(w.spec, w.hist, w.now, w.workers[id])
  }

  // ---------- who answers for a run that is still going ----------

  predicate Live(runs: map<RunName, Run>, n: RunName) {
    n in runs && !H.Terminal(runs[n].phase)
  }

  /** Some reconcile has created `n` and not yet learnt whether it could record it. */
  predicate Pending(workers: map<nat, Worker>, n: RunName) {
    exists id <- workers :: workers[id].ev.created == Some(n)
  }

  predicate Excused(w: World, n: RunName) {
    n in w.suspended || n in w.lost || n in w.overlooked || Pending(w.workers, n)
  }

  predicate Held(st: Status, n: RunName) {
    st.phase == Running && st.active == Some(n)
  }

  predicate Dead(seen: Seen) {
    seen.Absent? || H.Terminal(seen.phase)
  }

  /** Every run still going is the active one of a Running schedule, or is excused. */
  predicate Covered(w: World)
    requires |w.hist| > 0
  {
    forall n <- w.runs :: Live(w.runs, n) ==> Held(w.hist[|w.hist| - 1].obj.status, n) || Excused(w, n)
  }

  /** A reconcile that saw its run over, and may still commit that, is right about it or has
      overlooked it. */
  predicate Informed(w: World) {
    forall id <- w.workers :: w.workers[id].ev.saw.Some? && Current(w, w.workers[id].base)
      && Dead(w.workers[id].ev.saw.value.1) && Live(w.runs, w.workers[id].ev.saw.value.0)
      ==> Excused(w, w.workers[id].ev.saw.value.0)
  }

  predicate Invariant(w: World) {
    && Chain(w.spec, w.hist, w.now)
    && AllSound(w)
    && Covered(w)
    && Informed(w)
  }

  lemma InitialInvariant(w: World)
    requires Initial(w)
    ensures Invariant(w)
  {
  }

  lemma ChainGrows(spec: Spec, hist: seq<Version>, now: int, v: Version)
    requires Chain(spec, hist, now) && Sound(v.obj.status) && Linked(spec, hist[|hist| - 1], v) && v.at <= now
    ensures Chain(spec, hist + [v], now)
  {
    hide Linked, Sound;
    var hist' := hist + [v];
    forall k | 0 < k < |hist'| ensures LinkedAt(spec, hist', k) {
      if k < |hist| {
        assert LinkedAt(spec, hist, k);
      }
    }
  }

  lemma ChainSound(spec: Spec, hist: seq<Version>, now: int, k: nat)
    requires Chain(spec, hist, now) && k < |hist|
    ensures Sound(hist[k].obj.status) && hist[k].at <= now
  {
  }

  lemma ChainNonempty(spec: Spec, hist: seq<Version>, now: int)
    requires Chain(spec, hist, now)
    ensures |hist| > 0
  {
  }

  lemma WorkersKeep(w: World, v: Version)
    requires AllSound(w)
    ensures forall id :: id in w.workers ==> WorkerSound(w.spec, w.hist + [v], w.now, w.workers[id])
  {
  }

  lemma ReplaceSound(w: World, id: nat, y: Worker)
    requires AllSound(w) && WorkerSound(w.spec, w.hist, w.now, y)
    ensures AllSound(w.(workers := w.workers[id := y]))
  {
  }

  /** What one worker learns or does changes nothing for the runs, as long as the run it had
      pending stays accounted for. */
  lemma ReplaceExcuses(w: World, w': World, id: nat)
    requires |w.hist| > 0 && Covered(w) && Informed(w) && id in w.workers
    requires w'.hist == w.hist && w'.runs == w.runs && w'.suspended == w.suspended
    requires w.lost <= w'.lost && w.overlooked <= w'.overlooked
    requires forall j :: j in w'.workers && j != id ==> j in w.workers && w'.workers[j] == w.workers[j]
    requires forall j :: j in w.workers && j != id ==> j in w'.workers
    requires w.workers[id].ev.created.Some? ==> Excused(w', w.workers[id].ev.created.value)
    requires id in w'.workers && w'.workers[id].ev.saw.Some? && Dead(w'.workers[id].ev.saw.value.1) ==>
               || (w'.workers[id].ev.saw == w.workers[id].ev.saw && w'.workers[id].base == w.workers[id].base)
               || !Live(w.runs, w'.workers[id].ev.saw.value.0)
               || w'.workers[id].ev.saw.value.0 in w'.overlooked
    ensures Covered(w') && Informed(w')
  {
  }

  /** A sound worker stays sound when its next call succeeds without writing anything. */
  lemma AdvancedWorker(w: World, id: nat)
    requires AllSound(w) && Enabled(w, Succeed(id)) && !w.workers[id].prog.call.PutStatus?
    ensures WorkerSound(w.spec, w.hist, w.now, Step(w, Succeed(id)).workers[id])
    ensures w.workers[id].prog.call.Create? ==> w.workers[id].ev.created.None?
  {
    assert WorkerSound(w.spec, w.hist, w.now, w.workers[id]);
  }

  lemma CreateInvariant(w: World, id: nat)
    requires Invariant(w) && Enabled(w, Succeed(id)) && w.workers[id].prog.call.Create?
    ensures Invariant(Step(w, Succeed(id)))
  {
    hide Chain, WorkerSound;
    var n := w.workers[id].prog.call.name;
    var w' := Step(w, Succeed(id));
    AdvancedWorker(w, id);
    ReplaceSound(w, id, w'.workers[id]);
    hide AllSound;
    ChainNonempty(w.spec, w.hist, w.now);
    assert w'.workers[id].ev.created == Some(n);
    assert Pending(w'.workers, n);
    forall m | Excused(w, m) ensures Excused(w', m) {
      if Pending(w.workers, m) {
        var j :| j in w.workers && w.workers[j].ev.created == Some(m);
        assert w'.workers[j].ev.created == Some(m);
      }
    }
    assert forall m :: Live(w'.runs, m) && m != n ==> Live(w.runs, m);
    forall j | j in w'.workers && w'.workers[j].ev.saw.Some? && Current(w', w'.workers[j].base)
               && Dead(w'.workers[j].ev.saw.value.1) && Live(w'.runs, w'.workers[j].ev.saw.value.0)
      ensures Excused(w', w'.workers[j].ev.saw.value.0)
    {
      assert w'.workers[j].ev.saw == w.workers[j].ev.saw && w'.workers[j].base == w.workers[j].base;
    }
  }

  /** Looking at the clock or at a run changes nobody's account. */
  lemma LookInvariant(w: World, id: nat)
    requires Invariant(w) && Enabled(w, Succeed(id))
    requires w.workers[id].prog.call.ReadClock? || w.workers[id].prog.call.Lookup?
    ensures Invariant(Step(w, Succeed(id)))
  {
    hide Chain, WorkerSound;
    var x := w.workers[id];
    var w' := Step(w, Succeed(id));
    AdvancedWorker(w, id);
    ReplaceSound(w, id, w'.workers[id]);
    hide AllSound;
    ChainNonempty(w.spec, w.hist, w.now);
    if x.ev.created.Some? {
      assert w'.workers[id].ev.created == x.ev.created;
      assert Pending(w'.workers, x.ev.created.value);
    }
    ReplaceExcuses(w, w', id);
  }

  lemma RefusedWorker(spec: Spec, hist: seq<Version>, now: int, x: Worker)
    requires WorkerSound(spec, hist, now, x) && x.prog.Perform?
    ensures WorkerSound(spec, hist, now, x.(prog := x.prog.err))
    ensures x.prog.call.PutStatus? ==> WorkerSound(spec, hist, now, x.(prog := x.prog.err, ev := NO_EVIDENCE))
  {
  }

  lemma RefuseInvariant(w: World, id: nat)
    requires Invariant(w) && Enabled(w, Refuse(id))
    ensures Invariant(Step(w, Refuse(id)))
  {
    hide Chain, WorkerSound;
    var x := w.workers[id];
    var w' := Step(w, Refuse(id));
    RefusedWorker(w.spec, w.hist, w.now, x);
    ReplaceSound(w, id, w'.workers[id]);
    hide AllSound;
    if x.ev.created.Some? && !x.prog.call.PutStatus? {
      assert w'.workers[id].ev.created == x.ev.created;
      assert Pending(w'.workers, x.ev.created.value);
    }
    ReplaceExcuses(w, w', id);
  }

  lemma CrashInvariant(w: World, id: nat)
    requires Invariant(w) && id in w.workers
    ensures Invariant(Step(w, Crash(id)))
  {
    hide Chain, WorkerSound;
    var w' := Step(w, Crash(id));
    assert AllSound(w');
    ChainNonempty(w.spec, w.hist, w.now);
    ReplaceExcuses(w, w', id);
  }

  /** What a sound worker promises about the update it is about to make. */
  lemma CommittedWorker(spec: Spec, hist: seq<Version>, now: int, x: Worker, v: Version, ok: bool)
    requires WorkerSound(spec, hist, now, x) && x.prog.Perform? && x.prog.call.PutStatus? && x.base + 1 == |hist|
    requires v == Version(hist[x.base].obj.(status := x.prog.call.status), now, Some(x.prog.call.reason), x.ev)
    ensures var o := hist[x.base].obj;
            Move(spec, o.status, o.suspend, v.obj.status, x.prog.call.reason, x.ev) && Linked(spec, hist[x.base], v)
    ensures WorkerSound(spec, hist + [v], now,
                        Worker(|hist|, now, NO_EVIDENCE, if ok then x.prog.ok else x.prog.err))
    ensures x.ev.created.Some? ==> Waiting(hist[x.base].obj.status) && !hist[x.base].obj.suspend
  {
  }

  lemma CommitInvariant(w: World, id: nat, ok: bool)
    requires Invariant(w) && id in w.workers && w.workers[id].prog.Perform? && w.workers[id].prog.call.PutStatus?
    requires Current(w, w.workers[id].base)
    ensures Invariant(Commit(w, id, if ok then w.workers[id].prog.ok else w.workers[id].prog.err))
  {
    hide Chain, WorkerSound, Linked, Sound;
    var x := w.workers[id];
    var o := w.hist[x.base].obj;
    var v := Version(o.(status := x.prog.call.status), w.now, Some(x.prog.call.reason), x.ev);
    var w' := Commit(w, id, if ok then x.prog.ok else x.prog.err);
    CommittedWorker(w.spec, w.hist, w.now, x, v, ok);
    ChainSound(w.spec, w.hist, w.now, x.base);
    MoveKeepsSound(w.spec, o.status, o.suspend, v.obj.status, x.prog.call.reason, x.ev);
    ChainGrows(w.spec, w.hist, w.now, v);
    WorkersKeep(w, v);
    ReplaceSound(w.(hist := w.hist + [v]), id, w'.workers[id]);
    BasesKnown(w);
    CommitCovered(w, id, w', v);
  }

  lemma BasesKnown(w: World)
    requires AllSound(w)
    ensures forall j <- w.workers :: w.workers[j].base < |w.hist|
  {
  }

  /** A commit moves the schedule on only from a run it knows to be over, or takes charge of
      the run its writer created. */
  lemma CommitCovered(w: World, id: nat, w': World, v: Version)
    requires |w.hist| > 0 && Covered(w) && Informed(w)
    requires id in w.workers && w.workers[id].prog.Perform? && w.workers[id].prog.call.PutStatus?
    requires Current(w, w.workers[id].base)
    requires var x, o := w.workers[id], w.hist[w.workers[id].base].obj;
             && v == Version(o.(status := x.prog.call.status), w.now, Some(x.prog.call.reason), x.ev)
             && Move(w.spec, o.status, o.suspend, v.obj.status, x.prog.call.reason, x.ev)
             && w'.suspended == w.suspended + PausedOver(o.status, x.prog.call.reason)
             && (x.ev.created.Some? ==> Waiting(o.status) && !o.suspend)
    requires forall j <- w.workers :: w.workers[j].base < |w.hist|
    requires w'.hist == w.hist + [v] && w'.runs == w.runs && w'.lost == w.lost && w'.overlooked == w.overlooked
    requires id in w'.workers && w'.workers == w.workers[id := w'.workers[id]] && w'.workers[id].ev == NO_EVIDENCE
    ensures Covered(w') && Informed(w')
  {
    var x, o := w.workers[id], w.hist[w.workers[id].base].obj;
    forall n | n in w'.runs && Live(w'.runs, n) ensures Held(v.obj.status, n) || Excused(w', n) {
      if Excused(w, n) {
        if Pending(w.workers, n) && !(n in w.suspended || n in w.lost) {
          var j :| j in w.workers && w.workers[j].ev.created == Some(n);
          if j != id {
            assert w'.workers[j].ev.created == Some(n);
          }
        }
      } else {
        assert Held(o.status, n);
      }
    }
  }

  lemma ToggleInvariant(w: World)
    requires Invariant(w)
    ensures Invariant(Step(w, ToggleSuspend))
  {
    hide WorkerSound, Sound, Linked;
    var last := w.hist[|w.hist| - 1];
    var v := Version(last.obj.(suspend := !last.obj.suspend), w.now, None, NO_EVIDENCE);
    assert Linked(w.spec, last, v) by {
      EditLinked(w.spec, last, v);
    }
    ChainGrows(w.spec, w.hist, w.now, v);
    WorkersKeep(w, v);
    BasesKnown(w);
  }

  lemma EditLinked(spec: Spec, a: Version, v: Version)
    requires v == Version(a.obj.(suspend := !a.obj.suspend), v.at, None, NO_EVIDENCE) && a.at <= v.at
    ensures Linked(spec, a, v)
  {
  }

  lemma LaterInvariant(w: World, t: int)
    requires Invariant(w) && w.now <= t
    ensures Invariant(w.(now := t))
  {
  }

  /** Runs only ever lose life, so nothing new has to be answered for. */
  lemma RunsInvariant(w: World, runs: map<RunName, Run>, past: set<(RunName, Seen)>)
    requires Invariant(w) && forall n :: Live(runs, n) ==> Live(w.runs, n)
    ensures Invariant(w.(runs := runs, past := past))
  {
  }

  lemma StartInvariant(w: World, id: nat, version: nat, answers: Answers)
    requires Invariant(w) && Enabled(w, Start(id, version, answers))
    ensures Invariant(Step(w, Start(id, version, answers)))
  {
    ChainSound(w.spec, w.hist, w.now, version);
    ReconcileSafe(w.spec, w.hist[version].obj, answers);
    hide Chain, Safe, ReconcileProg;
    var w' := Step(w, Start(id, version, answers));
    ReplaceSound(w, id, w'.workers[id]);
    hide WorkerSound, AllSound;
    ChainNonempty(w.spec, w.hist, w.now);
    forall n | Excused(w, n) ensures Excused(w', n) {
      if Pending(w.workers, n) {
        var j :| j in w.workers && w.workers[j].ev.created == Some(n);
        assert w'.workers[j].ev.created == Some(n);
      }
    }
  }

  lemma SucceedInvariant(w: World, id: nat)
    requires Invariant(w) && Enabled(w, Succeed(id))
    ensures Invariant(Step(w, Succeed(id)))
  {
    hide Invariant;
    match w.workers[id].prog.call
    case ReadClock(_) => LookInvariant(w, id);
    case Create(_) => CreateInvariant(w, id);
    case Lookup(_, _) => LookInvariant(w, id);
    case PutStatus(_, _) => CommitInvariant(w, id, true);
  }

  /** Every step of every participant keeps the invariant and only adds to the store. */
  lemma StepInvariant(w: World, a: Action)
    requires Invariant(w) && Enabled(w, a)
    ensures Invariant(Step(w, a))
    ensures Step(w, a).spec == w.spec && w.hist <= Step(w, a).hist
  {
    hide Chain, AllSound, Covered, Informed;
    match a
    case Tick(t) => LaterInvariant(w, t);
    case Start(id, version, answers) => StartInvariant(w, id, version, answers);
    case Succeed(id) => SucceedInvariant(w, id);
    case Refuse(id) => RefuseInvariant(w, id);
    case LoseReply(id) => CommitInvariant(w, id, false);
    case Crash(id) => CrashInvariant(w, id);
    case ToggleSuspend => ToggleInvariant(w);
    case RunMoves(name, to) => RunsInvariant(w, w.runs[name := to], Step(w, a).past);
    case RunDeleted(name) => RunsInvariant(w, w.runs - {name}, Step(w, a).past);
  }

  lemma {:induction false} ExecuteInvariant(w: World, acts: seq<Action>)
    requires Invariant(w) && Legal(w, acts)
    ensures Invariant(Execute(w, acts)) && Execute(w, acts).spec == w.spec && w.hist <= Execute(w, acts).hist
    decreases |acts|
  {
    hide Invariant, Enabled, Step;
    if acts != [] {
      StepInvariant(w, acts[0]);
      ExecuteInvariant(Step(w, acts[0]), acts[1..]);
    }
  }

  ghost predicate Reachable(w: World, start: World, acts: seq<Action>) {
    Initial(start) && Legal(start, acts) && w == Execute(start, acts)
  }

  lemma ReachableInvariant(w: World, start: World, acts: seq<Action>)
    requires Reachable(w, start, acts)
    ensures Invariant(w)
  {
    hide Legal, Execute, Invariant;
    InitialInvariant(start);
    ExecuteInvariant(start, acts);
  }

  lemma VersionLinked(w: World, start: World, acts: seq<Action>, k: nat)
    requires Reachable(w, start, acts) && 0 < k < |w.hist|
    ensures Sound(w.hist[k - 1].obj.status) && Sound(w.hist[k].obj.status)
    ensures Linked(w.spec, w.hist[k - 1], w.hist[k])
  {
    hide Linked, Sound, AllSound, Covered, Informed, Reachable;
    ReachableInvariant(w, start, acts);
    assert LinkedAt(w.spec, w.hist, k);
  }

  lemma FirstVersion(w: World, start: World, acts: seq<Action>)
    requires Reachable(w, start, acts)
    ensures |w.hist| > 0 && w.hist[0].obj.status == FRESH_STATUS && w.hist[0].reason.None?
    ensures w.spec.created <= w.hist[0].at && w.hist[|w.hist| - 1].at <= w.now
  {
    hide Linked, Sound, AllSound, Covered, Informed, Reachable;
    ReachableInvariant(w, start, acts);
  }

  lemma VersionSound(w: World, start: World, acts: seq<Action>)
    requires Reachable(w, start, acts)
    ensures forall k :: 0 <= k < |w.hist| ==> Sound(w.hist[k].obj.status)
  {
    hide Linked, Sound, AllSound, Covered, Informed, Reachable;
    ReachableInvariant(w, start, acts);
  }

  /** An update whose reply is lost is stored all the same, and its writer goes on as if it had
      been refused. */
  lemma LostReplyStored(w: World, id: nat)
    requires Enabled(w, LoseReply(id))
    ensures Enabled(w, Succeed(id)) && Step(w, LoseReply(id)).hist == Step(w, Succeed(id)).hist
    ensures |Step(w, LoseReply(id)).hist| == |w.hist| + 1
    ensures id in Step(w, LoseReply(id)).workers && Step(w, LoseReply(id)).workers[id].prog == w.workers[id].prog.err
  {
  }
}
