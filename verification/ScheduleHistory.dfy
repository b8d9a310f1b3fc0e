/** What every run of the schedule machine guarantees: how many runs can be going at once,
    what the run counters mean, and how often a schedule can fire. */
module ScheduleHistory {
  import opened Wrappers
  import opened Clock
  import opened ScheduleApi
  import opened ScheduleProgram
  import opened ScheduleMachine

  // ---------- runs going at the same time ----------

  function LiveRuns(w: World): set<RunName> {
    set n <- w.runs | Live(w.runs, n)
  }

  /** Runs whose creator can no longer record them, since the schedule has changed under it. */
  function Doomed(w: World): set<RunName> {
    set id <- w.workers | w.workers[id].ev.created.Some? && !Current(w, w.workers[id].base)
      :: w.workers[id].ev.created.value
  }

  /** Runs whose creator may still record them. */
  function Upcoming(w: World): set<RunName> {
    set id <- w.workers | w.workers[id].ev.created.Some? && Current(w, w.workers[id].base)
      :: w.workers[id].ev.created.value
  }

  function Active(w: World): set<RunName>
    requires |w.hist| > 0
  {
    var st := w.hist[|w.hist| - 1].obj.status;
    if st.phase == Running then Names(st.active) else {}
  }

  /** Runs that outlived a pause, were never recorded or were overlooked. */
  function Strays(w: World): set<RunName> {
    w.suspended + w.lost + w.overlooked + Doomed(w)
  }

  lemma UnionSize<T>(a: set<T>, b: set<T>)
    ensures |a + b| <= |a| + |b|
  {
  }

  lemma Subset<T>(a: set<T>, b: set<T>)
    requires a <= b
    ensures |a| <= |b|
  {
    assert b == a + (b - a);
  }

  lemma Member<T>(s: set<T>) returns (x: T)
    requires s != {}
    ensures x in s
  {
    x :| x in s;
  }

  lemma LiveRunsCovered(w: World, start: World, acts: seq<Action>)
    requires Reachable(w, start, acts)
    ensures |w.hist| > 0
    ensures LiveRuns(w) <= Active(w) + Upcoming(w) + Strays(w)
    ensures Upcoming(w) != {} ==> Active(w) == {}
  {
    hide Reachable, Linked, Safe;
    ReachableInvariant(w, start, acts);
    forall n | n in LiveRuns(w) ensures n in Active(w) + Upcoming(w) + Strays(w) {
      if !Held(w.hist[|w.hist| - 1].obj.status, n) && n !in w.suspended && n !in w.lost && n !in w.overlooked {
        assert Excused(w, n);
        var id :| id in w.workers && w.workers[id].ev.created == Some(n);
      }
    }
    if Upcoming(w) != {} {
      var n := Member(Upcoming(w));
      var id :| id in w.workers && w.workers[id].ev.created == Some(n) && Current(w, w.workers[id].base);
      assert WorkerSound(w.spec, w.hist, w.now, w.workers[id]);
    }
  }

  /** Only a lookup answered with an outdated view overlooks a run. */
  lemma OverlooksOutdated(w: World, a: Action)
    requires Enabled(w, a)
    ensures w.overlooked <= Step(w, a).overlooked
    ensures Step(w, a).overlooked != w.overlooked ==>
              && a.Succeed? && w.workers[a.id].prog.call.Lookup?
              && var call := w.workers[a.id].prog.call;
                 call.seen != Look(w.runs, call.name) && Step(w, a).overlooked == w.overlooked + {call.name}
  {
    if a.Succeed? && w.workers[a.id].prog.call.Lookup? {
      assert w.overlooked + {} == w.overlooked;
    }
  }

  /** With one reconcile of the schedule at a time, at most one run is going beside those
      paused over, those overlooked and those whose recording was or must be lost. */
  lemma RunsAtOnce(w: World, start: World, acts: seq<Action>)
    requires Reachable(w, start, acts) && |w.workers| <= 1
    ensures |LiveRuns(w) - Strays(w)| <= 1
    ensures |LiveRuns(w)| <= 1 + |LiveRuns(w) * Strays(w)|
  {
    hide Reachable, LiveRuns, Active, Upcoming, Strays;
    LiveRunsCovered(w, start, acts);
    OneKnown(w);
    var live, strays := LiveRuns(w), Strays(w);
    Subset(live - strays, Active(w) + Upcoming(w));
    assert live == (live - strays) + (live * strays);
    UnionSize(live - strays, live * strays);
  }

  lemma OneKnown(w: World)
    requires |w.hist| > 0 && |w.workers| <= 1 && (Upcoming(w) != {} ==> Active(w) == {})
    ensures |Active(w) + Upcoming(w)| <= 1
  {
    if Upcoming(w) == {} {
      assert Active(w) + Upcoming(w) == Active(w);
    } else {
      var n := Member(Upcoming(w));
      forall m | m in Upcoming(w) ensures m == n {
        OneWorker(w, m, n);
      }
      assert Active(w) + Upcoming(w) == {n};
    }
  }

  lemma OneWorker(w: World, m: RunName, n: RunName)
    requires |w.workers| <= 1 && m in Upcoming(w) && n in Upcoming(w)
    ensures m == n
  {
    var i :| i in w.workers && w.workers[i].ev.created == Some(m);
    var j :| j in w.workers && w.workers[j].ev.created == Some(n);
    if i != j {
      Subset({i, j}, w.workers.Keys);
    }
  }

  /** With no live run paused over, overlooked or lost, at most one is going, and between reconciles it
      is the one a Running schedule names. */
  lemma OneRunAtATime(w: World, start: World, acts: seq<Action>)
    requires Reachable(w, start, acts) && |w.workers| <= 1 && LiveRuns(w) !! Strays(w)
    ensures |LiveRuns(w)| <= 1
    ensures w.workers == map[] ==> |w.hist| > 0 && LiveRuns(w) <= Active(w)
  {
    hide Reachable;
    RunsAtOnce(w, start, acts);
    LiveRunsCovered(w, start, acts);
    assert LiveRuns(w) * Strays(w) == {};
  }

  lemma LastSound(w: World)
    requires Invariant(w)
    ensures |w.hist| > 0 && Sound(w.hist[|w.hist| - 1].obj.status)
  {
  }

  // ---------- run accounting ----------

  /** How many of the first `n` versions were written for `reason`. */
  function Times(hist: seq<Version>, n: nat, reason: Reason): nat
    requires n <= |hist|
  {
    if n == 0 then 0 else Times(hist, n - 1, reason) + (if hist[n - 1].reason == Some(reason) then 1 else 0)
  }

  /** How often a Running schedule was paused. */
  function TimesPausedRunning(hist: seq<Version>, n: nat): nat
    requires n <= |hist|
  {
    if n <= 1 then 0
    else TimesPausedRunning(hist, n - 1)
         + (if hist[n - 1].reason == Some(Suspending) && hist[n - 2].obj.status.phase == Running then 1 else 0)
  }

  function Going(st: Status): nat {
    if st.phase == Running then 1 else 0
  }

  predicate Balanced(hist: seq<Version>, n: nat)
    requires 1 <= n <= |hist|
  {
    var st := hist[n - 1].obj.status;
    var h := st.history;
    && h.totalRuns == Times(hist, n, RunStarted)
    && h.successfulRuns == Times(hist, n, RunCompleted)
    && h.haltedRuns == Times(hist, n, RunHalted)
    && h.totalRuns == h.successfulRuns + h.haltedRuns + Times(hist, n, RunFailed) + Times(hist, n, RunVanished)
                      + TimesPausedRunning(hist, n) + Going(st)
    && Times(hist, n, Recovering) == 0
  }

  lemma FreshBalance(hist: seq<Version>)
    requires |hist| > 0 && hist[0].obj.status == FRESH_STATUS && hist[0].reason.None?
    ensures Balanced(hist, 1)
  {
  }

  lemma LinkKeepsBalance(spec: Spec, hist: seq<Version>, n: nat)
    requires 1 < n <= |hist| && Balanced(hist, n - 1)
    requires Sound(hist[n - 2].obj.status) && Linked(spec, hist[n - 2], hist[n - 1])
    ensures Balanced(hist, n)
  {
  }

  /** Run accounting. Whatever is suspended, resumed, lost or deleted: every run counted was
      completed, halted, failed, found gone, paused over, or is the one going on now. */
  lemma {:induction false} RunsAddUp(w: World, start: World, acts: seq<Action>, n: nat)
    requires Reachable(w, start, acts) && 1 <= n <= |w.hist|
    ensures Balanced(w.hist, n)
    ensures var h := w.hist[n - 1].obj.status.history; h.successfulRuns + h.haltedRuns <= h.totalRuns
    decreases n
  {
    hide Reachable, Linked, Sound;
    FirstVersion(w, start, acts);
    if n > 1 {
      RunsAddUp(w, start, acts, n - 1);
      VersionLinked(w, start, acts, n - 1);
      LinkKeepsBalance(w.spec, w.hist, n);
    } else {
      FreshBalance(w.hist);
    }
  }

  lemma {:induction false} PausesOfPrefix(hist: seq<Version>, v: Version, n: nat)
    requires n <= |hist|
    ensures TimesPausedRunning(hist + [v], n) == TimesPausedRunning(hist, n)
  {
    if n > 1 {
      PausesOfPrefix(hist, v, n - 1);
    }
  }

  predicate PausesCounted(w: World) {
    |w.suspended| <= TimesPausedRunning(w.hist, |w.hist|)
  }

  lemma CommitCountsPauses(w: World, id: nat, ok: bool)
    requires PausesCounted(w) && id in w.workers && w.workers[id].prog.Perform? && w.workers[id].prog.call.PutStatus?
    requires Current(w, w.workers[id].base)
    ensures PausesCounted(Commit(w, id, if ok then w.workers[id].prog.ok else w.workers[id].prog.err))
  {
    var x := w.workers[id];
    var w' := Commit(w, id, if ok then x.prog.ok else x.prog.err);
    var over := PausedOver(w.hist[x.base].obj.status, x.prog.call.reason);
    PausesOfPrefix(w.hist, w'.hist[|w.hist|], |w.hist|);
    UnionSize(w.suspended, over);
  }

  lemma StepCountsPauses(w: World, a: Action)
    requires |w.hist| > 0 && PausesCounted(w) && Enabled(w, a)
    ensures PausesCounted(Step(w, a))
  {
    hide Commit;
    match a
    case Succeed(id) =>
      if w.workers[id].prog.call.PutStatus? {
        CommitCountsPauses(w, id, true);
      }
    case LoseReply(id) =>
      CommitCountsPauses(w, id, false);
    case ToggleSuspend =>
      PausesOfPrefix(w.hist, Step(w, a).hist[|w.hist|], |w.hist|);
    case _ =>
  }

  lemma {:induction false} RunCountsPauses(w: World, acts: seq<Action>)
    requires Invariant(w) && PausesCounted(w) && Legal(w, acts)
    ensures PausesCounted(Execute(w, acts))
    decreases |acts|
  {
    if acts != [] {
      LastSound(w);
      StepInvariant(w, acts[0]);
      StepCountsPauses(w, acts[0]);
      hide Invariant, Enabled, Step, PausesCounted;
      RunCountsPauses(Step(w, acts[0]), acts[1..]);
    }
  }

  lemma ReachableCountsPauses(w: World, start: World, acts: seq<Action>)
    requires Reachable(w, start, acts)
    ensures PausesCounted(w)
  {
    hide Invariant, Legal, Execute;
    InitialInvariant(start);
    RunCountsPauses(start, acts);
  }

  /** The stray runs left by pauses are no more than the pauses taken while Running, so the
      bound on simultaneous runs can be read off the stored history, the lost commits and the
      outdated lookups. */
  lemma RunsAtOnceByHistory(w: World, start: World, acts: seq<Action>)
    requires Reachable(w, start, acts) && |w.workers| <= 1
    ensures |LiveRuns(w)| <= 1 + TimesPausedRunning(w.hist, |w.hist|) + |w.lost + w.overlooked + Doomed(w)|
  {
    hide Reachable, LiveRuns, Doomed;
    RunsAtOnce(w, start, acts);
    ReachableCountsPauses(w, start, acts);
    assert Strays(w) == w.suspended + (w.lost + w.overlooked + Doomed(w));
    Subset(LiveRuns(w) * Strays(w), Strays(w));
    UnionSize(w.suspended, w.lost + w.overlooked + Doomed(w));
  }

  // ---------- how often a schedule fires ----------

  /** `next` gives the least tick after a time, and ticks fall on whole seconds. */
  ghost predicate IsCron(next: int -> int) {
    && (forall t :: next(t) > t && next(t) % SECOND == 0)
    && (forall t, s {:trigger next(t), next(s)} :: t <= s < next(t) ==> next(s) == next(t))
  }

  /** The number of ticks after `a` and no later than `b`. */
  ghost function Ticks(next: int -> int, a: int, b: int): nat
    requires IsCron(next)
    decreases b - a
  {
    if next(a) > b then 0 else 1 + Ticks(next, next(a), b)
  }

  lemma {:induction false} TicksSplit(next: int -> int, a: int, b: int, c: int)
    requires IsCron(next) && a <= b <= c
    ensures Ticks(next, a, c) == Ticks(next, a, b) + Ticks(next, b, c)
    decreases b - a
  {
    if next(a) <= b {
      TicksSplit(next, next(a), b, c);
    }
  }

  /** Time stamps of firing: every one passes a tick that was not passed before. */
  predicate Fired(v: Version) {
    v.reason == Some(RunStarted) || v.reason == Some(GateBlocked)
  }

  lemma LinkTicks(spec: Spec, a: Version, b: Version)
    requires IsCron(spec.next) && Sound(a.obj.status) && Linked(spec, a, b)
    ensures !Fired(b) ==> LastRun(spec, b.obj.status) == LastRun(spec, a.obj.status)
    ensures Fired(b) ==> spec.next(LastRun(spec, a.obj.status)) <= LastRun(spec, b.obj.status) <= b.at
    ensures LastRun(spec, a.obj.status) <= LastRun(spec, b.obj.status)
  {
  }

  lemma {:induction false} FiringsWithinTicks(w: World, start: World, acts: seq<Action>, n: nat)
    requires Reachable(w, start, acts) && 1 <= n <= |w.hist| && IsCron(w.spec.next)
    ensures var last := LastRun(w.spec, w.hist[n - 1].obj.status);
            && w.spec.created <= last <= w.hist[n - 1].at
            && Times(w.hist, n, RunStarted) + Times(w.hist, n, GateBlocked) <= Ticks(w.spec.next, w.spec.created, last)
    decreases n
  {
    hide Reachable, Linked, Sound, IsCron;
    FirstVersion(w, start, acts);
    if n == 1 {
      assert Times(w.hist, 0, RunStarted) == 0 && Times(w.hist, 0, GateBlocked) == 0;
    } else {
      FiringsWithinTicks(w, start, acts, n - 1);
      VersionLinked(w, start, acts, n - 1);
      var a, b := w.hist[n - 2], w.hist[n - 1];
      LinkTicks(w.spec, a, b);
      TimesOrdered(w.spec, a, b);
      if Fired(b) {
        OneMoreTick(w.spec.next, w.spec.created, LastRun(w.spec, a.obj.status), LastRun(w.spec, b.obj.status));
      }
    }
  }

  lemma TimesOrdered(spec: Spec, a: Version, b: Version)
    requires Linked(spec, a, b)
    ensures a.at <= b.at
  {
  }

  lemma OneMoreTick(next: int -> int, a: int, b: int, c: int)
    requires IsCron(next) && a <= b && next(b) <= c
    ensures Ticks(next, a, c) >= Ticks(next, a, b) + 1
  {
    TicksSplit(next, a, b, c);
  }

  /** Cron rate bound. Up to any time, runs started and ticks skipped by the gate together
      never exceed the ticks since the schedule was created. */
  lemma FiringRate(w: World, start: World, acts: seq<Action>)
    requires Reachable(w, start, acts) && IsCron(w.spec.next)
    ensures |w.hist| > 0 && w.spec.created <= w.now
    ensures Times(w.hist, |w.hist|, RunStarted) + Times(w.hist, |w.hist|, GateBlocked)
         <= Ticks(w.spec.next, w.spec.created, w.now)
    ensures w.hist[|w.hist| - 1].obj.status.history.totalRuns <= Ticks(w.spec.next, w.spec.created, w.now)
  {
    hide Reachable, IsCron;
    FirstVersion(w, start, acts);
    var n := |w.hist|;
    FiringsWithinTicks(w, start, acts, n);
    RunsAddUp(w, start, acts, n);
    TicksSplit(w.spec.next, w.spec.created, LastRun(w.spec, w.hist[n - 1].obj.status), w.now);
  }
}
