/** What every run of the experiment machine guarantees about the versions it stored and
    the effects it had. */
module ExperimentHistory {
  import opened Effects
  import opened ExperimentApi
  import opened ExperimentProgram
  import opened ExperimentMoves
  import opened ExperimentMachine

  /** An update whose reply is lost is stored all the same, and its writer goes on as if it had
      been refused. */
  lemma LostReplyStored(w: World, id: nat, cluster: P.Cluster)
    requires Enabled(w, LoseReply(id))
    ensures Enabled(w, Succeed(id, cluster)) && Step(w, LoseReply(id)).hist == Step(w, Succeed(id, cluster)).hist
    ensures |Step(w, LoseReply(id)).hist| == |w.hist| + 1
    ensures id in Step(w, LoseReply(id)).workers && Step(w, LoseReply(id)).workers[id].prog == w.workers[id].prog.err
  {
  }

  // ---------- phases and halts ----------

  function Rank(p: Phase): nat {
    match p
    case Unset | Pending => 0
    case Running => 1
    case Completed | Failed => 2
    case Halted => 3
  }

  predicate Terminal(p: Phase) {
    Rank(p) >= 2
  }

  lemma MoveRank(spec: Spec, o: Object, p: Object, ev: Evidence)
    requires Move(spec, o, p, ev)
    ensures Rank(o.status.phase) <= Rank(p.status.phase)
    ensures Terminal(o.status.phase) ==>
              p.status == o.status || (o.status.phase != Halted && OnlyHalted(o.status, p.status))
  {
  }

  /** `t` is `s` stopped by a safeguard and otherwise untouched. */
  predicate OnlyHalted(s: Status, t: Status) {
    t == s.(phase := Halted, haltReason := t.haltReason)
  }

  lemma AtMostOneHaltCounted(w: World, start: World, acts: seq<Action>)
    requires Reachable(w, start, acts)
    ensures |w.hist| > 0
    ensures w.halted <= 1 && (w.halted == 1 ==> w.hist[|w.hist| - 1].obj.status.phase == Halted)
  {
    hide Linked, AllSound, Reachable;
    ReachableInvariant(w, start, acts);
  }

  /** Phases only move up their rank; Halted keeps the whole status, Completed and Failed can
      still be turned into Halted but nothing else; the halt reason is there exactly when the
      phase is Halted; and a halt is counted at most once. */
  lemma {:induction false} PhasesAscend(w: World, start: World, acts: seq<Action>, j: nat, k: nat)
    requires Reachable(w, start, acts) && j <= k < |w.hist|
    ensures Rank(w.hist[j].obj.status.phase) <= Rank(w.hist[k].obj.status.phase)
    ensures w.hist[j].obj.status.phase == Halted ==> w.hist[k].obj.status == w.hist[j].obj.status
    ensures Terminal(w.hist[j].obj.status.phase) ==>
              w.hist[k].obj.status == w.hist[j].obj.status || OnlyHalted(w.hist[j].obj.status, w.hist[k].obj.status)
    ensures w.hist[k].obj.status.haltReason.Some? <==> w.hist[k].obj.status.phase == Halted
    ensures w.halted <= 1 && (w.halted == 1 ==> w.hist[|w.hist| - 1].obj.status.phase == Halted)
    decreases k
  {
    hide Move, Reachable;
    VersionSound(w, start, acts, k);
    AtMostOneHaltCounted(w, start, acts);
    if j < k {
      PhasesAscend(w, start, acts, j, k - 1);
      VersionLinked(w, start, acts, k);
      MoveRank(w.spec, w.hist[k - 1].obj, w.hist[k].obj, w.hist[k].ev);
    }
  }

  /** `p` is `o` as seen behind a halt request: untouched with the request standing, or
      stopped with nothing but phase and reason changed. */
  predicate Fenced(o: Object, p: Object) {
    if o.status.phase == Halted then p.status == o.status
    else
      || (p.status == o.status && p.meta.haltReason.Some?)
      || OnlyHalted(o.status, p.status)
  }

  lemma FenceMove(spec: Spec, o: Object, p: Object, q: Object, ev: Evidence)
    requires Sound(spec, p) && Fenced(o, p) && Move(spec, p, q, ev)
    ensures Fenced(o, q)
    ensures p.status == o.status || q.status == p.status
    ensures p.status != q.status ==> q.status.haltReason == p.meta.haltReason
  {
  }

  /** Halt fence. Once a halt request is stored in version `j`, no later version has
      injected, recovered, advanced or entered any phase other than Halted; the request is
      withdrawn only once Halted is stored, and the stored reason was a request that stood. */
  lemma {:induction false} HaltFence(w: World, start: World, acts: seq<Action>, j: nat, k: nat)
    requires Reachable(w, start, acts) && j <= k < |w.hist| && w.hist[j].obj.meta.haltReason.Some?
    ensures Fenced(w.hist[j].obj, w.hist[k].obj)
    ensures w.hist[k].obj.meta.haltReason.None? ==> w.hist[k].obj.status.phase == Halted
    ensures w.hist[k].obj.status != w.hist[j].obj.status ==>
              exists i :: j <= i < k && w.hist[i].obj.meta.haltReason == w.hist[k].obj.status.haltReason
    decreases k
  {
    hide Move, Sound, Reachable;
    if j < k {
      HaltFence(w, start, acts, j, k - 1);
      var o, p, q := w.hist[j].obj, w.hist[k - 1].obj, w.hist[k].obj;
      VersionLinked(w, start, acts, k);
      FenceMove(w.spec, o, p, q, w.hist[k].ev);
      if q.status != o.status && p.status != o.status {
        var i :| j <= i < k - 1 && w.hist[i].obj.meta.haltReason == p.status.haltReason;
        assert q.status == p.status;
        assert w.hist[i].obj.meta.haltReason == q.status.haltReason;
      }
    }
  }

  lemma SafeInject(spec: Spec, o: Object, ev: Evidence, p: Prog<Call>)
    requires p.Perform? && p.call.Inject? && Safe(spec, o, ev, p)
    ensures Injectable(spec, o) && p.call.index == o.status.index
  {
  }

  /** The fence also holds back the cluster: a reconcile about to inject is working from a
      version older than the halt request. */
  lemma InjectionsPredateHalt(w: World, start: World, acts: seq<Action>, id: nat, j: nat)
    requires Reachable(w, start, acts)
    requires id in w.workers && w.workers[id].prog.Perform? && w.workers[id].prog.call.Inject?
    requires j < |w.hist| && w.hist[j].obj.meta.haltReason.Some?
    ensures w.workers[id].base < j
  {
    ReachableInvariant(w, start, acts);
    var x := w.workers[id];
    assert WorkerSound(w.spec, w.hist, w.now, w.log, x);
    SafeInject(w.spec, w.hist[x.base].obj, x.ev, x.prog);
    hide Move, Safe, WorkerSound;
    if j <= x.base {
      HaltFence(w, start, acts, j, x.base);
    }
  }

  // ---------- the life of a fault ----------

  /** An open fault always has its metrics, so no reconcile, however stale its read, comes to
      dereference missing ones; and it has its finalizer until the object is gone. */
  lemma NeverPanics(w: World, start: World, acts: seq<Action>)
    requires Reachable(w, start, acts)
    ensures forall id <- w.workers :: w.workers[id].prog != Return(Panic)
    ensures forall k :: 0 <= k < |w.hist| && Active(w.hist[k].obj.status) ==>
              w.hist[k].obj.status.metrics.Some? && (w.hist[k].obj.meta.finalizer || Gone(w.hist[k].obj))
  {
    hide Reachable, Linked, Witnessed;
    ReachableInvariant(w, start, acts);
    forall id | id in w.workers ensures w.workers[id].prog != Return(Panic) {
      assert WorkerSound(w.spec, w.hist, w.now, w.log, w.workers[id]);
    }
  }

  datatype Op = OpInject(index: nat) | OpRevert(index: nat)

  function OpOf(a: Status, b: Status): seq<Op> {
    if !Active(a) && Active(b) then [OpInject(b.index)]
    else if Active(a) && !Active(b) then [OpRevert(a.index)]
    else []
  }

  /** The injections and reverts recorded by the first `n` versions. */
  function Committed(hist: seq<Version>, n: nat): seq<Op>
    requires n <= |hist|
  {
    if n <= 1 then [] else Committed(hist, n - 1) + OpOf(hist[n - 2].obj.status, hist[n - 1].obj.status)
  }

  /** Inject(0), Revert(0), Inject(1), Revert(1), ... cut to length `n`. */
  function Schedule(n: nat): seq<Op> {
    seq(n, i requires 0 <= i < n => if i % 2 == 0 then OpInject(i / 2) else OpRevert(i / 2))
  }

  function Progress(st: Status): nat {
    if Active(st) then 2 * st.index + 1 else 2 * st.index
  }

  lemma ScheduleGrows(n: nat)
    ensures Schedule(2 * n + 1) == Schedule(2 * n) + [OpInject(n)]
    ensures Schedule(2 * n + 2) == Schedule(2 * n + 1) + [OpRevert(n)]
  {
  }

  lemma MoveProgress(spec: Spec, o: Object, p: Object, ev: Evidence)
    requires Sound(spec, o) && Move(spec, o, p, ev)
    ensures p.status.index == o.status.index
         || (Active(o.status) && !Active(p.status) && p.status.index == o.status.index + 1)
    ensures Active(o.status) && !Active(p.status) ==> p.status.index == o.status.index + 1
    ensures Active(o.status) && Active(p.status) ==> p.status.injectedAt == o.status.injectedAt
  {
  }

  /** The recorded history is always a prefix of the plan, its length is what the index and
      InjectedAt say, Completed means all of it, and only Running and Halted have a fault open. */
  lemma {:induction false} HistoryFollowsPlan(w: World, start: World, acts: seq<Action>, n: nat)
    requires Reachable(w, start, acts) && 1 <= n <= |w.hist|
    ensures var st := w.hist[n - 1].obj.status;
            && Committed(w.hist, n) == Schedule(Progress(st))
            && Progress(st) <= 2 * |w.spec.scenarios|
            && (st.phase == Completed ==> Progress(st) == 2 * |w.spec.scenarios|)
            && (Active(st) ==> st.phase == Running || st.phase == Halted)
    decreases n
  {
    hide Move, Reachable, Linked;
    VersionSound(w, start, acts, n - 1);
    if n > 1 {
      HistoryFollowsPlan(w, start, acts, n - 1);
      VersionLinked(w, start, acts, n - 1);
      MoveProgress(w.spec, w.hist[n - 2].obj, w.hist[n - 1].obj, w.hist[n - 1].ev);
      ScheduleGrows(w.hist[n - 2].obj.status.index);
    } else {
      assert Schedule(0) == [];
    }
  }

  /** The commit of version `k` records the injection of scenario `i`. */
  predicate RecordsInjection(hist: seq<Version>, k: nat, i: nat) {
    0 < k < |hist| && !Active(hist[k - 1].obj.status) && Active(hist[k].obj.status) && hist[k].obj.status.index == i
  }

  /** `o` has left scenario `i` behind: advanced past it, been halted, or lost its finalizer. */
  predicate Leaves(o: Object, i: nat) {
    o.status.index > i || o.status.phase == Halted || !o.meta.finalizer
  }

  lemma MoveInjects(spec: Spec, o: Object, p: Object, ev: Evidence)
    requires Sound(spec, o) && Move(spec, o, p, ev) && !Active(o.status) && Active(p.status)
    ensures Injects(spec, o, p, ev) && !Leaves(p, p.status.index)
  {
  }

  /** A recorded injection really happened: its call succeeded between the two commits, found
      pods running and deleted the smaller of their number and the configured count. */
  lemma RecordedInjectionHappened(w: World, start: World, acts: seq<Action>, p: nat, i: nat)
    requires Reachable(w, start, acts) && RecordsInjection(w.hist, p, i)
    ensures InjectLogged(w.log, w.hist[p - 1].pos, w.hist[p].pos, i, w.hist[p].kill)
    ensures i < |w.spec.scenarios| && Complete(Count(w.spec.scenarios[i]), w.hist[p].kill)
  {
    hide Move, Reachable;
    VersionLinked(w, start, acts, p);
    MoveInjects(w.spec, w.hist[p - 1].obj, w.hist[p].obj, w.hist[p].ev);
  }

  lemma MoveLeaves(spec: Spec, o: Object, p: Object, ev: Evidence)
    requires Sound(spec, o) && Move(spec, o, p, ev)
    requires Active(o.status) && !Leaves(o, o.status.index)
    ensures Leaves(p, o.status.index) ==> o.status.index in ev.reverted
    ensures !Leaves(p, o.status.index) ==> Active(p.status) && p.status.index == o.status.index
    ensures p.meta.finalizer || Gone(p)
  {
  }

  lemma MoveStaysLeft(spec: Spec, o: Object, p: Object, ev: Evidence, i: nat)
    requires Sound(spec, o) && Move(spec, o, p, ev) && Leaves(o, i) && (o.meta.finalizer || Gone(o))
    ensures Leaves(p, i) && (p.meta.finalizer || Gone(p))
  {
  }

  /** Between a recorded injection and any version that has left its scenario, the scenario
      was successfully reverted; until then the fault stays recorded. */
  lemma {:induction false} RevertedBeforeLeaving(w: World, start: World, acts: seq<Action>, p: nat, q: nat, i: nat)
    requires Reachable(w, start, acts) && RecordsInjection(w.hist, p, i) && p <= q < |w.hist|
    ensures if Leaves(w.hist[q].obj, i) then RevertLogged(w.log, w.hist[p].pos, w.hist[q].pos, i)
            else Active(w.hist[q].obj.status) && w.hist[q].obj.status.index == i
    ensures w.hist[q].obj.meta.finalizer || Gone(w.hist[q].obj)
    ensures w.hist[p].pos <= w.hist[q].pos
    decreases q
  {
    hide Move, Sound, Reachable;
    VersionLinked(w, start, acts, q);
    var a, b := w.hist[q - 1], w.hist[q];
    if p == q {
      MoveInjects(w.spec, a.obj, b.obj, b.ev);
    } else {
      RevertedBeforeLeaving(w, start, acts, p, q - 1, i);
      if Leaves(a.obj, i) {
        var r :| w.hist[p].pos <= r < a.pos <= |w.log| && w.log[r] == DidRevert(i);
        MoveStaysLeft(w.spec, a.obj, b.obj, b.ev, i);
      } else {
        MoveLeaves(w.spec, a.obj, b.obj, b.ev);
        if Leaves(b.obj, i) {
          var r :| a.pos <= r < b.pos <= |w.log| && w.log[r] == DidRevert(i);
        }
      }
    }
  }
}
