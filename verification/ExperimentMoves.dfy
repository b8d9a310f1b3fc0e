/** The atomic steps a stored experiment can take, and the proof that every call a
    reconcile makes is one of them, given what the reconcile has done since its read. */
module ExperimentMoves {
  import opened Wrappers
  import opened Numbers
  import opened Clock
  import opened Effects
  import opened ExperimentApi
  import opened ExperimentProgram

  /** What a writer has done since it last knew the stored object: scenarios it reverted,
      the scenario it injected, and its latest clock reading. */
  datatype Evidence = Evidence(reverted: set<nat>, injected: Option<nat>, read: Option<int>)

  const NO_EVIDENCE := Evidence({}, None, None)

  /** Deleted and past its finalizer: the object no longer exists. */
  predicate Gone(o: Object) {
    o.meta.deleting && !o.meta.finalizer
  }

  predicate Active(st: Status) {
    st.injectedAt.Some?
  }

  /** Configured kills of the first `n` scenarios. */
  function KillsBefore(scenarios: seq<Scenario>, n: nat): int
    requires n <= |scenarios|
  {
    if n == 0 then 0 else KillsBefore(scenarios, n - 1) + Count(scenarios[n - 1])
  }

  /** Configured kills of every scenario whose injection has been recorded. */
  function KillsDue(spec: Spec, st: Status): int
    requires st.index <= |spec.scenarios|
    requires Active(st) ==> st.index < |spec.scenarios|
  {
    KillsBefore(spec.scenarios, if Active(st) then st.index + 1 else st.index)
  }

  function KillsStored(st: Status): int {
    if st.metrics.None? then 0 else st.metrics.value.totalPodsKilled
  }

  predicate WholeSeconds(st: Status) {
    && (st.injectedAt.Some? ==> st.injectedAt.value % SECOND == 0)
    && (st.recoveredAt.Some? ==> st.recoveredAt.value % SECOND == 0)
  }

  /** What every stored experiment satisfies. */
  predicate Sound(spec: Spec, o: Object) {
    var st := o.status;
    && st.index <= |spec.scenarios|
    && WholeSeconds(st)
    && (Active(st) ==>
          && st.index < |spec.scenarios|
          && spec.scenarios[st.index].kind.PodKillType?
          && (o.meta.finalizer || Gone(o))
          && st.metrics.Some?
          && (st.phase == Running || st.phase == Halted))
    && (st.recoveredAt.Some? ==> Active(st) && st.recoveredAt.value - st.injectedAt.value >= GRACE)
    && (st.haltReason.Some? <==> st.phase == Halted)
    && (st.phase == Unset || st.phase == Pending ==> st.index == 0)
    && (st.phase == Completed ==> st.index == |spec.scenarios|)
    && KillsStored(st) == KillsDue(spec, st)
  }

  predicate AddsFinalizer(o: Object, p: Object) {
    !o.meta.deleting && p == o.(meta := o.meta.(finalizer := true))
  }

  predicate Reverted(o: Object, ev: Evidence) {
    Active(o.status) ==> o.status.index in ev.reverted
  }

  predicate DropsFinalizer(o: Object, p: Object, ev: Evidence) {
    o.meta.deleting && Reverted(o, ev) && p == o.(meta := o.meta.(finalizer := false))
  }

  predicate Halts(o: Object, p: Object, ev: Evidence) {
    && o.meta.haltReason.Some? && o.status.phase != Halted && Reverted(o, ev)
    && p == o.(status := o.status.(phase := Halted, haltReason := o.meta.haltReason))
  }

  predicate ClearsHalt(o: Object, p: Object) {
    o.status.phase == Halted && p == o.(meta := Cleared(o.meta))
  }

  /** The controller acts on its own account only while no halt is requested. */
  predicate Quiet(o: Object) {
    !o.meta.deleting && o.meta.finalizer && o.meta.haltReason.None?
  }

  predicate Begins(o: Object, p: Object) {
    Quiet(o) && (o.status.phase == Unset || o.status.phase == Pending) && p == o.(status := o.status.(phase := Running))
  }

  predicate Completes(spec: Spec, o: Object, p: Object) {
    && Quiet(o) && o.status.phase == Running && o.status.index >= |spec.scenarios|
    && p == o.(status := o.status.(phase := Completed))
  }

  predicate Fails(o: Object, p: Object) {
    Quiet(o) && o.status.phase == Running && !Active(o.status) && p == o.(status := o.status.(phase := Failed))
  }

  /** The only state in which a scenario is injected. */
  predicate Injectable(spec: Spec, o: Object) {
    var st := o.status;
    && Quiet(o) && st.phase == Running && st.index < |spec.scenarios| && !Active(st)
    && spec.scenarios[st.index].kind.PodKillType?
  }

  predicate Injects(spec: Spec, o: Object, p: Object, ev: Evidence) {
    var st := o.status;
    && Injectable(spec, o)
    && ev.injected == Some(st.index) && ev.read.Some?
    && p == o.(status := Injected(spec.scenarios[st.index], st, Trunc(ev.read.value)))
  }

  predicate Recovers(o: Object, p: Object, ev: Evidence) {
    var st := o.status;
    && Quiet(o) && st.phase == Running && Active(st) && st.recoveredAt.None? && ev.read.Some?
    && Trunc(ev.read.value) - st.injectedAt.value >= GRACE
    && p == o.(status := st.(recoveredAt := Some(Trunc(ev.read.value))))
  }

  predicate Advances(spec: Spec, o: Object, p: Object, ev: Evidence) {
    var st := o.status;
    && Quiet(o) && st.phase == Running && Active(st) && Reverted(o, ev) && ev.read.Some?
    && st.index < |spec.scenarios|
    && ev.read.value - st.injectedAt.value >= spec.scenarios[st.index].duration
    && MeanReadable(st)
    && p == o.(status := Advanced(st))
  }

  /** The watcher asks for a halt. */
  predicate Annotates(o: Object, p: Object) {
    && p.meta.haltReason.Some? && p.meta.haltCode.Some?
    && p == o.(meta := o.meta.(haltReason := p.meta.haltReason, haltCode := p.meta.haltCode))
  }

  predicate MarksDeleted(o: Object, p: Object) {
    p == o.(meta := o.meta.(deleting := true))
  }

  predicate ControllerMove(spec: Spec, o: Object, p: Object, ev: Evidence) {
    || AddsFinalizer(o, p)
    || DropsFinalizer(o, p, ev)
    || Halts(o, p, ev)
    || ClearsHalt(o, p)
    || Begins(o, p)
    || Completes(spec, o, p)
    || Fails(o, p)
    || Injects(spec, o, p, ev)
    || Recovers(o, p, ev)
    || Advances(spec, o, p, ev)
  }

  predicate Move(spec: Spec, o: Object, p: Object, ev: Evidence) {
    !Gone(o) && (ControllerMove(spec, o, p, ev) || Annotates(o, p) || MarksDeleted(o, p))
  }

  lemma MoveKeepsSound(spec: Spec, o: Object, p: Object, ev: Evidence)
    requires Sound(spec, o) && Move(spec, o, p, ev)
    ensures Sound(spec, p)
  {
  }

  predicate Counting(p: Prog<Call>) {
    p.Perform? && p.call.CountHalted?
  }

  /** Running `p` against object `o`, with `ev` done so far, only ever commits moves, injects
      configured counts, counts a halt only right after committing one, and never panics. */
  predicate Safe(spec: Spec, o: Object, ev: Evidence, p: Prog<Call>)
    decreases p
  {
    match p
    case Return(r) => r != Panic
    case Perform(c, ok, err) =>
      && !Counting(err)
      && Safe(spec, o, ev, err)
      && match c
         case ReadClock(t) =>
           && !Counting(ok)
           && (ev.read.None? || ev.read.value <= t ==> Safe(spec, o, ev.(read := Some(t)), ok))
         case Inject(i, n) =>
           && !Counting(ok)
           && Injectable(spec, o) && i == o.status.index && n == Count(spec.scenarios[i])
           && Safe(spec, o, ev.(injected := Some(i)), ok)
         case Revert(i) =>
           && !Counting(ok)
           && Active(o.status) && i == o.status.index
           && Safe(spec, o, ev.(reverted := ev.reverted + {i}), ok)
         case PutStatus(st) =>
           var q := o.(status := st);
           && ControllerMove(spec, o, q, ev)
           && (Counting(ok) ==> o.status.phase != Halted && st.phase == Halted)
           && Safe(spec, q, NO_EVIDENCE, ok) && Safe(spec, q, NO_EVIDENCE, err)
         case PutMeta(m) =>
           var q := o.(meta := m);
           && ControllerMove(spec, o, q, ev)
           && !Counting(ok)
           && Safe(spec, q, NO_EVIDENCE, ok) && Safe(spec, q, NO_EVIDENCE, err)
         case CountHalted(_) => !Counting(ok) && Safe(spec, o, ev, ok)
  }

  lemma EncodeStored(st: Status)
    requires WholeSeconds(st)
    ensures Encode(st) == st
  {
  }

  lemma PutMetaSafe(spec: Spec, o: Object, ev: Evidence, m: Meta, res: Result)
    requires res != Panic && ControllerMove(spec, o, o.(meta := m), ev)
    ensures Safe(spec, o, ev, Perform(PutMeta(m), Return(res), Return(Error)))
  {
  }

  lemma PutSafe(spec: Spec, o: Object, ev: Evidence, st: Status, res: Result)
    requires res != Panic && ControllerMove(spec, o, o.(status := Encode(st)), ev)
    ensures Safe(spec, o, ev, Put(st, res))
  {
  }

  /** Reading the clock and then storing a status that depends on the reading. */
  lemma StampSafe(spec: Spec, o: Object, ev: Evidence, st: Status, res: Result, t: int)
    requires res != Panic
    requires ev.read.None? || ev.read.value <= t ==>
               ControllerMove(spec, o, o.(status := Encode(st)), ev.(read := Some(t)))
    ensures Safe(spec, o, ev, Perform(ReadClock(t), Put(st, res), Return(Error)))
  {
  }

  lemma StopSafe(spec: Spec, o: Object, ev: Evidence)
    requires Sound(spec, o) && Reverted(o, ev)
    requires o.meta.haltReason.Some? && o.status.phase != Halted
    ensures Safe(spec, o, ev, StopProg(o))
  {
  }

  lemma HaltSafe(spec: Spec, o: Object)
    requires Sound(spec, o) && o.meta.haltReason.Some?
    ensures Safe(spec, o, NO_EVIDENCE, HaltProg(spec, o))
  {
    if o.status.phase == Halted {
      PutMetaSafe(spec, o, NO_EVIDENCE, Cleared(o.meta), Stop);
    } else if Active(o.status) {
      StopSafe(spec, o, NO_EVIDENCE.(reverted := {} + {o.status.index}));
    } else {
      StopSafe(spec, o, NO_EVIDENCE);
    }
  }

  lemma FailSafe(spec: Spec, o: Object, ev: Evidence)
    requires Sound(spec, o) && Quiet(o) && o.status.phase == Running && !Active(o.status)
    ensures Safe(spec, o, ev, FailProg(o.status))
  {
  }

  lemma InjectSafe(spec: Spec, o: Object, a: Answers)
    requires Sound(spec, o) && Quiet(o) && o.status.phase == Running && !Active(o.status)
    requires o.status.index < |spec.scenarios|
    ensures Safe(spec, o, NO_EVIDENCE, InjectProg(spec.scenarios[o.status.index], o.status, a))
  {
    var st := o.status;
    var s := spec.scenarios[st.index];
    FailSafe(spec, o, NO_EVIDENCE);
    if s.kind.PodKillType? {
      var ev := NO_EVIDENCE.(injected := Some(st.index));
      assert Encode(Injected(s, st, a.stampAt)) == Injected(s, st, Trunc(a.stampAt));
      StampSafe(spec, o, ev, Injected(s, st, a.stampAt), RequeueAfter(POLL), a.stampAt);
    }
  }

  lemma PollSafe(spec: Spec, o: Object, remaining: int, ev: Evidence, a: Answers)
    requires Sound(spec, o) && Quiet(o) && o.status.phase == Running && Active(o.status)
    ensures Safe(spec, o, ev, PollProg(spec, o.status, o.status.injectedAt.value, remaining, a))
  {
    var st := o.status;
    var at := st.injectedAt.value;
    var poll := RequeueAfter(Min(POLL, remaining));
    var ev1 := ev.(read := Some(a.graceAt));
    if st.recoveredAt.None? && a.graceAt - at >= GRACE {
      if a.graceAt <= a.stampAt {
        TruncKeepsWhole(a.stampAt, at + GRACE);
      }
      EncodeStored(st);
      StampSafe(spec, o, ev1, st.(recoveredAt := Some(a.stampAt)), poll, a.stampAt);
    }
  }

  lemma AdvanceSafe(spec: Spec, o: Object, ev: Evidence)
    requires Sound(spec, o) && Quiet(o) && o.status.phase == Running && Active(o.status)
    requires ev.read.Some? && ev.read.value - o.status.injectedAt.value >= spec.scenarios[o.status.index].duration
    ensures Safe(spec, o, ev, AdvanceProg(spec, spec.scenarios[o.status.index], o.status))
  {
  }

  lemma RunningSafe(spec: Spec, o: Object, a: Answers)
    requires Sound(spec, o) && Quiet(o) && o.status.phase == Running
    ensures Safe(spec, o, NO_EVIDENCE, RunningProg(spec, o.status, a))
  {
    var st := o.status;
    EncodeStored(st);
    if st.index >= |spec.scenarios| {
      PutSafe(spec, o, NO_EVIDENCE, st.(phase := Completed), Stop);
    } else if !Active(st) {
      InjectSafe(spec, o, a);
    } else {
      var ev := NO_EVIDENCE.(read := Some(a.elapsedAt));
      var remaining := spec.scenarios[st.index].duration - (a.elapsedAt - st.injectedAt.value);
      if remaining > 0 {
        PollSafe(spec, o, remaining, ev, a);
      } else {
        AdvanceSafe(spec, o, ev);
      }
    }
  }

  /** Every reconcile of a sound object is safe, whatever the world answers. */
  lemma ReconcileSafe(spec: Spec, o: Object, a: Answers)
    requires Sound(spec, o)
    ensures Safe(spec, o, NO_EVIDENCE, ReconcileProg(spec, o, a)) && !Counting(ReconcileProg(spec, o, a))
  {
    EncodeStored(o.status);
    if o.meta.deleting {
      if o.meta.finalizer {
        var p := o.(meta := o.meta.(finalizer := false));
        var ev := if Active(o.status) then NO_EVIDENCE.(reverted := {} + {o.status.index}) else NO_EVIDENCE;
        PutMetaSafe(spec, o, ev, p.meta, Stop);
      }
    } else if !o.meta.finalizer {
      PutMetaSafe(spec, o, NO_EVIDENCE, o.meta.(finalizer := true), RequeueAfter(SECOND));
    } else if o.meta.haltReason.Some? {
      HaltSafe(spec, o);
    } else if o.status.phase == Unset || o.status.phase == Pending {
      PutSafe(spec, o, NO_EVIDENCE, o.status.(phase := Running), RequeueAfter(SECOND));
    } else if o.status.phase == Running {
      RunningSafe(spec, o, a);
    }
  }
}
