/** One stored experiment, any number of reconciles in flight on it (of one process or of
    several), the safeguard watcher and its users. The store is the list of all versions
    the object has had; an update is accepted only if it was made from the last one. */
module ExperimentMachine {
  import opened Wrappers
  import opened Numbers
  import opened Effects
  import opened ExperimentApi
  import opened ExperimentProgram
  import opened ExperimentMoves
  import P = PodKill

  /** What an injection found running and what it deleted of it, and where it is logged. */
  datatype Kill = Kill(entry: nat, found: nat, deleted: nat)

  const NO_KILL := Kill(0, 0, 0)

  /** The scenario client's own log: what really happened to the cluster. */
  datatype Effect = DidInject(index: nat, kill: Kill, ok: bool) | DidRevert(index: nat)

  /** A version with its commit time, the length of the effect log at that moment, what its
      writer had done since reading the previous version, and what its injection killed. */
  datatype Version = Version(obj: Object, at: int, pos: nat, ev: Evidence, kill: Kill)

  /** A reconcile in flight: the version it works from, when and where in the effect log it
      got hold of it, what it has done since, and what it will do next. */
  datatype Worker = Worker(base: nat, since: int, from: nat, ev: Evidence, kill: Kill, prog: Prog<Call>)

  datatype World = World(
    spec: Spec,
    hist: seq<Version>,
    now: int,
    log: seq<Effect>,
    halted: nat,
    workers: map<nat, Worker>)

  /** `cluster` is what an injection meets; `deleted` is how far a refused one got. A reconcile
      that dies inside an injection is one refused there that then crashes. */
  datatype Action =
    | Tick(t: int)
    | Start(id: nat, version: nat, answers: Answers)
    | Succeed(id: nat, cluster: P.Cluster)
    | Refuse(id: nat, cluster: P.Cluster, deleted: nat)
    | LoseReply(id: nat)
    | Crash(id: nat)
    | Annotate(version: nat, reason: string, code: string)
    | Delete

  predicate Initial(w: World) {
    && |w.hist| == 1
    && w.hist[0].obj.status == FRESH_STATUS && !w.hist[0].obj.meta.deleting
    && w.hist[0] == Version(w.hist[0].obj, w.now, 0, NO_EVIDENCE, NO_KILL)
    && w.log == [] && w.halted == 0 && w.workers == map[]
  }

  predicate IsPut(c: Call) {
    c.PutStatus? || c.PutMeta?
  }

  function Written(c: Call, o: Object): Object
    requires IsPut(c)
  {
    if c.PutStatus? then o.(status := c.status) else o.(meta := c.meta)
  }

  predicate Current(w: World, version: nat) {
    version + 1 == |w.hist| && !Gone(w.hist[version].obj)
  }

  predicate Enabled(w: World, a: Action) {
    match a
    case Tick(t) => w.now <= t
    case Start(id, version, _) => id !in w.workers && version < |w.hist|
    case Succeed(id, cluster) =>
      id in w.workers && w.workers[id].prog.Perform?
      && (match w.workers[id].prog.call
          case ReadClock(t) => t == w.now
          case Inject(_, n) => P.Refusal(TargetName(w.spec), n, cluster).None?
          case PutStatus(_) => Current(w, w.workers[id].base)
          case PutMeta(_) => Current(w, w.workers[id].base)
          case Revert(_) => true
          case CountHalted(_) => true)
    case Refuse(id, cluster, deleted) =>
      id in w.workers && w.workers[id].prog.Perform?
      && (match w.workers[id].prog.call
          case ReadClock(_) => false
          case CountHalted(_) => false
          case Inject(_, n) => P.MayFail(TargetName(w.spec), n, cluster, deleted)
          case _ => true)
    case LoseReply(id) =>
      id in w.workers && w.workers[id].prog.Perform? && IsPut(w.workers[id].prog.call) && Current(w, w.workers[id].base)
    case Crash(id) => id in w.workers
    case Annotate(version, _, _) => Current(w, version)
    case Delete => |w.hist| > 0 && !Gone(w.hist[|w.hist| - 1].obj)
  }

  function Commit(w: World, o: Object, ev: Evidence, kill: Kill): World {
    w.(hist := w.hist + [Version(o, w.now, |w.log|, ev, kill)])
  }

  /** The world after worker `id` committed its update; it now works from what it wrote. */
  function CommitBy(w: World, id: nat, next: Prog<Call>): World
    requires id in w.workers && w.workers[id].prog.Perform? && IsPut(w.workers[id].prog.call)
    requires Current(w, w.workers[id].base)
  {
    var x := w.workers[id];
    var o := Written(x.prog.call, w.hist[x.base].obj);
    var y := Worker(|w.hist|, w.now, |w.log|, NO_EVIDENCE, NO_KILL, next);
    Commit(w, o, x.ev, x.kill).(workers := w.workers[id := y])
  }

  /** A successful injection of `n` pods. */
  function FullKill(entry: nat, n: int, cluster: P.Cluster): Kill
    requires n > 0
  {
    Kill(entry, P.Found(cluster), Min(n, P.Found(cluster)))
  }

  function Step(w: World, a: Action): World
    requires Enabled(w, a)
  {
    match a
    case Tick(t) => w.(now := t)
    case Start(id, version, answers) =>
      var prog := ReconcileProg(w.spec, w.hist[version].obj, answers);
      w.(workers := w.workers[id := Worker(version, w.now, |w.log|, NO_EVIDENCE, NO_KILL, prog)])
    case Succeed(id, cluster) =>
      var x := w.workers[id];
      var y := x.(prog := x.prog.ok);
      (match x.prog.call
       case ReadClock(t) => w.(workers := w.workers[id := y.(ev := x.ev.(read := Some(t)))])
       case Inject(i, n) =>
         var kill := FullKill(|w.log|, n, cluster);
         w.(log := w.log + [DidInject(i, kill, true)],
            workers := w.workers[id := y.(ev := x.ev.(injected := Some(i)), kill := kill)])
       case Revert(i) =>
         w.(log := w.log + [DidRevert(i)],
            workers := w.workers[id := y.(ev := x.ev.(reverted := x.ev.reverted + {i}))])
       case CountHalted(_) => w.(halted := w.halted + 1, workers := w.workers[id := y])
       case PutStatus(_) => CommitBy(w, id, x.prog.ok)
       case PutMeta(_) => CommitBy(w, id, x.prog.ok))
    case Refuse(id, cluster, deleted) =>
      var x := w.workers[id];
      var failed := w.(workers := w.workers[id := x.(prog := x.prog.err)]);
      if !x.prog.call.Inject? then failed
      else failed.(log := w.log + [DidInject(x.prog.call.index, Kill(|w.log|, P.Found(cluster), deleted), false)])
    case LoseReply(id) => CommitBy(w, id, w.workers[id].prog.err)
    case Crash(id) => w.(workers := w.workers - {id})
    case Annotate(version, reason, code) =>
      var o := w.hist[version].obj;
      Commit(w, o.(meta := o.meta.(haltReason := Some(reason), haltCode := Some(code))), NO_EVIDENCE, NO_KILL)
    case Delete =>
      var o := w.hist[|w.hist| - 1].obj;
      Commit(w, o.(meta := o.meta.(deleting := true)), NO_EVIDENCE, NO_KILL)
  }

  predicate Legal(w: World, acts: seq<Action>)
    decreases |acts|
  {
    acts == [] || (Enabled(w, acts[0]) && Legal(Step(w, acts[0]), acts[1..]))
  }

  function Run(w: World, acts: seq<Action>): World
    requires Legal(w, acts)
    decreases |acts|
  {
    if acts == [] then w else Run(Step(w, acts[0]), acts[1..])
  }

  predicate RevertLogged(log: seq<Effect>, lo: nat, hi: nat, i: nat) {
    exists r :: lo <= r < hi <= |log| && log[r] == DidRevert(i)
  }

  predicate InjectLogged(log: seq<Effect>, lo: nat, hi: nat, i: nat, kill: Kill) {
    lo <= kill.entry < hi <= |log| && log[kill.entry] == DidInject(i, kill, true)
  }

  /** A kill as a successful injection of `n` pods makes it. */
  predicate Complete(n: int, kill: Kill) {
    n > 0 && kill.found > 0 && kill.deleted == Min(n, kill.found)
  }

  /** `ev` tells the truth about what stands in the log between `lo` and `hi`. */
  predicate Witnessed(spec: Spec, log: seq<Effect>, lo: nat, hi: nat, ev: Evidence, kill: Kill) {
    && (forall i :: i in ev.reverted ==> RevertLogged(log, lo, hi, i))
    && (ev.injected.Some? ==>
          && InjectLogged(log, lo, hi, ev.injected.value, kill)
          && ev.injected.value < |spec.scenarios| && Complete(Count(spec.scenarios[ev.injected.value]), kill))
  }

  /** Version `b` follows `a` by a move, and its writer acted between the two commits. */
  predicate Linked(spec: Spec, log: seq<Effect>, a: Version, b: Version) {
    && Move(spec, a.obj, b.obj, b.ev)
    && a.at <= b.at && a.pos <= b.pos <= |log|
    && (b.ev.read.Some? ==> a.at <= b.ev.read.value <= b.at)
    && Witnessed(spec, log, a.pos, b.pos, b.ev, b.kill)
  }

  predicate LinkedAt(spec: Spec, log: seq<Effect>, hist: seq<Version>, k: nat)
    requires 0 < k < |hist|
  {
    Linked(spec, log, hist[k - 1], hist[k])
  }

  predicate Chain(spec: Spec, hist: seq<Version>, now: int, log: seq<Effect>) {
    && |hist| > 0
    && hist[0].obj.status == FRESH_STATUS && !hist[0].obj.meta.deleting && hist[0].kill == NO_KILL
    && (forall k :: 0 <= k < |hist| ==> Sound(spec, hist[k].obj))
    && (forall k :: 0 < k < |hist| ==> LinkedAt(spec, log, hist, k))
    && (forall k :: 0 <= k < |hist| ==> hist[k].at <= now && hist[k].pos <= |log|)
  }

  predicate WorkerSound(spec: Spec, hist: seq<Version>, now: int, log: seq<Effect>, x: Worker) {
    && x.base < |hist|
    && hist[x.base].at <= x.since <= now
    && hist[x.base].pos <= x.from <= |log|
    && (x.ev.read.Some? ==> x.since <= x.ev.read.value <= now)
    && Witnessed(spec, log, x.from, |log|, x.ev, x.kill)
    && Safe(spec, hist[x.base].obj, x.ev, x.prog)
  }

  predicate AllSound(w: World) {
    forall id :: id in w.workers ==> WorkerSound(w.spec, w.hist, w.now, w.log, w.workers[id])
  }

  predicate Latest(w: World, phase: Phase)
    requires |w.hist| > 0
  {
    w.hist[|w.hist| - 1].obj.status.phase == phase
  }

  /** A halt is counted by the reconcile that committed it, and by no other. */
  predicate HaltCounted(w: World)
    requires |w.hist| > 0
  {
    && w.halted <= 1
    && (!Latest(w, Halted) ==> w.halted == 0)
    && (forall a :: a in w.workers && Counting(w.workers[a].prog) ==> Latest(w, Halted) && w.halted == 0)
    && (forall a, b :: a in w.workers && b in w.workers && Counting(w.workers[a].prog) && Counting(w.workers[b].prog)
                       ==> a == b)
  }

  predicate Invariant(w: World) {
    && Chain(w.spec, w.hist, w.now, w.log)
    && AllSound(w)
    && HaltCounted(w)
  }

  lemma InitialInvariant(w: World)
    requires Initial(w)
    ensures Invariant(w)
  {
  }

  lemma WitnessedGrows(spec: Spec, log: seq<Effect>, more: seq<Effect>, lo: nat, hi: nat, hi': nat,
                       ev: Evidence, kill: Kill)
    requires Witnessed(spec, log, lo, hi, ev, kill) && log <= more && hi <= hi' <= |more|
    ensures Witnessed(spec, more, lo, hi', ev, kill)
  {
  }

  lemma LaterChain(spec: Spec, hist: seq<Version>, now: int, now': int, log: seq<Effect>, log': seq<Effect>)
    requires Chain(spec, hist, now, log) && now <= now' && log <= log'
    ensures Chain(spec, hist, now', log')
  {
    forall k | 0 < k < |hist| ensures LinkedAt(spec, log', hist, k) {
      var a, b := hist[k - 1], hist[k];
      assert LinkedAt(spec, log, hist, k);
      WitnessedGrows(spec, log, log', a.pos, b.pos, b.pos, b.ev, b.kill);
    }
  }

  lemma LaterWorker(spec: Spec, hist: seq<Version>, now: int, now': int, log: seq<Effect>, log': seq<Effect>, x: Worker)
    requires WorkerSound(spec, hist, now, log, x) && now <= now' && log <= log'
    ensures WorkerSound(spec, hist, now', log', x)
  {
  }

  /** The log and the clock may move on without disturbing anything. */
  lemma Later(w: World, now: int, log: seq<Effect>)
    requires Invariant(w) && w.now <= now && w.log <= log
    ensures Invariant(w.(now := now, log := log))
  {
    hide Chain, WorkerSound;
    LaterChain(w.spec, w.hist, w.now, now, w.log, log);
    forall id | id in w.workers ensures WorkerSound(w.spec, w.hist, now, log, w.workers[id]) {
      LaterWorker(w.spec, w.hist, w.now, now, w.log, log, w.workers[id]);
    }
  }

  /** Replacing one worker by one that does not count a halt. */
  lemma ReplaceCounted(w: World, id: nat, y: Worker)
    requires |w.hist| > 0 && HaltCounted(w) && !Counting(y.prog)
    ensures HaltCounted(w.(workers := w.workers[id := y]))
  {
  }

  lemma ReplaceSound(w: World, id: nat, y: Worker)
    requires AllSound(w) && WorkerSound(w.spec, w.hist, w.now, w.log, y)
    ensures AllSound(w.(workers := w.workers[id := y]))
  {
  }

  lemma Replace(w: World, id: nat, y: Worker)
    requires Invariant(w) && WorkerSound(w.spec, w.hist, w.now, w.log, y) && !Counting(y.prog)
    ensures Invariant(w.(workers := w.workers[id := y]))
  {
    ReplaceCounted(w, id, y);
    ReplaceSound(w, id, y);
  }

  lemma WitnessedFrom(spec: Spec, log: seq<Effect>, lo: nat, lo': nat, hi: nat, ev: Evidence, kill: Kill)
    requires Witnessed(spec, log, lo, hi, ev, kill) && lo' <= lo
    ensures Witnessed(spec, log, lo', hi, ev, kill)
  {
  }

  lemma ChainGrows(spec: Spec, hist: seq<Version>, now: int, log: seq<Effect>, v: Version)
    requires Chain(spec, hist, now, log)
    requires Sound(spec, v.obj) && Linked(spec, log, hist[|hist| - 1], v) && v.at <= now
    ensures Chain(spec, hist + [v], now, log)
  {
    var hist' := hist + [v];
    forall k | 0 < k < |hist'| ensures LinkedAt(spec, log, hist', k) {
      if k < |hist| {
        assert LinkedAt(spec, log, hist, k);
      }
    }
    forall k | 0 <= k < |hist'| ensures Sound(spec, hist'[k].obj) && hist'[k].at <= now && hist'[k].pos <= |log| {
      if k < |hist| {
        assert hist'[k] == hist[k];
      }
    }
  }

  lemma CommitKeepsChain(w: World, o: Object, since: int, from: nat, ev: Evidence, kill: Kill)
    requires Chain(w.spec, w.hist, w.now, w.log)
    requires Move(w.spec, w.hist[|w.hist| - 1].obj, o, ev)
    requires w.hist[|w.hist| - 1].at <= since <= w.now && w.hist[|w.hist| - 1].pos <= from <= |w.log|
    requires ev.read.Some? ==> since <= ev.read.value <= w.now
    requires Witnessed(w.spec, w.log, from, |w.log|, ev, kill)
    ensures Chain(w.spec, Commit(w, o, ev, kill).hist, w.now, w.log)
  {
    var last := w.hist[|w.hist| - 1];
    var v := Version(o, w.now, |w.log|, ev, kill);
    assert Sound(w.spec, o) by {
      MoveKeepsSound(w.spec, last.obj, o, ev);
    }
    WitnessedFrom(w.spec, w.log, from, last.pos, |w.log|, ev, kill);
    ChainGrows(w.spec, w.hist, w.now, w.log, v);
  }

  /** Versions are only ever appended, so a worker's footing stays where it was. */
  lemma WorkersKeep(w: World, v: Version)
    requires AllSound(w)
    ensures forall id :: id in w.workers ==> WorkerSound(w.spec, w.hist + [v], w.now, w.log, w.workers[id])
  {
  }

  lemma MoveKeepsHalted(spec: Spec, o: Object, p: Object, ev: Evidence)
    requires Move(spec, o, p, ev) && o.status.phase == Halted
    ensures p.status == o.status
  {
  }

  /** What a sound worker promises about the update it is about to make, and that it stays
      sound on top of it whether or not it hears of its success. */
  lemma CommittedWorker(spec: Spec, hist: seq<Version>, now: int, log: seq<Effect>, x: Worker, v: Version, ok: bool)
    requires WorkerSound(spec, hist, now, log, x) && x.prog.Perform? && IsPut(x.prog.call)
    requires x.base + 1 == |hist| && v == Version(Written(x.prog.call, hist[x.base].obj), now, |log|, x.ev, x.kill)
    ensures ControllerMove(spec, hist[x.base].obj, v.obj, x.ev)
    ensures hist[x.base].at <= x.since <= now && hist[x.base].pos <= x.from <= |log|
    ensures x.ev.read.Some? ==> x.since <= x.ev.read.value <= now
    ensures Witnessed(spec, log, x.from, |log|, x.ev, x.kill)
    ensures var next := if ok then x.prog.ok else x.prog.err;
            && WorkerSound(spec, hist + [v], now, log, Worker(|hist|, now, |log|, NO_EVIDENCE, NO_KILL, next))
            && (Counting(next) ==> hist[x.base].obj.status.phase != Halted && v.obj.status.phase == Halted)
  {
  }

  lemma CommitByInvariant(w: World, id: nat, ok: bool)
    requires Invariant(w) && id in w.workers && w.workers[id].prog.Perform? && IsPut(w.workers[id].prog.call)
    requires Current(w, w.workers[id].base)
    ensures Invariant(CommitBy(w, id, if ok then w.workers[id].prog.ok else w.workers[id].prog.err))
  {
    hide Chain, WorkerSound, HaltCounted, ControllerMove;
    var x := w.workers[id];
    var before := w.hist[x.base].obj;
    var v := Version(Written(x.prog.call, before), w.now, |w.log|, x.ev, x.kill);
    var w' := CommitBy(w, id, if ok then x.prog.ok else x.prog.err);
    CommittedWorker(w.spec, w.hist, w.now, w.log, x, v, ok);
    CommitKeepsChain(w, v.obj, x.since, x.from, x.ev, x.kill);
    WorkersKeep(w, v);
    ReplaceSound(w.(hist := w.hist + [v]), id, w'.workers[id]);
    if before.status.phase == Halted {
      MoveKeepsHalted(w.spec, before, v.obj, x.ev);
    }
    CommitCounted(w, id, w'.workers[id], v);
  }

  lemma CommitCounted(w: World, id: nat, y: Worker, v: Version)
    requires |w.hist| > 0 && HaltCounted(w) && id in w.workers
    requires Latest(w, Halted) ==> v.obj.status.phase == Halted
    requires Counting(y.prog) ==> !Latest(w, Halted) && v.obj.status.phase == Halted
    ensures HaltCounted(w.(hist := w.hist + [v], workers := w.workers[id := y]))
  {
  }

  lemma EnvironmentInvariant(w: World, o: Object)
    requires Invariant(w) && !Gone(w.hist[|w.hist| - 1].obj)
    requires Annotates(w.hist[|w.hist| - 1].obj, o) || MarksDeleted(w.hist[|w.hist| - 1].obj, o)
    ensures Invariant(Commit(w, o, NO_EVIDENCE, NO_KILL))
  {
    hide WorkerSound, ControllerMove;
    assert Witnessed(w.spec, w.log, |w.log|, |w.log|, NO_EVIDENCE, NO_KILL);
    CommitKeepsChain(w, o, w.now, |w.log|, NO_EVIDENCE, NO_KILL);
    WorkersKeep(w, Version(o, w.now, |w.log|, NO_EVIDENCE, NO_KILL));
  }

  lemma CountInvariant(w: World, id: nat, cluster: P.Cluster)
    requires Invariant(w) && Enabled(w, Succeed(id, cluster)) && w.workers[id].prog.call.CountHalted?
    ensures Invariant(Step(w, Succeed(id, cluster)))
  {
    hide Chain, Witnessed;
    var x := w.workers[id];
    var w' := Step(w, Succeed(id, cluster));
    assert WorkerSound(w.spec, w.hist, w.now, w.log, x);
    ReplaceSound(w, id, w'.workers[id]);
    assert forall j :: j in w'.workers ==> j == id || (j in w.workers && w'.workers[j] == w.workers[j]);
  }

  lemma InjectedWorker(spec: Spec, hist: seq<Version>, now: int, log: seq<Effect>, x: Worker, kill: Kill, y: Worker)
    requires WorkerSound(spec, hist, now, log, x) && x.prog.Perform? && x.prog.call.Inject?
    requires Complete(x.prog.call.count, kill) && kill.entry == |log|
    requires y == x.(prog := x.prog.ok, ev := x.ev.(injected := Some(x.prog.call.index)), kill := kill)
    ensures WorkerSound(spec, hist, now, log + [DidInject(x.prog.call.index, kill, true)], y) && !Counting(y.prog)
  {
    var i := x.prog.call.index;
    var log' := log + [DidInject(i, kill, true)];
    assert log'[|log|] == DidInject(i, kill, true);
    WitnessedGrows(spec, log, log', x.from, |log|, |log'|, x.ev.(injected := None), kill);
  }

  lemma RevertedWorker(spec: Spec, hist: seq<Version>, now: int, log: seq<Effect>, x: Worker)
    requires WorkerSound(spec, hist, now, log, x) && x.prog.Perform? && x.prog.call.Revert?
    ensures var i := x.prog.call.index;
            var y := x.(prog := x.prog.ok, ev := x.ev.(reverted := x.ev.reverted + {i}));
            WorkerSound(spec, hist, now, log + [DidRevert(i)], y) && !Counting(y.prog)
  {
    var i := x.prog.call.index;
    var log' := log + [DidRevert(i)];
    assert log'[|log|] == DidRevert(i);
    WitnessedGrows(spec, log, log', x.from, |log|, |log'|, x.ev, x.kill);
  }

  lemma ReadWorker(spec: Spec, hist: seq<Version>, now: int, log: seq<Effect>, x: Worker)
    requires WorkerSound(spec, hist, now, log, x) && x.prog.Perform? && x.prog.call == ReadClock(now)
    ensures var y := x.(prog := x.prog.ok, ev := x.ev.(read := Some(now)));
            WorkerSound(spec, hist, now, log, y) && !Counting(y.prog)
  {
  }

  lemma RefusedWorker(spec: Spec, hist: seq<Version>, now: int, log: seq<Effect>, x: Worker)
    requires WorkerSound(spec, hist, now, log, x) && x.prog.Perform?
    ensures WorkerSound(spec, hist, now, log, x.(prog := x.prog.err)) && !Counting(x.prog.err)
  {
  }

  lemma SucceedInvariant(w: World, id: nat, cluster: P.Cluster)
    requires Invariant(w) && Enabled(w, Succeed(id, cluster))
    ensures Invariant(Step(w, Succeed(id, cluster)))
  {
    hide Chain, WorkerSound, HaltCounted;
    var x := w.workers[id];
    var w' := Step(w, Succeed(id, cluster));
    match x.prog.call
    case ReadClock(t) =>
      ReadWorker(w.spec, w.hist, w.now, w.log, x);
      Replace(w, id, w'.workers[id]);
    case Inject(i, n) =>
      Later(w, w.now, w'.log);
      InjectedWorker(w.spec, w.hist, w.now, w.log, x, FullKill(|w.log|, n, cluster), w'.workers[id]);
      Replace(w.(log := w'.log), id, w'.workers[id]);
    case Revert(i) =>
      Later(w, w.now, w'.log);
      RevertedWorker(w.spec, w.hist, w.now, w.log, x);
      Replace(w.(log := w'.log), id, w'.workers[id]);
    case CountHalted(_) =>
      CountInvariant(w, id, cluster);
    case PutStatus(_) =>
      CommitByInvariant(w, id, true);
    case PutMeta(_) =>
      CommitByInvariant(w, id, true);
  }

  lemma RefuseInvariant(w: World, id: nat, cluster: P.Cluster, deleted: nat)
    requires Invariant(w) && Enabled(w, Refuse(id, cluster, deleted))
    ensures Invariant(Step(w, Refuse(id, cluster, deleted)))
  {
    hide Chain, WorkerSound, HaltCounted;
    var x := w.workers[id];
    var w' := Step(w, Refuse(id, cluster, deleted));
    RefusedWorker(w.spec, w.hist, w.now, w.log, x);
    Later(w, w.now, w'.log);
    LaterWorker(w.spec, w.hist, w.now, w.now, w.log, w'.log, x.(prog := x.prog.err));
    Replace(w.(log := w'.log), id, w'.workers[id]);
  }

  lemma StartInvariant(w: World, id: nat, version: nat, answers: Answers)
    requires Invariant(w) && Enabled(w, Start(id, version, answers))
    ensures Invariant(Step(w, Start(id, version, answers)))
  {
    hide Linked, HaltCounted;
    ReconcileSafe(w.spec, w.hist[version].obj, answers);
    var y := Step(w, Start(id, version, answers)).workers[id];
    assert Witnessed(w.spec, w.log, y.from, |w.log|, y.ev, y.kill);
    assert WorkerSound(w.spec, w.hist, w.now, w.log, y);
    Replace(w, id, y);
  }

  lemma CrashInvariant(w: World, id: nat)
    requires Invariant(w) && id in w.workers
    ensures Invariant(w.(workers := w.workers - {id}))
  {
    hide Chain, WorkerSound;
    var w' := w.(workers := w.workers - {id});
    assert AllSound(w');
  }

  /** Every step of every participant keeps the invariant and only adds to the store. */
  lemma StepInvariant(w: World, a: Action)
    requires Invariant(w) && Enabled(w, a)
    ensures Invariant(Step(w, a))
    ensures Step(w, a).spec == w.spec && w.hist <= Step(w, a).hist
  {
    hide Chain, AllSound, HaltCounted;
    match a
    case Tick(t) =>
      Later(w, t, w.log);
    case Start(id, version, answers) =>
      StartInvariant(w, id, version, answers);
    case Succeed(id, cluster) =>
      SucceedInvariant(w, id, cluster);
    case Refuse(id, cluster, deleted) =>
      RefuseInvariant(w, id, cluster, deleted);
    case LoseReply(id) =>
      CommitByInvariant(w, id, false);
    case Crash(id) =>
      CrashInvariant(w, id);
    case Annotate(version, reason, code) =>
      var o := w.hist[version].obj;
      EnvironmentInvariant(w, o.(meta := o.meta.(haltReason := Some(reason), haltCode := Some(code))));
    case Delete =>
      var o := w.hist[|w.hist| - 1].obj;
      EnvironmentInvariant(w, o.(meta := o.meta.(deleting := true)));
  }

  /** Every interleaving, with stale reads, refused and lost calls and crashes, is a chain
      of atomic moves. */
  lemma {:induction false} RunInvariant(w: World, acts: seq<Action>)
    requires Invariant(w) && Legal(w, acts)
    ensures Invariant(Run(w, acts)) && Run(w, acts).spec == w.spec && w.hist <= Run(w, acts).hist
    decreases |acts|
  {
    hide Invariant, Enabled, Step;
    if acts != [] {
      StepInvariant(w, acts[0]);
      RunInvariant(Step(w, acts[0]), acts[1..]);
    }
  }

  predicate Reachable(w: World, start: World, acts: seq<Action>) {
    Initial(start) && Legal(start, acts) && w == Run(start, acts)
  }

  lemma ReachableInvariant(w: World, start: World, acts: seq<Action>)
    requires Reachable(w, start, acts)
    ensures Invariant(w)
  {
    InitialInvariant(start);
    RunInvariant(start, acts);
  }

  lemma VersionSound(w: World, start: World, acts: seq<Action>, k: nat)
    requires Reachable(w, start, acts) && k < |w.hist|
    ensures Sound(w.spec, w.hist[k].obj)
    ensures k == 0 ==> w.hist[k].obj.status == FRESH_STATUS
  {
    ReachableInvariant(w, start, acts);
  }

  lemma VersionLinked(w: World, start: World, acts: seq<Action>, k: nat)
    requires Reachable(w, start, acts) && 0 < k < |w.hist|
    ensures Sound(w.spec, w.hist[k - 1].obj)
    ensures Linked(w.spec, w.log, w.hist[k - 1], w.hist[k])
    ensures Move(w.spec, w.hist[k - 1].obj, w.hist[k].obj, w.hist[k].ev)
  {
    hide Move, Sound, WorkerSound;
    ReachableInvariant(w, start, acts);
    assert LinkedAt(w.spec, w.log, w.hist, k);
  }
}
