/** What totalPodsKilled counts: the pods that the injections of an experiment deleted, those
    the stored status knows of and those it does not. */
module PodAccounting {
  import opened Wrappers
  import opened Numbers
  import opened ExperimentApi
  import opened ExperimentMoves
  import opened ExperimentMachine
  import opened ExperimentHistory
  import P = PodKill

  // ---------- the machine's injections are those of the scenario ----------

  /** What the pod-kill scenario can do to the cluster, the machine does: every way an
      injection can end is a step, logged with what it found and deleted. */
  lemma InjectionIsStep(w: World, id: nat, cluster: P.Cluster, pick: nat -> nat,
                        err: Option<P.InjectError>, deleted: seq<P.Pod>)
    requires id in w.workers && w.workers[id].prog.Perform? && w.workers[id].prog.call.Inject?
    requires P.Ended(TargetName(w.spec), w.workers[id].prog.call.count, cluster, pick, err, deleted)
    ensures var a := if err.None? then Succeed(id, cluster) else Refuse(id, cluster, |deleted|);
            var i := w.workers[id].prog.call.index;
            var kill := Kill(|w.log|, P.Found(cluster), |deleted|);
            Enabled(w, a) && Step(w, a).log == w.log + [DidInject(i, kill, err.None?)]
  {
    P.OutcomeSize(TargetName(w.spec), w.workers[id].prog.call.count, cluster, pick, err, deleted);
  }

  /** An injection needs a named target, and aims at that name. */
  lemma InjectionNeedsName(w: World, id: nat, cluster: P.Cluster)
    requires Enabled(w, Succeed(id, cluster)) && w.workers[id].prog.call.Inject?
    ensures w.spec.targetName.Some? && w.spec.targetName.value != "" && TargetName(w.spec) == w.spec.targetName.value
  {
  }

  /** And nothing else: every step of an injection is a way it can end. */
  lemma StepIsInjection(w: World, id: nat, cluster: P.Cluster, ok: bool, n: nat, pick: nat -> nat)
    returns (err: Option<P.InjectError>, deleted: seq<P.Pod>)
    requires id in w.workers && w.workers[id].prog.Perform? && w.workers[id].prog.call.Inject?
    requires Enabled(w, if ok then Succeed(id, cluster) else Refuse(id, cluster, n))
    ensures P.Ended(TargetName(w.spec), w.workers[id].prog.call.count, cluster, pick, err, deleted)
    ensures err.None? <==> ok
    ensures var i := w.workers[id].prog.call.index;
            Step(w, if ok then Succeed(id, cluster) else Refuse(id, cluster, n)).log
            == w.log + [DidInject(i, Kill(|w.log|, P.Found(cluster), |deleted|), ok)]
  {
    var call := w.workers[id].prog.call;
    err := P.Refusal(TargetName(w.spec), call.count, cluster);
    deleted := [];
    if err.None? {
      var running := P.RunningPods(cluster.pods.value);
      var order := P.KillOrder(cluster.pods.value, pick);
      P.ShuffledLength(running, |running| - 1, pick);
      if ok {
        deleted := order[..Min(call.count, |order|)];
      } else {
        deleted := order[..n];
        err := Some(P.DeleteFailed(order[n]));
      }
    }
  }

  // ---------- pods killed by recorded injections ----------

  /** Pods really deleted by the injections that the first `n` versions record. */
  function PodsDeleted(hist: seq<Version>, n: nat): nat
    requires n <= |hist|
  {
    if n <= 1 then 0
    else PodsDeleted(hist, n - 1)
         + (if !Active(hist[n - 2].obj.status) && Active(hist[n - 1].obj.status) then hist[n - 1].kill.deleted else 0)
  }

  /** The configured kills that the injection recorded by version `k` had no running pod for. */
  function Missed(spec: Spec, hist: seq<Version>, k: nat): nat
    requires k < |hist|
  {
    var i := hist[k].obj.status.index;
    if i < |spec.scenarios| && hist[k].kill.found < Count(spec.scenarios[i])
    then Count(spec.scenarios[i]) - hist[k].kill.found else 0
  }

  /** The same over all injections that the first `n` versions record. */
  function PodsMissed(spec: Spec, hist: seq<Version>, n: nat): nat
    requires n <= |hist|
  {
    if n <= 1 then 0
    else PodsMissed(spec, hist, n - 1)
         + (if RecordsInjection(hist, n - 1, hist[n - 1].obj.status.index) then Missed(spec, hist, n - 1) else 0)
  }

  lemma MoveKills(spec: Spec, o: Object, p: Object, ev: Evidence)
    requires Sound(spec, o) && Move(spec, o, p, ev)
    ensures KillsStored(p.status)
         == KillsStored(o.status)
          + (if !Active(o.status) && Active(p.status) then Count(spec.scenarios[o.status.index]) else 0)
    ensures !Active(o.status) && Active(p.status) ==> p.status.index == o.status.index
  {
  }

  /** TotalPodsKilled is the configured count of every recorded injection, across halts and
      crashes: what they deleted and what they had no running pod for. */
  lemma {:induction false} KillAccounting(w: World, start: World, acts: seq<Action>, n: nat)
    requires Reachable(w, start, acts) && 1 <= n <= |w.hist|
    ensures Sound(w.spec, w.hist[n - 1].obj)
    ensures var st := w.hist[n - 1].obj.status;
            PodsDeleted(w.hist, n) + PodsMissed(w.spec, w.hist, n) == KillsStored(st) == KillsDue(w.spec, st)
    decreases n
  {
    hide Move, Reachable, Linked, KillsStored;
    VersionSound(w, start, acts, n - 1);
    if n > 1 {
      KillAccounting(w, start, acts, n - 1);
      VersionLinked(w, start, acts, n - 1);
      MoveKills(w.spec, w.hist[n - 2].obj, w.hist[n - 1].obj, w.hist[n - 1].ev);
      var i := w.hist[n - 1].obj.status.index;
      if RecordsInjection(w.hist, n - 1, i) {
        RecordedInjectionHappened(w, start, acts, n - 1, i);
      }
    } else {
      assert KillsStored(FRESH_STATUS) == 0 by {
        NothingKilled();
      }
    }
  }

  lemma NothingKilled()
    ensures KillsStored(FRESH_STATUS) == 0
  {
  }

  /** Every injection that the first `n` versions record found as many running pods as it was
      configured to kill. */
  predicate AllFoundEnough(spec: Spec, hist: seq<Version>, n: nat)
    requires n <= |hist|
  {
    forall k :: 0 < k < n && RecordsInjection(hist, k, hist[k].obj.status.index) ==> Missed(spec, hist, k) == 0
  }

  lemma {:induction false} MissedNone(spec: Spec, hist: seq<Version>, n: nat)
    requires n <= |hist|
    ensures PodsMissed(spec, hist, n) == 0 <==> AllFoundEnough(spec, hist, n)
  {
    if n > 1 {
      MissedNone(spec, hist, n - 1);
    }
  }

  /** Of the recorded injections the total counts exactly the pods deleted as long as each found
      at least as many running pods as configured, and too many as soon as one did not. */
  lemma RecordedKillsExact(w: World, start: World, acts: seq<Action>, n: nat)
    requires Reachable(w, start, acts) && 1 <= n <= |w.hist|
    ensures PodsDeleted(w.hist, n) == KillsStored(w.hist[n - 1].obj.status) <==> AllFoundEnough(w.spec, w.hist, n)
    ensures PodsDeleted(w.hist, n) <= KillsStored(w.hist[n - 1].obj.status)
  {
    hide Reachable, AllFoundEnough, KillsStored;
    KillAccounting(w, start, acts, n);
    MissedNone(w.spec, w.hist, n);
  }

  // ---------- pods killed, recorded or not ----------

  function Toll(e: Effect): nat {
    if e.DidInject? then e.kill.deleted else 0
  }

  /** Every pod deleted according to the first `n` entries of the log. */
  function Deleted(log: seq<Effect>, n: nat): nat
    requires n <= |log|
  {
    if n == 0 then 0 else Deleted(log, n - 1) + Toll(log[n - 1])
  }

  /** Version `k` records the injection at entry `r` of the log. */
  predicate RecordedBy(hist: seq<Version>, k: nat, r: nat) {
    0 < k < |hist| && RecordsInjection(hist, k, hist[k].obj.status.index) && hist[k].kill.entry == r
  }

  predicate Recorded(hist: seq<Version>, r: nat) {
    exists k :: 0 < k < |hist| && RecordedBy(hist, k, r)
  }

  /** An injection that failed, if only at its last pod, or that no commit came to record. */
  predicate Unrecorded(log: seq<Effect>, hist: seq<Version>, r: nat)
    requires r < |log|
  {
    log[r].DidInject? && (!log[r].ok || !Recorded(hist, r))
  }

  /** Pods deleted by such injections among the first `n` entries. */
  function PodsUnrecorded(log: seq<Effect>, hist: seq<Version>, n: nat): nat
    requires n <= |log|
  {
    if n == 0 then 0
    else PodsUnrecorded(log, hist, n - 1) + (if Unrecorded(log, hist, n - 1) then Toll(log[n - 1]) else 0)
  }

  /** No pod was deleted by an injection that failed or went unrecorded. */
  predicate NothingUnrecorded(log: seq<Effect>, hist: seq<Version>) {
    forall r :: 0 <= r < |log| && Unrecorded(log, hist, r) ==> Toll(log[r]) == 0
  }

  lemma {:induction false} UnrecordedNone(log: seq<Effect>, hist: seq<Version>, n: nat)
    requires n <= |log|
    ensures PodsUnrecorded(log, hist, n) == 0 <==>
              forall r :: 0 <= r < n && Unrecorded(log, hist, r) ==> Toll(log[r]) == 0
  {
    hide Unrecorded, Toll;
    if n > 0 {
      UnrecordedNone(log, hist, n - 1);
    }
  }

  lemma {:induction false} PositionsAscend(w: World, start: World, acts: seq<Action>, j: nat, k: nat)
    requires Reachable(w, start, acts) && j <= k < |w.hist|
    ensures w.hist[j].pos <= w.hist[k].pos <= |w.log|
    decreases k
  {
    hide Move, Sound, Reachable, Witnessed;
    if j < k {
      PositionsAscend(w, start, acts, j, k - 1);
      VersionLinked(w, start, acts, k);
    } else {
      PositionKnown(w, start, acts, k);
    }
  }

  lemma PositionKnown(w: World, start: World, acts: seq<Action>, k: nat)
    requires Reachable(w, start, acts) && k < |w.hist|
    ensures w.hist[k].pos <= |w.log|
  {
    hide Linked, AllSound, HaltCounted, Reachable;
    ReachableInvariant(w, start, acts);
  }

  /** Where the log stood when version `n` was committed; after the last one, all of it. */
  function Position(w: World, n: nat): nat
    requires n <= |w.hist|
  {
    if n < |w.hist| then w.hist[n].pos else |w.log|
  }

  /** Between two commits the log holds no recorded injection but that of the second. */
  lemma RecordedBetween(w: World, start: World, acts: seq<Action>, n: nat, r: nat)
    requires Reachable(w, start, acts) && n <= |w.hist|
    requires (if n == 0 then 0 else Position(w, n - 1)) <= r < Position(w, n)
    ensures Recorded(w.hist, r) <==> n < |w.hist| && RecordedBy(w.hist, n, r)
  {
    hide Reachable, RecordsInjection, Complete;
    if Recorded(w.hist, r) {
      var k :| 0 < k < |w.hist| && RecordedBy(w.hist, k, r);
      RecordedInjectionHappened(w, start, acts, k, w.hist[k].obj.status.index);
      if k < n {
        PositionsAscend(w, start, acts, k, n - 1);
      } else if n < k {
        PositionsAscend(w, start, acts, n, k - 1);
      }
    }
  }

  lemma {:induction false} NoneBetween(log: seq<Effect>, hist: seq<Version>, lo: nat, hi: nat)
    requires lo <= hi <= |log|
    requires forall r :: lo <= r < hi ==> !Recorded(hist, r)
    ensures Deleted(log, hi) - Deleted(log, lo) == PodsUnrecorded(log, hist, hi) - PodsUnrecorded(log, hist, lo)
    decreases hi
  {
    hide Recorded;
    if lo < hi {
      NoneBetween(log, hist, lo, hi - 1);
    }
  }

  lemma OneBetween(log: seq<Effect>, hist: seq<Version>, lo: nat, r: nat, hi: nat)
    requires lo <= r < hi <= |log| && Recorded(hist, r) && log[r].DidInject? && log[r].ok
    requires forall q :: lo <= q < hi && q != r ==> !Recorded(hist, q)
    ensures Deleted(log, hi) - Deleted(log, lo)
         == PodsUnrecorded(log, hist, hi) - PodsUnrecorded(log, hist, lo) + Toll(log[r])
  {
    hide Recorded;
    NoneBetween(log, hist, lo, r);
    NoneBetween(log, hist, r + 1, hi);
  }

  /** Up to the commit of version `n`, and after the last one altogether: every pod deleted was
      deleted by a recorded injection, or by one that failed or went unrecorded. */
  lemma {:induction false} EveryPodCounted(w: World, start: World, acts: seq<Action>, n: nat)
    requires Reachable(w, start, acts) && n <= |w.hist|
    ensures Position(w, n) <= |w.log|
    ensures Deleted(w.log, Position(w, n))
         == PodsDeleted(w.hist, if n < |w.hist| then n + 1 else n) + PodsUnrecorded(w.log, w.hist, Position(w, n))
    decreases n
  {
    hide Reachable, Recorded, Deleted, PodsUnrecorded;
    var lo, hi := if n == 0 then 0 else Position(w, n - 1), Position(w, n);
    if n < |w.hist| {
      PositionKnown(w, start, acts, n);
    }
    assert Deleted(w.log, 0) == PodsUnrecorded(w.log, w.hist, 0) == 0 by {
      NothingAtFirst(w.log, w.hist);
    }
    if n > 0 {
      EveryPodCounted(w, start, acts, n - 1);
      if n < |w.hist| {
        PositionsAscend(w, start, acts, n - 1, n);
      }
    }
    forall r | lo <= r < hi ensures Recorded(w.hist, r) <==> n < |w.hist| && RecordedBy(w.hist, n, r) {
      RecordedBetween(w, start, acts, n, r);
    }
    if 0 < n < |w.hist| && RecordsInjection(w.hist, n, w.hist[n].obj.status.index) {
      RecordedInjectionHappened(w, start, acts, n, w.hist[n].obj.status.index);
      OneBetween(w.log, w.hist, lo, w.hist[n].kill.entry, hi);
    } else {
      NoneBetween(w.log, w.hist, lo, hi);
    }
  }

  lemma NothingAtFirst(log: seq<Effect>, hist: seq<Version>)
    ensures Deleted(log, 0) == PodsUnrecorded(log, hist, 0) == 0
  {
  }

  /** TotalPodsKilled is documented as the number of pods deleted. It misses that number by the
      pods that recorded injections were configured to kill but did not find running, less the
      pods that failed or unrecorded injections did delete. */
  lemma KillsExact(w: World, start: World, acts: seq<Action>)
    requires Reachable(w, start, acts)
    ensures |w.hist| > 0
    ensures var stored, deleted := KillsStored(w.hist[|w.hist| - 1].obj.status), Deleted(w.log, |w.log|);
            var missed := PodsMissed(w.spec, w.hist, |w.hist|);
            var unrecorded := PodsUnrecorded(w.log, w.hist, |w.log|);
            && stored - deleted == missed - unrecorded
            && (missed == 0 <==> AllFoundEnough(w.spec, w.hist, |w.hist|))
            && (unrecorded == 0 <==> NothingUnrecorded(w.log, w.hist))
  {
    hide Reachable, KillsStored, AllFoundEnough, Unrecorded, Deleted, PodsUnrecorded, Move, Sound;
    AtMostOneHaltCounted(w, start, acts);
    KillAccounting(w, start, acts, |w.hist|);
    MissedNone(w.spec, w.hist, |w.hist|);
    EveryPodCounted(w, start, acts, |w.hist|);
    UnrecordedNone(w.log, w.hist, |w.log|);
  }

  /** So the total is the number of pods deleted if and only if those two balance: where every
      injection that deleted a pod succeeded and was recorded, exactly if each recorded one
      found enough pods; and where each did, exactly if none failed or went unrecorded. */
  lemma KillsReported(w: World, start: World, acts: seq<Action>)
    requires Reachable(w, start, acts)
    ensures |w.hist| > 0
    ensures var reported := KillsStored(w.hist[|w.hist| - 1].obj.status) == Deleted(w.log, |w.log|);
            && (reported <==> PodsMissed(w.spec, w.hist, |w.hist|) == PodsUnrecorded(w.log, w.hist, |w.log|))
            && (NothingUnrecorded(w.log, w.hist) ==> (reported <==> AllFoundEnough(w.spec, w.hist, |w.hist|)))
            && (AllFoundEnough(w.spec, w.hist, |w.hist|) ==> (reported <==> NothingUnrecorded(w.log, w.hist)))
  {
    hide Reachable, KillsStored, AllFoundEnough, NothingUnrecorded, Deleted, PodsUnrecorded, PodsMissed;
    KillsExact(w, start, acts);
  }
}
