/** Faults never overlap and each lasts at least as long as configured, up to what whole-
    second timestamps hide. */
module FaultWindows {
  import opened Wrappers
  import opened Numbers
  import opened Clock
  import opened ExperimentApi
  import opened ExperimentMoves
  import opened ExperimentMachine
  import opened ExperimentHistory

  /** Configured durations of scenarios `i` to `j - 1`; a negative one counts as none. */
  function TotalDuration(scenarios: seq<Scenario>, i: nat, j: nat): (d: int)
    requires i <= j <= |scenarios|
    ensures d >= 0
  {
    if i == j then 0 else TotalDuration(scenarios, i, j - 1) + Max(0, scenarios[j - 1].duration)
  }

  lemma MoveTimes(spec: Spec, o: Object, p: Object, ev: Evidence)
    requires Sound(spec, o) && Move(spec, o, p, ev)
    ensures !Active(o.status) && Active(p.status) ==>
              ev.read.Some? && p.status.injectedAt == Some(Trunc(ev.read.value))
    ensures Active(o.status) && !Active(p.status) ==>
              ev.read.Some? && ev.read.value - o.status.injectedAt.value >= spec.scenarios[o.status.index].duration
  {
  }

  /** A recorded injection time is not in the future. */
  lemma {:induction false} InjectedInThePast(w: World, start: World, acts: seq<Action>, k: nat)
    requires Reachable(w, start, acts) && k < |w.hist| && Active(w.hist[k].obj.status)
    ensures w.hist[k].obj.status.injectedAt.value <= w.hist[k].at
    decreases k
  {
    hide Move, Reachable;
    VersionSound(w, start, acts, k);
    if k > 0 {
      VersionLinked(w, start, acts, k);
      MoveTimes(w.spec, w.hist[k - 1].obj, w.hist[k].obj, w.hist[k].ev);
      MoveProgress(w.spec, w.hist[k - 1].obj, w.hist[k].obj, w.hist[k].ev);
      if Active(w.hist[k - 1].obj.status) {
        InjectedInThePast(w, start, acts, k - 1);
      }
    }
  }

  /** The window of every scenario from `i` on lies behind version `k`, counted from the
      stored injection time of scenario `i`: each later injection may hide under a second. */
  predicate WindowsPassed(spec: Spec, first: int, i: nat, v: Version) {
    var st := v.obj.status;
    && i <= st.index <= |spec.scenarios|
    && (st.index == i ==> Active(st) && st.injectedAt.value == first)
    && (st.index > i ==> v.at >= first + TotalDuration(spec.scenarios, i, st.index) - (st.index - i - 1) * (SECOND - 1))
    && (Active(st) ==>
          st.injectedAt.value >= first + TotalDuration(spec.scenarios, i, st.index) - (st.index - i) * (SECOND - 1))
  }

  lemma LinkPassesWindows(spec: Spec, first: int, i: nat, a: Version, b: Version)
    requires Sound(spec, a.obj) && Sound(spec, b.obj) && Move(spec, a.obj, b.obj, b.ev)
    requires a.at <= b.at && (b.ev.read.Some? ==> a.at <= b.ev.read.value <= b.at)
    requires Active(a.obj.status) ==> a.obj.status.injectedAt.value <= a.at
    requires WindowsPassed(spec, first, i, a)
    ensures WindowsPassed(spec, first, i, b)
  {
    MoveTimes(spec, a.obj, b.obj, b.ev);
    MoveProgress(spec, a.obj, b.obj, b.ev);
    hide Move, Sound;
    var s, t := a.obj.status, b.obj.status;
    if Active(s) && !Active(t) {
      assert TotalDuration(spec.scenarios, i, t.index)
          == TotalDuration(spec.scenarios, i, s.index) + Max(0, spec.scenarios[s.index].duration);
    }
  }

  lemma {:induction false} WindowsPass(w: World, start: World, acts: seq<Action>, p: nat, q: nat, i: nat)
    requires Reachable(w, start, acts) && RecordsInjection(w.hist, p, i) && p <= q < |w.hist|
    ensures WindowsPassed(w.spec, w.hist[p].obj.status.injectedAt.value, i, w.hist[q])
    decreases q
  {
    hide Move, Reachable;
    var first := w.hist[p].obj.status.injectedAt.value;
    VersionSound(w, start, acts, q);
    if p == q {
      assert TotalDuration(w.spec.scenarios, i, i) == 0;
    } else {
      WindowsPass(w, start, acts, p, q - 1, i);
      VersionLinked(w, start, acts, q);
      if Active(w.hist[q - 1].obj.status) {
        InjectedInThePast(w, start, acts, q - 1);
      }
      LinkPassesWindows(w.spec, first, i, w.hist[q - 1], w.hist[q]);
    }
  }

  /** From the clock reading of the injection of scenario `i` to the commit that records the
      revert of scenario `j - 1`, more time passes than all their durations together, less
      one second for each of them. */
  lemma FaultsLastLongEnough(w: World, start: World, acts: seq<Action>, p: nat, q: nat, i: nat, j: nat)
    requires Reachable(w, start, acts) && RecordsInjection(w.hist, p, i) && p < q < |w.hist|
    requires i < j && w.hist[q].obj.status.index == j
    ensures j <= |w.spec.scenarios| && w.hist[p].ev.read.Some?
    ensures w.hist[q].at > w.hist[p].ev.read.value + TotalDuration(w.spec.scenarios, i, j) - (j - i) * SECOND
  {
    hide Move, Sound, Reachable;
    VersionLinked(w, start, acts, p);
    MoveTimes(w.spec, w.hist[p - 1].obj, w.hist[p].obj, w.hist[p].ev);
    WindowsPass(w, start, acts, p, q, i);
    assert (j - i - 1) * (SECOND - 1) <= (j - i - 1) * SECOND;
  }

  /** Windows are disjoint: the next scenario's injection is read off the clock only after
      the commit that closed the previous one. */
  lemma WindowsDisjoint(w: World, start: World, acts: seq<Action>, q: nat, p: nat, i: nat, j: nat)
    requires Reachable(w, start, acts) && q < p && RecordsInjection(w.hist, p, j)
    requires w.hist[q].obj.status.index > i
    ensures j > i && w.hist[p].ev.read.Some? && w.hist[p].ev.read.value >= w.hist[q].at
  {
    hide Move, Sound, Reachable;
    VersionLinked(w, start, acts, p);
    MoveTimes(w.spec, w.hist[p - 1].obj, w.hist[p].obj, w.hist[p].ev);
    Ascending(w, start, acts, q, p - 1);
    MoveProgress(w.spec, w.hist[p - 1].obj, w.hist[p].obj, w.hist[p].ev);
  }

  /** Commit times and the scenario index never go back. */
  lemma {:induction false} Ascending(w: World, start: World, acts: seq<Action>, q: nat, p: nat)
    requires Reachable(w, start, acts) && q <= p < |w.hist|
    ensures w.hist[q].at <= w.hist[p].at && w.hist[q].obj.status.index <= w.hist[p].obj.status.index
    decreases p
  {
    hide Move, Sound, Reachable;
    if q < p {
      Ascending(w, start, acts, q, p - 1);
      VersionLinked(w, start, acts, p);
      MoveProgress(w.spec, w.hist[p - 1].obj, w.hist[p].obj, w.hist[p].ev);
    }
  }
}
