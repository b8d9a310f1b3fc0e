/** What the incrementally kept MeanRecoveryTime is worth. */
module MeanRecovery {
  import opened Wrappers
  import opened ExperimentApi
  import opened ExperimentProgram
  import opened ExperimentMoves
  import opened ExperimentMachine
  import opened ExperimentHistory

  /** The recovery times reported by the scenarios the first `n` versions advance past;
      None for a scenario that reported none. */
  function Reports(hist: seq<Version>, n: nat): seq<Option<int>>
    requires n <= |hist|
  {
    if n <= 1 then []
    else
      var a, b := hist[n - 2].obj.status, hist[n - 1].obj.status;
      Reports(hist, n - 1) +
        if Active(a) && !Active(b) then
          [if a.recoveredAt.Some? then Some(a.recoveredAt.value - a.injectedAt.value) else None]
        else []
  }

  /** The mean the controller keeps, as a fold over the reports. */
  function KeptMean(reports: seq<Option<int>>): Option<int> {
    if reports == [] then None
    else
      var n := |reports| - 1;
      match reports[n]
      case None => KeptMean(reports[..n])
      case Some(r) => Some(NextMean(KeptMean(reports[..n]), n, r))
  }

  function MeanStored(st: Status): Option<int> {
    if st.metrics.None? then None else st.metrics.value.meanRecoveryTime
  }

  lemma MoveMean(spec: Spec, o: Object, p: Object, ev: Evidence)
    requires Sound(spec, o) && Move(spec, o, p, ev)
    ensures Active(o.status) && !Active(p.status) && o.status.recoveredAt.Some? ==>
              && o.status.recoveredAt.value - o.status.injectedAt.value >= GRACE
              && MeanStored(p.status) == Some(NextMean(MeanStored(o.status), o.status.index,
                                                       o.status.recoveredAt.value - o.status.injectedAt.value))
    ensures !(Active(o.status) && !Active(p.status) && o.status.recoveredAt.Some?) ==>
              MeanStored(p.status) == MeanStored(o.status)
  {
  }

  /** The stored mean is the fold over the reports, one per scenario advanced past, each at
      least the grace period. */
  lemma {:induction false} StoredMeanIsFold(w: World, start: World, acts: seq<Action>, n: nat)
    requires Reachable(w, start, acts) && 1 <= n <= |w.hist|
    ensures |Reports(w.hist, n)| == w.hist[n - 1].obj.status.index
    ensures MeanStored(w.hist[n - 1].obj.status) == KeptMean(Reports(w.hist, n))
    ensures forall r :: Some(r) in Reports(w.hist, n) ==> r >= GRACE
    decreases n
  {
    hide Move, Sound, Reachable, Linked, NextMean;
    if n == 1 {
      VersionSound(w, start, acts, 0);
    } else {
      StoredMeanIsFold(w, start, acts, n - 1);
      VersionLinked(w, start, acts, n - 1);
      var o, p := w.hist[n - 2].obj, w.hist[n - 1].obj;
      MoveMean(w.spec, o, p, w.hist[n - 1].ev);
      MoveProgress(w.spec, o, p, w.hist[n - 1].ev);
      if Active(o.status) && !Active(p.status) {
        assert Reports(w.hist, n)[..|Reports(w.hist, n)| - 1] == Reports(w.hist, n - 1);
      } else {
        assert Reports(w.hist, n) == Reports(w.hist, n - 1);
      }
    }
  }

  /** The first reported value; reports before it have no mean to stand in for them. */
  function FirstReport(reports: seq<Option<int>>): Option<int> {
    if reports == [] then None
    else if reports[0].Some? then reports[0]
    else FirstReport(reports[1..])
  }

  /** Sum of the reports, with each missing one replaced by the mean kept at that point, and
      by `first` while there is none. */
  function FilledSum(reports: seq<Option<int>>, first: int): int {
    if reports == [] then 0
    else
      var n := |reports| - 1;
      FilledSum(reports[..n], first)
      + match reports[n]
        case Some(r) => r
        case None => (match KeptMean(reports[..n]) case None => first case Some(m) => m)
  }

  function Sum(values: seq<int>): int {
    if values == [] then 0 else Sum(values[..|values| - 1]) + values[|values| - 1]
  }

  ghost predicate Nonnegative(reports: seq<Option<int>>) {
    forall r :: Some(r) in reports ==> r >= 0
  }

  lemma {:induction false} MeanExists(reports: seq<Option<int>>)
    ensures KeptMean(reports).Some? <==> FirstReport(reports).Some?
  {
    if reports != [] {
      var n := |reports| - 1;
      MeanExists(reports[..n]);
      FirstOfPrefix(reports, n);
    }
  }

  lemma {:induction false} FirstOfPrefix(reports: seq<Option<int>>, n: nat)
    requires n + 1 == |reports|
    ensures FirstReport(reports) == if FirstReport(reports[..n]).Some? then FirstReport(reports[..n]) else reports[n]
  {
    if n > 0 && reports[0].None? {
      FirstOfPrefix(reports[1..], n - 1);
      assert reports[1..][..n - 1] == reports[..n][1..];
    }
  }

  lemma {:induction false} FilledBeforeFirst(reports: seq<Option<int>>, first: int)
    requires KeptMean(reports).None?
    ensures FilledSum(reports, first) == |reports| * first
  {
    if reports != [] {
      FilledBeforeFirst(reports[..|reports| - 1], first);
    }
  }

  /** `m` is a mean of `n` values of total `s`, short of the true one only by truncation. */
  predicate WithinError(s: int, n: nat, m: int) {
    m >= 0 && 0 <= 2 * (s - n * m) <= n * (n - 1)
  }

  lemma FirstStep(n: nat, r: int)
    requires r >= 0
    ensures WithinError(n * r + r, n + 1, r)
  {
  }

  lemma MissStep(s: int, n: nat, m: int)
    requires WithinError(s, n, m)
    ensures WithinError(s + m, n + 1, m)
  {
  }

  lemma ReportStep(s: int, n: nat, m: int, r: int)
    requires n > 0 && r >= 0 && WithinError(s, n, m)
    ensures WithinError(s + r, n + 1, GoDiv(m * n + r, n + 1))
  {
  }

  /** Error of the kept mean over `n` scenarios: the filled sum exceeds `n` times the mean by
      at most n(n-1)/2 nanoseconds, so truncation costs at most (n-1)/2 in all. */
  lemma {:induction false} MeanError(reports: seq<Option<int>>)
    requires Nonnegative(reports) && KeptMean(reports).Some?
    ensures FirstReport(reports).Some?
    ensures WithinError(FilledSum(reports, FirstReport(reports).value), |reports|, KeptMean(reports).value)
  {
    hide WithinError, GoDiv, FirstReport;
    var n := |reports| - 1;
    var before := reports[..n];
    MeanExists(reports);
    MeanExists(before);
    FirstOfPrefix(reports, n);
    var first := FirstReport(reports).value;
    if KeptMean(before).None? {
      assert reports[n] == Some(first);
      FilledBeforeFirst(before, first);
      assert Some(first) in reports;
      FirstStep(n, first);
    } else {
      assert forall r :: Some(r) in before ==> Some(r) in reports;
      MeanError(before);
      var m := KeptMean(before).value;
      var s := FilledSum(before, first);
      match reports[n]
      case Some(r) =>
        assert Some(r) in reports && n > 0;
        ReportStep(s, n, m, r);
      case None =>
        MissStep(s, n, m);
    }
  }

  lemma {:induction false} FilledAll(reports: seq<Option<int>>, values: seq<int>, first: int)
    requires |values| == |reports| && forall i :: 0 <= i < |reports| ==> reports[i] == Some(values[i])
    ensures FilledSum(reports, first) == Sum(values)
  {
    if reports != [] {
      FilledAll(reports[..|reports| - 1], values[..|reports| - 1], first);
    }
  }

  lemma {:induction false} MeanWithin(reports: seq<Option<int>>, lo: int, hi: int)
    requires 0 <= lo && forall r :: Some(r) in reports ==> lo <= r <= hi
    ensures KeptMean(reports).Some? ==> lo <= KeptMean(reports).value <= hi
  {
    if reports != [] {
      var n := |reports| - 1;
      assert forall r :: Some(r) in reports[..n] ==> Some(r) in reports;
      MeanWithin(reports[..n], lo, hi);
      if reports[n].Some? {
        assert Some(reports[n].value) in reports;
        if KeptMean(reports[..n]).Some? && n > 0 {
          WeightedWithin(KeptMean(reports[..n]).value, n, reports[n].value, lo, hi);
        }
      }
    }
  }

  lemma MultiplyOrder(a: int, b: int, n: nat)
    ensures a <= b ==> a * n <= b * n
  {
  }

  lemma QuotientWithin(a: int, d: int, lo: int, hi: int)
    requires d > 0 && lo * d <= a <= hi * d
    ensures lo <= a / d <= hi
  {
    var q := a / d;
    assert a == q * d + a % d;
    MultiplyOrder(q + 1, lo, d);
    MultiplyOrder(hi + 1, q, d);
  }

  lemma WeightedWithin(m: int, n: nat, r: int, lo: int, hi: int)
    requires n > 0 && 0 <= lo <= m <= hi && lo <= r <= hi
    ensures lo <= GoDiv(m * n + r, n + 1) <= hi
  {
    MultiplyOrder(lo, m, n);
    MultiplyOrder(m, hi, n);
    assert lo * (n + 1) == lo * n + lo && hi * (n + 1) == hi * n + hi;
    QuotientWithin(m * n + r, n + 1, lo, hi);
  }

  /** In every run: a stored mean lies between any bounds of the reported recovery times, is
      never below the grace period, and is within the truncation error of the filled sum. */
  lemma StoredMeanIsAccurate(w: World, start: World, acts: seq<Action>, n: nat, lo: int, hi: int)
    requires Reachable(w, start, acts) && 1 <= n <= |w.hist| && MeanStored(w.hist[n - 1].obj.status).Some?
    requires forall r :: Some(r) in Reports(w.hist, n) ==> lo <= r <= hi
    ensures var m, reports := MeanStored(w.hist[n - 1].obj.status).value, Reports(w.hist, n);
            && lo <= m <= hi && GRACE <= m
            && FirstReport(reports).Some?
            && WithinError(FilledSum(reports, FirstReport(reports).value), |reports|, m)
  {
    hide Reachable;
    StoredMeanIsFold(w, start, acts, n);
    var reports := Reports(w.hist, n);
    MeanError(reports);
    MeanWithin(reports, if lo >= GRACE then lo else GRACE, hi);
  }

  /** When no scenario missed its recovery: the bound against the plain sum. */
  lemma CompleteMeanIsAccurate(w: World, start: World, acts: seq<Action>, n: nat, values: seq<int>)
    requires Reachable(w, start, acts) && 1 <= n <= |w.hist| && MeanStored(w.hist[n - 1].obj.status).Some?
    requires |values| == |Reports(w.hist, n)|
    requires forall i :: 0 <= i < |values| ==> Reports(w.hist, n)[i] == Some(values[i])
    ensures var m := MeanStored(w.hist[n - 1].obj.status).value;
            WithinError(Sum(values), |values|, m)
  {
    hide Reachable;
    StoredMeanIsFold(w, start, acts, n);
    var reports := Reports(w.hist, n);
    MeanError(reports);
    FilledAll(reports, values, FirstReport(reports).value);
  }
}
