/** The safeguard watcher (internal/safeguard/watcher.go). */
module Watcher {
  import opened Wrappers
  import opened Safeguards
  import opened Gate

  datatype Schedule = Schedule(
    namespace: string,
    name: string,
    running: bool,
    active: Option<string>,
    config: Option<Config>)

  /** The active experiment as read: the version it was stored in, and its target. */
  datatype ExperimentRead = ExperimentRead(version: nat, target: Option<string>)

  /** What the watcher sees while it checks one schedule: the snapshot, the active experiment
      if that can be read, and the version of it that is stored when a halt is written. */
  datatype Sight = Sight(snapshot: Snapshot, experiment: Option<ExperimentRead>, latest: nat)

  /** An attempt to write the halt annotations on top of one version of an experiment. */
  datatype HaltWrite = HaltWrite(experiment: string, version: nat, code: HaltCode, reason: string, written: bool)

  const UNREACHABLE_REASON := "Safeguard checks unreachable"

  function Key(s: Schedule): string {
    s.namespace + "/" + s.name
  }

  predicate Visited(s: Schedule) {
    s.running && s.active.Some?
  }

  function Observed(s: Schedule, sight: Sight): Tick {
    TickOf(s.config, sight.snapshot, TargetOf(sight.experiment))
  }

  function TargetOf(read: Option<ExperimentRead>): Option<Option<string>> {
    if read.None? then None else Some(read.value.target)
  }

  /** No halt is attempted on an experiment that could not be read. */
  function ReadVersion(sight: Sight): nat {
    if sight.experiment.None? then 0 else sight.experiment.value.version
  }

  function Count(c: Option<nat>): nat {
    if c.None? then 0 else c.value
  }

  /** A halt write is attempted on a breach, and on the transient tick that reaches the threshold. */
  predicate Attempts(c: Option<nat>, tick: Tick, threshold: nat) {
    tick.Breach? || (tick.Transient? && Count(c) + 1 >= threshold)
  }

  /** The counter of one schedule after one tick. */
  function After(c: Option<nat>, tick: Tick, written: bool): Option<nat> {
    if tick.Clean? || written then None
    else if tick.Transient? then Some(Count(c) + 1)
    else c
  }

  function Get(m: map<string, nat>, k: string): Option<nat> {
    if k in m then Some(m[k]) else None
  }

  function Set(m: map<string, nat>, k: string, c: Option<nat>): map<string, nat> {
    if c.None? then m - {k} else m[k := c.value]
  }

  function WriteOf(s: Schedule, version: nat, tick: Tick, written: bool): HaltWrite
    requires Visited(s) && (tick.Breach? || tick.Transient?)
  {
    if tick.Breach? then HaltWrite(s.active.value, version, tick.code, tick.reason, written)
    else HaltWrite(s.active.value, version, Unreachable, UNREACHABLE_REASON, written)
  }

  /** One visit: counter map before and after, and the halt write it made, if any. A write is
      accepted only on top of the version read. */
  predicate Visit(s: Schedule, version: nat, latest: nat, tick: Tick, threshold: nat,
                  m: map<string, nat>, m': map<string, nat>, writes: seq<HaltWrite>, written: bool)
    requires Visited(s)
  {
    var c := Get(m, Key(s));
    && (written ==> Attempts(c, tick, threshold) && version == latest)
    && m' == Set(m, Key(s), After(c, tick, written))
    && writes == if Attempts(c, tick, threshold) then [WriteOf(s, version, tick, written)] else []
  }

  /** The counters after the first `n` schedules of a sweep. */
  function Sweep(m: map<string, nat>, list: seq<Schedule>, sights: seq<Sight>, written: seq<bool>, n: nat)
    : map<string, nat>
    requires n <= |list| == |sights| && n <= |written|
  {
    if n == 0 then m
    else
      var before := Sweep(m, list, sights, written, n - 1);
      var s := list[n - 1];
      if !Visited(s) then before
      else Set(before, Key(s), After(Get(before, Key(s)), Observed(s, sights[n - 1]), written[n - 1]))
  }

  /** The halt writes of the first `n` schedules of a sweep. */
  function SweepWrites(m: map<string, nat>, list: seq<Schedule>, sights: seq<Sight>, written: seq<bool>,
                       threshold: nat, n: nat): seq<HaltWrite>
    requires n <= |list| == |sights| && n <= |written|
  {
    if n == 0 then []
    else
      var before := SweepWrites(m, list, sights, written, threshold, n - 1);
      var s := list[n - 1];
      var tick := Observed(s, sights[n - 1]);
      if Visited(s) && Attempts(Get(Sweep(m, list, sights, written, n - 1), Key(s)), tick, threshold)
      then before + [WriteOf(s, ReadVersion(sights[n - 1]), tick, written[n - 1])] else before
  }

  /** Halts reported as written were attempted, on top of the version then stored. */
  predicate Justified(m: map<string, nat>, list: seq<Schedule>, sights: seq<Sight>, written: seq<bool>, threshold: nat)
    requires |written| <= |list| == |sights|
  {
    forall i :: 0 <= i < |written| && written[i] ==>
      && Visited(list[i]) && ReadVersion(sights[i]) == sights[i].latest
      && Attempts(Get(Sweep(m, list, sights, written, i), Key(list[i])), Observed(list[i], sights[i]), threshold)
  }

  class SafeguardWatcher {
    var consecutiveFailures: map<string, nat>
    var halts: seq<HaltWrite>
    const failureThreshold: nat

    constructor ()
      ensures consecutiveFailures == map[] && halts == [] && failureThreshold == 3
    {
      consecutiveFailures := map[];
      halts := [];
      failureThreshold := 3;
    }

    /** The ticker loop from a new watcher on: one pass per tick. What the counters hold after
        any number of ticks is, key by key, that key's own honest history. */
    method Start(ticks: seq<Round>) returns (passes: seq<Pass>)
      requires consecutiveFailures == map[] && forall i :: 0 <= i < |ticks| ==> Listable(ticks[i])
      modifies this
      ensures AllProper(passes) && Answer(passes, ticks)
      ensures consecutiveFailures == Passes(passes)
      ensures halts == old(halts) + PassesWrites(passes, failureThreshold)
      ensures forall k :: Get(consecutiveFailures, k) == Counter(Entries(passes, k))
      ensures forall k :: Honest(Entries(passes, k), failureThreshold)
    {
      hide Honest, Justified, Sweep, SweepWrites, Entries, Counter, WellNamed;
      passes := [];
      var i := 0;
      while i < |ticks|
        invariant 0 <= i <= |ticks|
        invariant AllProper(passes) && Answer(passes, ticks[..i])
        invariant consecutiveFailures == Passes(passes)
        invariant halts == old(halts) + PassesWrites(passes, failureThreshold)
        invariant AllJustified(passes, failureThreshold)
      {
        ghost var before := passes;
        var written := CheckAll(ticks[i].listed, ticks[i].sights);
        assert ticks[..i + 1][..i] == ticks[..i];
        if ticks[i].listed.Some? {
          var p := Pass(ticks[i].listed.value, ticks[i].sights, written);
          passes := passes + [p];
          PassAppended(before, p, failureThreshold);
        }
        i := i + 1;
      }
      assert ticks[..i] == ticks;
      forall k
        ensures Get(consecutiveFailures, k) == Counter(Entries(passes, k))
        ensures Honest(Entries(passes, k), failureThreshold)
      {
        CounterIsOwnHistory(passes, k);
        OwnHistoryIsHonest(passes, k, failureThreshold);
      }
    }

    /** One pass over all schedules; nothing happens if they cannot be listed. */
    method CheckAll(listed: Option<seq<Schedule>>, sights: seq<Sight>) returns (written: seq<bool>)
      requires listed.Some? ==> |sights| == |listed.value|
      modifies this
      ensures listed.None? ==> consecutiveFailures == old(consecutiveFailures) && halts == old(halts)
      ensures listed.Some? ==>
                && |written| == |listed.value|
                && consecutiveFailures == Sweep(old(consecutiveFailures), listed.value, sights, written, |written|)
                && halts == old(halts)
                   + SweepWrites(old(consecutiveFailures), listed.value, sights, written, failureThreshold, |written|)
                && Justified(old(consecutiveFailures), listed.value, sights, written, failureThreshold)
    {
      hide TickOf, WellNamed;
      written := [];
      if listed.None? {
        return;
      }
      var list := listed.value;
      var i := 0;
      while i < |list|
        invariant 0 <= i <= |list| && |written| == i
        invariant consecutiveFailures == Sweep(old(consecutiveFailures), list, sights, written, i)
        invariant halts == old(halts)
                  + SweepWrites(old(consecutiveFailures), list, sights, written, failureThreshold, i)
        invariant Justified(old(consecutiveFailures), list, sights, written, failureThreshold)
      {
        var sched := list[i];
        var w := false;
        ghost var m := old(consecutiveFailures);
        ghost var before := halts;
        if sched.running && sched.active.Some? {
          w := CheckSchedule(sched, sights[i]);
        }
        assert halts == before + halts[|before|..];
        forall k | 0 <= k <= i
          ensures Sweep(m, list, sights, written + [w], k) == Sweep(m, list, sights, written, k)
          ensures SweepWrites(m, list, sights, written + [w], failureThreshold, k)
               == SweepWrites(m, list, sights, written, failureThreshold, k)
        {
          SweepIgnoresLater(m, list, sights, written, [w], failureThreshold, k);
        }
        written := written + [w];
        i := i + 1;
      }
    }

    method CheckSchedule(sched: Schedule, sight: Sight) returns (written: bool)
      requires Visited(sched)
      modifies this
      ensures old(halts) <= halts
      ensures written ==> sight.experiment.Some? && sight.experiment.value.version == sight.latest
      ensures var tick, key := Observed(sched, sight), sched.namespace + "/" + sched.name;
              var before := old(consecutiveFailures);
              var n := 1 + if key in before then before[key] else 0;
              match tick
              case Breach(code, reason) =>
                && sight.experiment.Some?
                && halts == old(halts)
                   + [HaltWrite(sched.active.value, sight.experiment.value.version, code, reason, written)]
                && consecutiveFailures == if written then before - {key} else before
              case Transient =>
                && sight.experiment.Some? && (written ==> n >= failureThreshold)
                && halts == old(halts)
                   + (if n < failureThreshold then []
                      else [HaltWrite(sched.active.value, sight.experiment.value.version, Unreachable,
                                      UNREACHABLE_REASON, written)])
                && consecutiveFailures == if written then before - {key} else before[key := n]
              case Clean => halts == old(halts) && !written && consecutiveFailures == before - {key}
              case Skipped => halts == old(halts) && !written && consecutiveFailures == before
    {
      hide AlertSourceVerdict, MetricsSourceVerdict, AlertsVerdict, SLOVerdict, ReplicaVerdict, TickOf;
      written := false;
      if sched.config.None? {
        NoTick(sight.snapshot, TargetOf(sight.experiment));
        return;
      }
      var sg := sched.config.value;

      var haltCode, haltDetail, checkErr := CheckAlertSource(sg, sight.snapshot);
      if haltCode.None? && !checkErr {
        haltCode, haltDetail, checkErr := CheckMetricsSource(sg, sight.snapshot);
      }

      EarlyTicks(sg, sight.snapshot);
      var key := sched.namespace + "/" + sched.name;
      var needsReplicaCheck := sg.minReplicasAvailable.Some? || sg.maxUnavailable.Some?;
      if haltCode.None? && !checkErr && !needsReplicaCheck {
        consecutiveFailures := consecutiveFailures - {key};
        return;
      }

      if sight.experiment.None? {
        return;
      }
      var exp := sight.experiment.value;

      haltCode, haltDetail, checkErr := CheckTarget(sg, sight.snapshot, exp.target, haltCode, haltDetail, checkErr);
      written := Decide(sched, key, exp.version, sight.latest, haltCode, haltDetail, checkErr);
    }

    /** The replica check of a named target, unless alerts or service levels already decided. */
    method CheckTarget(sg: Config, snap: Snapshot, target: Option<string>,
                       haltCode: Option<HaltCode>, haltDetail: string, checkErr: bool)
      returns (code: Option<HaltCode>, reason: string, failed: bool)
      requires Verdict(haltCode, haltDetail, checkErr) == RemoteVerdict(sg, snap)
      requires haltCode.Some? || checkErr || NeedsReplicaCheck(sg)
      ensures match TickOf(Some(sg), snap, Some(target))
              case Breach(c, r) => code == Some(c) && reason == r
              case Transient => code.None? && failed
              case Clean => code.None? && !failed
              case Skipped => false
    {
      hide AlertSourceVerdict, MetricsSourceVerdict;
      code, reason, failed := haltCode, haltDetail, checkErr;
      if haltCode.None? && (sg.minReplicasAvailable.Some? || sg.maxUnavailable.Some?) && target.Some? {
        var c, detail, err := CheckReplicas(sg, snap.deployment(target.value));
        if err {
          failed := true;
        } else if c.Some? {
          code, reason := c, detail;
        }
      }
    }

    method CheckReplicas(sg: Config, dep: DeploymentReply)
      returns (code: Option<HaltCode>, reason: string, failed: bool)
      ensures Verdict(code, reason, failed) == ReplicaVerdict(sg, dep)
      ensures failed <==> dep.DeploymentFailed?
      ensures code == Some(ReplicaMin) <==>
                dep.Deployment? && sg.minReplicasAvailable.Some? && dep.available < sg.minReplicasAvailable.value
      ensures code == Some(ReplicaMax) <==>
                && dep.Deployment? && sg.maxUnavailable.Some? && dep.unavailable > sg.maxUnavailable.value
                && code != Some(ReplicaMin)
      ensures code.None? || code == Some(ReplicaMin) || code == Some(ReplicaMax)
    {
      if dep.DeploymentFailed? {
        return None, "", true;
      }
      if sg.minReplicasAvailable.Some? && dep.available < sg.minReplicasAvailable.value {
        return Some(ReplicaMin), "Available replicas below minimum", false;
      } else if sg.maxUnavailable.Some? && dep.unavailable > sg.maxUnavailable.value {
        return Some(ReplicaMax), "Unavailable replicas above maximum", false;
      }
      return None, "", false;
    }

    /** Acting on the outcome of the checks; a breach outweighs an error. */
    method Decide(sched: Schedule, key: string, version: nat, latest: nat,
                  haltCode: Option<HaltCode>, haltDetail: string, checkErr: bool)
      returns (written: bool)
      requires Visited(sched) && key == Key(sched)
      modifies this
      ensures old(halts) <= halts
      ensures written ==> version == latest
      ensures haltCode.Some? ==>
                && halts == old(halts) + [HaltWrite(sched.active.value, version, haltCode.value, haltDetail, written)]
                && consecutiveFailures == if written then old(consecutiveFailures) - {key}
                                          else old(consecutiveFailures)
      ensures haltCode.None? && checkErr ==>
                var n := 1 + if key in old(consecutiveFailures) then old(consecutiveFailures)[key] else 0;
                && (written ==> n >= failureThreshold)
                && halts == old(halts)
                   + (if n < failureThreshold then []
                      else [HaltWrite(sched.active.value, version, Unreachable, UNREACHABLE_REASON, written)])
                && consecutiveFailures == if written then old(consecutiveFailures) - {key}
                                          else old(consecutiveFailures)[key := n]
      ensures haltCode.None? && !checkErr ==>
                halts == old(halts) && !written && consecutiveFailures == old(consecutiveFailures) - {key}
    {
      written := false;
      if haltCode.Some? {
        written := HaltExperiment(sched.active.value, version, latest, haltCode.value, haltDetail);
        if !written {
          return;
        }
        consecutiveFailures := consecutiveFailures - {key};
      } else if checkErr {
        var failures := if key in consecutiveFailures then consecutiveFailures[key] else 0;
        consecutiveFailures := consecutiveFailures[key := failures + 1];
        if consecutiveFailures[key] >= failureThreshold {
          written := HaltExperiment(sched.active.value, version, latest, Unreachable, UNREACHABLE_REASON);
          if !written {
            return;
          }
          consecutiveFailures := consecutiveFailures - {key};
        }
      } else {
        consecutiveFailures := consecutiveFailures - {key};
      }
    }

    method CheckAlertSource(sg: Config, snap: Snapshot) returns (code: Option<HaltCode>, reason: string, failed: bool)
      ensures Verdict(code, reason, failed) == AlertSourceVerdict(sg, snap)
      ensures sg.alertSource.None? ==> code.None? && reason == "" && !failed
      ensures sg.alertSource.Some? && !snap.validUrl(sg.alertSource.value) ==> code == Some(ConfigError) && !failed
      ensures sg.alertSource.Some? && snap.validUrl(sg.alertSource.value) ==>
                Verdict(code, reason, failed) == AlertsVerdict(sg.haltOnAlertLabels, snap.alerts(sg.alertSource.value))
    {
      if sg.alertSource.None? {
        return None, "", false;
      }
      if !snap.validUrl(sg.alertSource.value) {
        return Some(ConfigError), "Invalid alert source config", false;
      }
      code, reason, failed := CheckAlertsFiring(sg.haltOnAlertLabels, snap.alerts(sg.alertSource.value));
    }

    method CheckMetricsSource(sg: Config, snap: Snapshot) returns (code: Option<HaltCode>, reason: string, failed: bool)
      ensures Verdict(code, reason, failed) == MetricsSourceVerdict(sg, snap)
      ensures sg.metricsSource.None? || sg.slo.None? ==> code.None? && reason == "" && !failed
      ensures sg.metricsSource.Some? && sg.slo.Some? && !snap.validUrl(sg.metricsSource.value) ==>
                code == Some(ConfigError) && !failed
      ensures sg.metricsSource.Some? && sg.slo.Some? && snap.validUrl(sg.metricsSource.value) ==>
                Verdict(code, reason, failed)
                == SLOVerdict(sg.slo.value, query => snap.sample(sg.metricsSource.value, query))
    {
      if sg.metricsSource.None? || sg.slo.None? {
        return None, "", false;
      }
      var url := sg.metricsSource.value;
      if !snap.validUrl(url) {
        return Some(ConfigError), "Invalid metrics source config", false;
      }
      code, reason, failed := CheckSLOBreach(sg.slo.value, query => snap.sample(url, query));
    }

    /** Writes the annotations on top of the version read; the API server refuses if that is no
        longer the stored one, and may refuse anyway. */
    method HaltExperiment(experiment: string, version: nat, latest: nat, code: HaltCode, reason: string)
      returns (written: bool)
      modifies this`halts
      ensures halts == old(halts) + [HaltWrite(experiment, version, code, reason, written)]
      ensures written ==> version == latest
    {
      written := *;
      if version != latest {
        written := false;
      }
      halts := halts + [HaltWrite(experiment, version, code, reason, written)];
    }
  }

  lemma {:induction false} SweepIgnoresLater(m: map<string, nat>, list: seq<Schedule>, sights: seq<Sight>,
                                             written: seq<bool>, more: seq<bool>, threshold: nat, n: nat)
    requires n <= |list| == |sights| && n <= |written|
    ensures Sweep(m, list, sights, written + more, n) == Sweep(m, list, sights, written, n)
    ensures SweepWrites(m, list, sights, written + more, threshold, n)
         == SweepWrites(m, list, sights, written, threshold, n)
  {
    if n > 0 {
      SweepIgnoresLater(m, list, sights, written, more, threshold, n - 1);
    }
  }

  // ---------- independence of schedules within a sweep ----------

  /** Kubernetes namespaces contain no slash, so a key determines its schedule. */
  lemma KeyInjective(ns1: string, n1: string, ns2: string, n2: string)
    requires '/' !in ns1 && '/' !in ns2
    requires ns1 + "/" + n1 == ns2 + "/" + n2
    ensures ns1 == ns2 && n1 == n2
  {
    var k1, k2 := ns1 + "/" + n1, ns2 + "/" + n2;
    assert k1[|ns1|] == '/' && k2[|ns2|] == '/';
    assert ns1 == k1[..|ns1|] && ns2 == k2[..|ns2|];
    assert n1 == k1[|ns1| + 1..] && n2 == k2[|ns2| + 1..];
  }

  predicate WellNamed(list: seq<Schedule>) {
    && (forall i :: 0 <= i < |list| ==> '/' !in list[i].namespace)
    && (forall i, j :: 0 <= i < j < |list| ==> (list[i].namespace, list[i].name) != (list[j].namespace, list[j].name))
  }

  lemma KeysDistinct(list: seq<Schedule>, i: nat, j: nat)
    requires WellNamed(list) && i < |list| && j < |list| && Key(list[i]) == Key(list[j])
    ensures i == j
  {
    KeyInjective(list[i].namespace, list[i].name, list[j].namespace, list[j].name);
  }

  predicate Listed(list: seq<Schedule>, n: nat, k: string)
    requires n <= |list|
  {
    exists i :: 0 <= i < n && Visited(list[i]) && Key(list[i]) == k
  }

  /** A sweep updates the counter of each running schedule by its own tick alone and leaves
      every other counter as it was, wherever the schedule stands in the list. */
  lemma {:induction false} SweepPointwise(m: map<string, nat>, list: seq<Schedule>, sights: seq<Sight>,
                                          written: seq<bool>, n: nat, k: string)
    requires n <= |list| == |sights| && n <= |written| && WellNamed(list)
    ensures !Listed(list, n, k) ==> Get(Sweep(m, list, sights, written, n), k) == Get(m, k)
    ensures forall i :: 0 <= i < n && Visited(list[i]) && Key(list[i]) == k ==>
              Get(Sweep(m, list, sights, written, n), k) == After(Get(m, k), Observed(list[i], sights[i]), written[i])
  {
    if n > 0 {
      SweepPointwise(m, list, sights, written, n - 1, k);
      var s := list[n - 1];
      if Visited(s) && Key(s) == k {
        forall i | 0 <= i < n - 1 && Visited(list[i]) ensures Key(list[i]) != k {
          if Key(list[i]) == k {
            KeysDistinct(list, i, n - 1);
          }
        }
        assert !Listed(list, n - 1, k);
      }
    }
  }

  /** What a sweep does about one running schedule: a breach is written at once, a transient
      tick if it is the one that reaches the threshold, and its counter follows. */
  lemma {:induction false} SweepActs(m: map<string, nat>, list: seq<Schedule>, sights: seq<Sight>,
                                     written: seq<bool>, threshold: nat, n: nat, i: nat)
    requires i < n <= |list| == |sights| && n <= |written| && WellNamed(list)
    requires list[i].running && list[i].active.Some?
    ensures var s, key := list[i], list[i].namespace + "/" + list[i].name;
            var before, after := Get(m, key), Get(Sweep(m, list, sights, written, n), key);
            var failures := 1 + if before.Some? then before.value else 0;
            var writes := SweepWrites(m, list, sights, written, threshold, n);
            match Observed(s, sights[i])
            case Breach(code, reason) =>
              && HaltWrite(s.active.value, ReadVersion(sights[i]), code, reason, written[i]) in writes
              && after == (if written[i] then None else before)
            case Transient =>
              && (failures >= threshold ==>
                    HaltWrite(s.active.value, ReadVersion(sights[i]), Unreachable, UNREACHABLE_REASON, written[i])
                      in writes)
              && after == (if written[i] then None else Some(failures))
            case Clean => after == None
            case Skipped => !written[i] ==> after == before
  {
    hide TickOf;
    var s := list[i];
    var key := Key(s);
    SweepPointwise(m, list, sights, written, n, key);
    if i < n - 1 {
      SweepActs(m, list, sights, written, threshold, n - 1, i);
    } else {
      SweepPointwise(m, list, sights, written, i, key);
      NotListedBefore(list, i);
    }
  }

  lemma NotListedBefore(list: seq<Schedule>, i: nat)
    requires WellNamed(list) && i < |list|
    ensures !Listed(list, i, Key(list[i]))
  {
    forall j | 0 <= j < i && Visited(list[j]) ensures Key(list[j]) != Key(list[i]) {
      if Key(list[j]) == Key(list[i]) {
        KeysDistinct(list, i, j);
      }
    }
  }

  /** And nothing else is written: every halt write is for a running schedule, on a breach or
      on a transient tick. */
  lemma {:induction false} SweepWritesOnly(m: map<string, nat>, list: seq<Schedule>, sights: seq<Sight>,
                                           written: seq<bool>, threshold: nat, n: nat, h: HaltWrite)
    returns (i: nat)
    requires n <= |list| == |sights| && n <= |written|
    requires h in SweepWrites(m, list, sights, written, threshold, n)
    ensures i < n && list[i].running && list[i].active == Some(h.experiment)
    ensures h.version == ReadVersion(sights[i]) && h.written == written[i]
    ensures Observed(list[i], sights[i]) == Breach(h.code, h.reason)
         || (Observed(list[i], sights[i]) == Transient && h.code == Unreachable && h.reason == UNREACHABLE_REASON)
  {
    hide TickOf, Sweep;
    if h in SweepWrites(m, list, sights, written, threshold, n - 1) {
      i := SweepWritesOnly(m, list, sights, written, threshold, n - 1, h);
    } else {
      i := n - 1;
    }
  }

  // ---------- one schedule over time ----------

  /** A recorded tick of one schedule: how it was classified and whether a halt was written. */
  datatype Entry = Entry(tick: Tick, written: bool)

  function Counter(entries: seq<Entry>): Option<nat> {
    if entries == [] then None
    else
      var n := |entries| - 1;
      After(Counter(entries[..n]), entries[n].tick, entries[n].written)
  }

  /** Halts are written only when attempted. */
  predicate Honest(entries: seq<Entry>, threshold: nat) {
    forall i :: 0 <= i < |entries| && entries[i].written ==>
      Attempts(Counter(entries[..i]), entries[i].tick, threshold)
  }

  predicate Clears(e: Entry) {
    e.tick.Clean? || e.written
  }

  function Transients(entries: seq<Entry>): nat {
    if entries == [] then 0
    else Transients(entries[..|entries| - 1]) + (if entries[|entries| - 1].tick.Transient? then 1 else 0)
  }

  /** The counter is the number of transient ticks after the last clearing one; `p` is where
      that stretch starts. */
  lemma {:induction false} CounterCountsTransients(entries: seq<Entry>) returns (p: nat)
    ensures p <= |entries|
    ensures p > 0 ==> Clears(entries[p - 1])
    ensures forall i :: p <= i < |entries| ==> !Clears(entries[i])
    ensures Count(Counter(entries)) == Transients(entries[p..])
  {
    if entries == [] {
      p := 0;
    } else {
      var n := |entries| - 1;
      p := CounterCountsTransients(entries[..n]);
      if Clears(entries[n]) {
        p := n + 1;
        assert entries[p..] == [];
      } else {
        assert entries[..n][p..] == entries[p..][..n - p];
      }
    }
  }

  /** When the next tick makes the watcher attempt a halt: on every breach, and on a transient
      tick exactly if, itself included, there have been `threshold` of them since the last
      clearing tick. */
  lemma HaltsWhenDue(entries: seq<Entry>, threshold: nat) returns (p: nat)
    ensures p <= |entries| && (p > 0 ==> Clears(entries[p - 1]))
    ensures forall i :: p <= i < |entries| ==> !Clears(entries[i])
    ensures forall tick: Tick :: Attempts(Counter(entries), tick, threshold) <==>
              tick.Breach? || (tick.Transient? && Transients(entries[p..]) + 1 >= threshold)
  {
    p := CounterCountsTransients(entries);
  }

  /** An `unreachable` halt is written only after at least `threshold` transient ticks,
      itself included, with no clearing tick among them. */
  lemma UnreachableNeedsThreshold(entries: seq<Entry>, threshold: nat) returns (p: nat)
    requires entries != [] && Honest(entries, threshold)
    requires entries[|entries| - 1].tick.Transient? && entries[|entries| - 1].written
    ensures p < |entries| && Transients(entries[p..]) >= threshold
    ensures forall i :: p <= i < |entries| - 1 ==> !Clears(entries[i])
  {
    var n := |entries| - 1;
    p := CounterCountsTransients(entries[..n]);
    forall i | p <= i < n ensures !Clears(entries[i]) {
      assert entries[..n][i] == entries[i];
    }
    assert entries[p..][..n - p] == entries[..n][p..];
  }

  /** A counter at the threshold means a threshold halt was attempted and refused since. */
  lemma {:induction false} ThresholdMeansRefusedWrite(entries: seq<Entry>, threshold: nat) returns (i: nat)
    requires threshold > 0 && Count(Counter(entries)) >= threshold
    ensures i < |entries| && entries[i].tick.Transient? && !entries[i].written
    ensures Attempts(Counter(entries[..i]), entries[i].tick, threshold)
    ensures forall j :: i <= j < |entries| ==> !Clears(entries[j])
  {
    var n := |entries| - 1;
    if entries[n].tick.Transient? && Count(Counter(entries[..n])) + 1 >= threshold {
      i := n;
    } else {
      i := ThresholdMeansRefusedWrite(entries[..n], threshold);
      assert entries[..n][..i] == entries[..i];
      forall j | i <= j < |entries| ensures !Clears(entries[j]) {
        if j < n {
          assert entries[..n][j] == entries[j];
        }
      }
    }
  }

  // ---------- sweeps over time ----------

  datatype Pass = Pass(list: seq<Schedule>, sights: seq<Sight>, written: seq<bool>)

  /** What one tick meets: the schedules, if they can be listed, and the sight of each. */
  datatype Round = Round(listed: Option<seq<Schedule>>, sights: seq<Sight>)

  predicate Listable(r: Round) {
    r.listed.Some? ==> |r.listed.value| == |r.sights| && WellNamed(r.listed.value)
  }

  /** `passes` are the passes over those `ticks` on which the schedules could be listed. */
  ghost predicate Answer(passes: seq<Pass>, ticks: seq<Round>) {
    if ticks == [] then passes == []
    else
      var n := |ticks| - 1;
      if ticks[n].listed.None? then Answer(passes, ticks[..n])
      else
        && passes != []
        && passes[|passes| - 1].list == ticks[n].listed.value && passes[|passes| - 1].sights == ticks[n].sights
        && Answer(passes[..|passes| - 1], ticks[..n])
  }

  predicate Proper(p: Pass) {
    |p.list| == |p.sights| == |p.written| && WellNamed(p.list)
  }

  predicate AllProper(passes: seq<Pass>) {
    forall i :: 0 <= i < |passes| ==> Proper(passes[i])
  }

  function Passes(passes: seq<Pass>): map<string, nat>
    requires AllProper(passes)
  {
    if passes == [] then map[]
    else
      var p := passes[|passes| - 1];
      Sweep(Passes(passes[..|passes| - 1]), p.list, p.sights, p.written, |p.list|)
  }

  /** The halt writes of all passes, in order. */
  function PassesWrites(passes: seq<Pass>, threshold: nat): seq<HaltWrite>
    requires AllProper(passes)
  {
    if passes == [] then []
    else
      var p, before := passes[|passes| - 1], passes[..|passes| - 1];
      PassesWrites(before, threshold)
      + SweepWrites(Passes(before), p.list, p.sights, p.written, threshold, |p.list|)
  }

  function PlaceOf(list: seq<Schedule>, n: nat, k: string): (i: Option<nat>)
    requires n <= |list|
    ensures i.Some? ==> i.value < n && Visited(list[i.value]) && Key(list[i.value]) == k
    ensures i.None? ==> !Listed(list, n, k)
  {
    if n == 0 then None
    else if Visited(list[n - 1]) && Key(list[n - 1]) == k then Some(n - 1)
    else PlaceOf(list, n - 1, k)
  }

  /** The ticks recorded for key `k`, in order; passes that skip it record nothing. */
  function Entries(passes: seq<Pass>, k: string): seq<Entry>
    requires AllProper(passes)
  {
    if passes == [] then []
    else
      var p := passes[|passes| - 1];
      var before := Entries(passes[..|passes| - 1], k);
      match PlaceOf(p.list, |p.list|, k)
      case None => before
      case Some(i) => before + [Entry(Observed(p.list[i], p.sights[i]), p.written[i])]
  }

  /** After any number of sweeps over any lists, the stored counter of a key is the counter of
      that key's own recorded ticks. */
  lemma {:induction false} CounterIsOwnHistory(passes: seq<Pass>, k: string)
    requires AllProper(passes)
    ensures Get(Passes(passes), k) == Counter(Entries(passes, k))
  {
    hide TickOf, WellNamed, Sweep, Set;
    if passes != [] {
      var n := |passes| - 1;
      var p := passes[n];
      CounterIsOwnHistory(passes[..n], k);
      SweepPointwise(Passes(passes[..n]), p.list, p.sights, p.written, |p.list|, k);
      var place := PlaceOf(p.list, |p.list|, k);
      if place.Some? {
        var entries := Entries(passes, k);
        assert entries[..|entries| - 1] == Entries(passes[..n], k);
      }
    }
  }

  predicate JustifiedAt(passes: seq<Pass>, n: nat, threshold: nat)
    requires AllProper(passes) && n < |passes|
  {
    Justified(Passes(passes[..n]), passes[n].list, passes[n].sights, passes[n].written, threshold)
  }

  predicate AllJustified(passes: seq<Pass>, threshold: nat)
    requires AllProper(passes)
  {
    forall n :: 0 <= n < |passes| ==> JustifiedAt(passes, n, threshold)
  }

  lemma PassAppended(before: seq<Pass>, p: Pass, threshold: nat)
    requires AllProper(before) && AllJustified(before, threshold) && Proper(p)
    requires Justified(Passes(before), p.list, p.sights, p.written, threshold)
    ensures var passes := before + [p];
            && AllProper(passes) && AllJustified(passes, threshold)
            && Passes(passes) == Sweep(Passes(before), p.list, p.sights, p.written, |p.list|)
            && PassesWrites(passes, threshold) == PassesWrites(before, threshold)
               + SweepWrites(Passes(before), p.list, p.sights, p.written, threshold, |p.list|)
  {
    hide Justified, Sweep, SweepWrites, Proper;
    var passes := before + [p];
    assert passes[..|before|] == before;
    forall n | 0 <= n < |passes| ensures JustifiedAt(passes, n, threshold) {
      if n < |before| {
        assert JustifiedAt(before, n, threshold);
        assert passes[..n] == before[..n];
      }
    }
  }

  /** Which ticks are over before the experiment is looked at. */
  lemma EarlyTicks(cfg: Config, snap: Snapshot)
    ensures Quiet(RemoteVerdict(cfg, snap)) && !NeedsReplicaCheck(cfg) ==>
              forall e: Option<Option<string>> :: TickOf(Some(cfg), snap, e) == Clean
    ensures !(Quiet(RemoteVerdict(cfg, snap)) && !NeedsReplicaCheck(cfg)) ==> TickOf(Some(cfg), snap, None) == Skipped
  {
    hide RemoteVerdict;
  }

  lemma AlertReason(matchers: map<string, string>, reply: AlertsReply)
    ensures AlertsVerdict(matchers, reply).reason != UNREACHABLE_REASON
  {
    if reply.Alerts? && |Matching(reply.alerts, matchers)| > 0 {
      var text := "Critical alert: " + Matching(reply.alerts, matchers)[0].name;
      assert text[0] == 'C';
    }
  }

  /** No breach gives the reason that stands for unreachable checks. */
  lemma BreachReason(config: Option<Config>, snap: Snapshot, experiment: Option<Option<string>>)
    ensures var tick := TickOf(config, snap, experiment);
            tick.Breach? ==> tick.reason != UNREACHABLE_REASON
  {
    if config.Some? {
      var cfg := config.value;
      if cfg.alertSource.Some? {
        AlertReason(cfg.haltOnAlertLabels, snap.alerts(cfg.alertSource.value));
      }
      if cfg.metricsSource.Some? && cfg.slo.Some? {
        SLOReason(cfg.slo.value, query => snap.sample(cfg.metricsSource.value, query));
      }
      hide AlertsVerdict, SLOVerdict;
    }
  }

  lemma HonestExtended(entries: seq<Entry>, e: Entry, threshold: nat)
    requires Honest(entries, threshold) && (e.written ==> Attempts(Counter(entries), e.tick, threshold))
    ensures Honest(entries + [e], threshold)
  {
    var all := entries + [e];
    forall i | 0 <= i < |all| && all[i].written ensures Attempts(Counter(all[..i]), all[i].tick, threshold) {
      assert all[..i] == entries[..i];
    }
  }

  lemma JustifiedPrefix(passes: seq<Pass>, n: nat, threshold: nat)
    requires AllProper(passes) && AllJustified(passes, threshold) && n <= |passes|
    ensures AllProper(passes[..n]) && AllJustified(passes[..n], threshold)
  {
    hide Justified, Proper;
    forall i | 0 <= i < n ensures JustifiedAt(passes[..n], i, threshold) {
      assert passes[..n][..i] == passes[..i];
      assert JustifiedAt(passes, i, threshold);
    }
  }

  /** The history the watcher's own sweeps leave for a key is an honest one, so what is proved
      of honest histories holds of every counter it keeps. */
  lemma {:induction false} OwnHistoryIsHonest(passes: seq<Pass>, k: string, threshold: nat)
    requires AllProper(passes) && AllJustified(passes, threshold)
    ensures Honest(Entries(passes, k), threshold)
  {
    hide Justified, Honest, TickOf, Attempts, WellNamed;
    if passes == [] {
      assert Honest([], threshold) by {
        NothingIsHonest(threshold);
      }
    } else {
      var n := |passes| - 1;
      var p := passes[n];
      JustifiedPrefix(passes, n, threshold);
      OwnHistoryIsHonest(passes[..n], k, threshold);
      assert JustifiedAt(passes, n, threshold) && Proper(p);
      var place := PlaceOf(p.list, |p.list|, k);
      if place.Some? {
        LastEntryHonest(passes[..n], p, k, threshold, place.value);
        var e := Entry(Observed(p.list[place.value], p.sights[place.value]), p.written[place.value]);
        HonestExtended(Entries(passes[..n], k), e, threshold);
      }
    }
  }

  lemma NothingIsHonest(threshold: nat)
    ensures Honest([], threshold)
  {
  }

  lemma LastEntryHonest(before: seq<Pass>, p: Pass, k: string, threshold: nat, i: nat)
    requires AllProper(before) && Proper(p)
    requires Justified(Passes(before), p.list, p.sights, p.written, threshold)
    requires i < |p.list| && Key(p.list[i]) == k
    ensures p.written[i] ==> Attempts(Counter(Entries(before, k)), Observed(p.list[i], p.sights[i]), threshold)
  {
    hide TickOf;
    CounterIsOwnHistory(before, k);
    SweepPointwise(Passes(before), p.list, p.sights, p.written, i, k);
    if Listed(p.list, i, k) {
      var j :| 0 <= j < i && Visited(p.list[j]) && Key(p.list[j]) == k;
      KeysDistinct(p.list, i, j);
    }
  }
}
