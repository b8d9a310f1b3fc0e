/** The pre-flight gate of the schedule controller and the per-tick classification of the
    watcher, and when they agree (internal/controller/chaosschedule_controller.go,
    internal/safeguard/watcher.go). */
module Gate {
  import opened Wrappers
  import opened Safeguards

  datatype GateResult = Open | Blocked(reason: string) | GateFailed

  function AlertSourceVerdict(cfg: Config, snap: Snapshot): Verdict {
    if cfg.alertSource.None? then CLEAR
    else if !snap.validUrl(cfg.alertSource.value) then Verdict(Some(ConfigError), "Invalid alert source config", false)
    else AlertsVerdict(cfg.haltOnAlertLabels, snap.alerts(cfg.alertSource.value))
  }

  function MetricsSourceVerdict(cfg: Config, snap: Snapshot): Verdict {
    if cfg.metricsSource.None? || cfg.slo.None? then CLEAR
    else
      var url := cfg.metricsSource.value;
      if !snap.validUrl(url) then Verdict(Some(ConfigError), "Invalid metrics source config", false)
      else SLOVerdict(cfg.slo.value, query => snap.sample(url, query))
  }

  predicate NeedsReplicaCheck(cfg: Config) {
    cfg.minReplicasAvailable.Some? || cfg.maxUnavailable.Some?
  }

  function ReplicaVerdict(cfg: Config, reply: DeploymentReply): Verdict {
    match reply
    case DeploymentFailed => FAILED
    case Deployment(available, unavailable) =>
      if cfg.minReplicasAvailable.Some? && available < cfg.minReplicasAvailable.value then
        Verdict(Some(ReplicaMin), "Available replicas below minimum", false)
      else if cfg.maxUnavailable.Some? && unavailable > cfg.maxUnavailable.value then
        Verdict(Some(ReplicaMax), "Unavailable replicas above maximum", false)
      else CLEAR
  }

  /** The gate: replicas first, then alerts, then service levels; an unnamed target or absent
      safeguards let every run through. */
  function GateOf(config: Option<Config>, target: Option<string>, snap: Snapshot): GateResult {
    if config.None? || target.None? then Open
    else
      var cfg := config.value;
      var replicas := if NeedsReplicaCheck(cfg) then ReplicaVerdict(cfg, snap.deployment(target.value)) else CLEAR;
      if replicas.failed then GateFailed
      else if replicas.code.Some? then Blocked(replicas.reason)
      else
        var alerts := AlertSourceVerdict(cfg, snap);
        if alerts.failed then Blocked("check alerts")
        else if alerts.reason != "" then Blocked(alerts.reason)
        else
          var slo := MetricsSourceVerdict(cfg, snap);
          if slo.failed then Blocked("check SLO")
          else if slo.reason != "" then Blocked(slo.reason)
          else Open
  }

  method CheckSafeguards(config: Option<Config>, target: Option<string>, snap: Snapshot)
    returns (safe: bool, reason: string, failed: bool)
    ensures match GateOf(config, target, snap)
            case Open => safe && !failed
            case Blocked(why) => !safe && !failed && reason == why
            case GateFailed => !safe && failed
  {
    if config.None? || target.None? {
      return true, "", false;
    }
    var sg := config.value;

    if sg.minReplicasAvailable.Some? || sg.maxUnavailable.Some? {
      var dep := snap.deployment(target.value);
      if dep.DeploymentFailed? {
        return false, "", true;
      }
      if sg.minReplicasAvailable.Some? && dep.available < sg.minReplicasAvailable.value {
        return false, "Available replicas below minimum", false;
      }
      if sg.maxUnavailable.Some? && dep.unavailable > sg.maxUnavailable.value {
        return false, "Unavailable replicas above maximum", false;
      }
    }

    var err: bool;
    var code: Option<HaltCode>;
    if sg.alertSource.Some? {
      if !snap.validUrl(sg.alertSource.value) {
        return false, "Invalid alert source config", false;
      }
      code, reason, err := CheckAlertsFiring(sg.haltOnAlertLabels, snap.alerts(sg.alertSource.value));
      if err {
        return false, "check alerts", false;
      }
      if reason != "" {
        return false, reason, false;
      }
    }

    if sg.metricsSource.Some? && sg.slo.Some? {
      var url := sg.metricsSource.value;
      if !snap.validUrl(url) {
        return false, "Invalid metrics source config", false;
      }
      code, reason, err := CheckSLOBreach(sg.slo.value, query => snap.sample(url, query));
      if err {
        return false, "check SLO", false;
      }
      if reason != "" {
        return false, reason, false;
      }
    }

    return true, "", false;
  }

  /** How the watcher classifies one tick of a running schedule. */
  datatype Tick = Skipped | Clean | Breach(code: HaltCode, reason: string) | Transient

  function Quiet(v: Verdict): bool {
    v.code.None? && !v.failed
  }

  /** Alerts first, then service levels unless alerts already decided. */
  function RemoteVerdict(cfg: Config, snap: Snapshot): Verdict {
    var alerts := AlertSourceVerdict(cfg, snap);
    if Quiet(alerts) then MetricsSourceVerdict(cfg, snap) else alerts
  }

  /** `experiment` is the target name of the active experiment, or None if it cannot be read. */
  function TickOf(config: Option<Config>, snap: Snapshot, experiment: Option<Option<string>>): Tick {
    if config.None? then Skipped
    else
      var cfg := config.value;
      var remote := RemoteVerdict(cfg, snap);
      if Quiet(remote) && !NeedsReplicaCheck(cfg) then Clean
      else if experiment.None? then Skipped
      else
        var replicas :=
          if remote.code.None? && NeedsReplicaCheck(cfg) && experiment.value.Some?
          then ReplicaVerdict(cfg, snap.deployment(experiment.value.value)) else CLEAR;
        if remote.code.Some? then Breach(remote.code.value, remote.reason)
        else if replicas.code.Some? then Breach(replicas.code.value, replicas.reason)
        else if remote.failed || replicas.failed then Transient
        else Clean
  }

  lemma SourceShapes(cfg: Config, snap: Snapshot)
    ensures var a, m := AlertSourceVerdict(cfg, snap), MetricsSourceVerdict(cfg, snap);
            && (a.code.Some? <==> a.reason != "") && (a.failed ==> a.code.None?)
            && (m.code.Some? <==> m.reason != "") && (m.failed ==> m.code.None?)
  {
    if cfg.alertSource.Some? && snap.validUrl(cfg.alertSource.value) {
      var reply := snap.alerts(cfg.alertSource.value);
      if reply.Alerts? && |Matching(reply.alerts, cfg.haltOnAlertLabels)| > 0 {
        var text := "Critical alert: " + Matching(reply.alerts, cfg.haltOnAlertLabels)[0].name;
        assert text[0] == 'C';
      }
    }
    if cfg.metricsSource.Some? && cfg.slo.Some? {
      var url := cfg.metricsSource.value;
      var sample := query => snap.sample(url, query);
      match cfg.slo.value.threshold
      case Missing =>
      case Malformed(text) =>
        var reason := "Invalid SLO threshold " + text;
        assert reason[0] == 'I';
      case Value(limit) =>
        VerdictShape(cfg.slo.value.queries, limit, sample);
    }
  }

  lemma SourceReasons(cfg: Config, snap: Snapshot)
    ensures var a, m := AlertSourceVerdict(cfg, snap), MetricsSourceVerdict(cfg, snap);
            && (a.reason != "" ==> a.reason[0] != 'A' && a.reason[0] != 'U')
            && (m.reason != "" ==> m.reason[0] != 'A' && m.reason[0] != 'U')
  {
    if cfg.alertSource.Some? && snap.validUrl(cfg.alertSource.value) {
      var reply := snap.alerts(cfg.alertSource.value);
      if reply.Alerts? && |Matching(reply.alerts, cfg.haltOnAlertLabels)| > 0 {
        var text := "Critical alert: " + Matching(reply.alerts, cfg.haltOnAlertLabels)[0].name;
        assert text[0] == 'C';
      }
    }
    if cfg.metricsSource.Some? && cfg.slo.Some? && snap.validUrl(cfg.metricsSource.value) {
      SLOReason(cfg.slo.value, query => snap.sample(cfg.metricsSource.value, query));
    }
  }

  lemma SLOReason(slo: SLOProtection, sample: string -> QueryReply)
    ensures var r := SLOVerdict(slo, sample).reason; r != "" ==> r[0] == 'S' || r[0] == 'I'
    ensures SLOVerdict(slo, sample).reason != "Safeguard checks unreachable"
  {
    match slo.threshold
    case Missing =>
      assert SLOVerdict(slo, sample).reason[1] == 'L';
    case Malformed(text) =>
      assert SLOVerdict(slo, sample).reason[0] == 'I';
    case Value(limit) =>
      var k := FirstQueryDecides(slo.queries, limit, sample);
      if k < |slo.queries| && sample(slo.queries[k].expression).Sample? {
        var text := "SLO breached: " + slo.queries[k].name;
        assert text[0] == 'S' && text[1] == 'L';
      }
  }

  /** What the gate makes of the replicas of a named target, by their numbers: it fails or
      blocks for them exactly when a bound is set and the deployment cannot be read or is out
      of bounds, the minimum first; otherwise alerts and then service levels decide. */
  lemma GateExactly(cfg: Config, name: string, snap: Snapshot)
    ensures var gate, dep := GateOf(Some(cfg), Some(name), snap), snap.deployment(name);
            var a, m := AlertSourceVerdict(cfg, snap), MetricsSourceVerdict(cfg, snap);
            var min, max := cfg.minReplicasAvailable, cfg.maxUnavailable;
            var below := dep.Deployment? && min.Some? && dep.available < min.value;
            var above := dep.Deployment? && max.Some? && dep.unavailable > max.value;
            && (gate == GateFailed <==> (min.Some? || max.Some?) && dep.DeploymentFailed?)
            && (gate == Blocked("Available replicas below minimum") <==> below)
            && (gate == Blocked("Unavailable replicas above maximum") <==> above && !below)
            && (gate != GateFailed && !below && !above ==>
                  gate == if a.failed then Blocked("check alerts")
                          else if a.reason != "" then Blocked(a.reason)
                          else if m.failed then Blocked("check SLO")
                          else if m.reason != "" then Blocked(m.reason)
                          else Open)
  {
    SourceReasons(cfg, snap);
    hide AlertSourceVerdict, MetricsSourceVerdict;
    assert "Available replicas below minimum"[0] == 'A' && "Unavailable replicas above maximum"[0] == 'U';
    assert "check alerts"[0] == 'c' && "check SLO"[0] == 'c';
  }

  /** Without safeguards, and for an unnamed target, the gate opens whatever is going on. */
  lemma GateOpensUnasked(config: Option<Config>, target: Option<string>, snap: Snapshot)
    requires config.None? || target.None?
    ensures GateOf(config, target, snap) == Open
  {
  }

  /** What one tick is, by what was read: alerts come before service levels; a halt verdict of
      theirs decides; after that the replicas of a named target do, a breach even if alerts or
      service levels could not be checked; and only then a failed check makes it transient. */
  lemma TickExactly(cfg: Config, snap: Snapshot, experiment: Option<Option<string>>)
    ensures var tick := TickOf(Some(cfg), snap, experiment);
            var a, m := AlertSourceVerdict(cfg, snap), MetricsSourceVerdict(cfg, snap);
            var remote := if a.code.Some? || a.failed then a else m;
            var min, max := cfg.minReplicasAvailable, cfg.maxUnavailable;
            var bounded := min.Some? || max.Some?;
            var settled := remote.code.None? && !remote.failed && !bounded;
            if settled then tick == Clean
            else if experiment.None? then tick == Skipped
            else if remote.code.Some? then tick == Breach(remote.code.value, remote.reason)
            else if !bounded || experiment.value.None? then tick == if remote.failed then Transient else Clean
            else match snap.deployment(experiment.value.value)
              case DeploymentFailed => tick == Transient
              case Deployment(available, unavailable) =>
                if min.Some? && available < min.value then
                  tick == Breach(ReplicaMin, "Available replicas below minimum")
                else if max.Some? && unavailable > max.value then
                  tick == Breach(ReplicaMax, "Unavailable replicas above maximum")
                else tick == if remote.failed then Transient else Clean
  {
  }

  lemma NoTick(snap: Snapshot, experiment: Option<Option<string>>)
    ensures TickOf(None, snap, experiment) == Skipped
  {
  }

  /** On one snapshot the gate opens exactly when the watcher finds the tick clean, for every
      target with a name, and for an unnamed one precisely when alerts and service levels
      are clear: the gate does not look at those, the watcher does. */
  lemma GateAgreesWithWatcher(cfg: Config, target: Option<string>, snap: Snapshot)
    ensures (GateOf(Some(cfg), target, snap) == Open <==> TickOf(Some(cfg), snap, Some(target)) == Clean)
       <==> (target.Some? || (Quiet(AlertSourceVerdict(cfg, snap)) && Quiet(MetricsSourceVerdict(cfg, snap))))
  {
    SourceShapes(cfg, snap);
  }

  /** The disagreement happens: an unnamed target with a breached service level passes the
      gate and is halted by the first tick. */
  lemma UnnamedTargetSlipsThrough()
    ensures var snap := Snapshot(_ => true, _ => Alerts([]), (_, _) => Sample(1.0), _ => DeploymentFailed);
            var cfg := Config(None, None, None, map[], Some("http://p"),
                              Some(SLOProtection(Value(0.5), [Query("errors", "e")])));
            && GateOf(Some(cfg), None, snap) == Open
            && TickOf(Some(cfg), snap, Some(None)) == Breach(SLOBreach, "SLO breached: errors")
  {
  }
}
