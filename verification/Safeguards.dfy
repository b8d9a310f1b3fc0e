/** Safeguard configuration, the verdicts on alerts and service levels, and the answers they
    are computed from (internal/safeguard/checks.go, internal/safeguard/alertmanager.go). */
module Safeguards {
  import opened Wrappers

  datatype HaltCode = AlertMatch | SLOBreach | ReplicaMin | ReplicaMax | Unreachable | ConfigError

  datatype Query = Query(name: string, expression: string)

  /** The configured threshold: absent, not a number, or a number. */
  datatype Threshold = Missing | Malformed(text: string) | Value(limit: real)

  datatype SLOProtection = SLOProtection(threshold: Threshold, queries: seq<Query>)

  /** Alert and metrics sources are known by their URL. */
  datatype Config = Config(
    maxUnavailable: Option<int>,
    minReplicasAvailable: Option<int>,
    alertSource: Option<string>,
    haltOnAlertLabels: map<string, string>,
    metricsSource: Option<string>,
    slo: Option<SLOProtection>)

  /** An alert as decoded from the backend. */
  datatype RawAlert = RawAlert(labels: map<string, string>, state: string)
  datatype Alert = Alert(name: string, labels: map<string, string>)

  datatype AlertsReply = AlertsFailed | Alerts(alerts: seq<RawAlert>)
  datatype QueryReply = QueryFailed | Sample(value: real)
  datatype DeploymentReply = DeploymentFailed | Deployment(available: int, unavailable: int)

  /** One snapshot of everything the checks look at. */
  datatype Snapshot = Snapshot(
    validUrl: string -> bool,
    alerts: string -> AlertsReply,
    sample: (string, string) -> QueryReply,
    deployment: string -> DeploymentReply)

  /** Halt code, human-readable reason and error, as the check functions return them. */
  datatype Verdict = Verdict(code: Option<HaltCode>, reason: string, failed: bool)

  const CLEAR := Verdict(None, "", false)
  const FAILED := Verdict(None, "", true)

  /** Reading a missing key of a Go map yields the empty string. */
  function Label(labels: map<string, string>, key: string): string {
    if key in labels then labels[key] else ""
  }

  /** An active alert whose labels agree with every matcher. */
  predicate Matches(a: RawAlert, matchers: map<string, string>) {
    a.state == "active" && forall k <- matchers.Keys :: Label(a.labels, k) == matchers[k]
  }

  function Named(a: RawAlert): Alert {
    Alert(Label(a.labels, "alertname"), a.labels)
  }

  /** The matching alerts in backend order. */
  function Matching(alerts: seq<RawAlert>, matchers: map<string, string>): seq<Alert> {
    if alerts == [] then []
    else
      var n := |alerts| - 1;
      if Matches(alerts[n], matchers) then Matching(alerts[..n], matchers) + [Named(alerts[n])]
      else Matching(alerts[..n], matchers)
  }

  /** The matching loop of CheckAlerts; the matchers are visited in any order. */
  method CheckAlerts(alerts: seq<RawAlert>, matchers: map<string, string>) returns (res: seq<Alert>)
    ensures res == Matching(alerts, matchers)
  {
    res := [];
    var i := 0;
    while i < |alerts|
      invariant 0 <= i <= |alerts|
      invariant res == Matching(alerts[..i], matchers)
    {
      var alert := alerts[i];
      assert alerts[..i + 1][..i] == alerts[..i];
      i := i + 1;
      if alert.state != "active" {
        continue;
      }

      var matched := true;
      var keys := matchers.Keys;
      while keys != {} && matched
        invariant keys <= matchers.Keys
        invariant matched ==> forall k <- matchers.Keys - keys :: Label(alert.labels, k) == matchers[k]
        invariant !matched ==> exists k <- matchers.Keys :: Label(alert.labels, k) != matchers[k]
        decreases keys
      {
        var k :| k in keys;
        keys := keys - {k};
        if Label(alert.labels, k) != matchers[k] {
          matched := false;
        }
      }
      if !matched {
        continue;
      }
      res := res + [Named(alert)];
    }
    assert alerts[..i] == alerts;
  }

  /** The reported alerts are the name and labels of the active ones that carry every label,
      where a missing label counts as empty. */
  lemma {:induction false} MatchingExactly(alerts: seq<RawAlert>, matchers: map<string, string>)
    ensures forall r :: r in Matching(alerts, matchers) <==>
              exists a <- alerts ::
                && a.state == "active"
                && (forall k <- matchers.Keys :: (if k in a.labels then a.labels[k] else "") == matchers[k])
                && r == Alert(if "alertname" in a.labels then a.labels["alertname"] else "", a.labels)
    ensures |Matching(alerts, matchers)| > 0 <==> exists a <- alerts :: Matches(a, matchers)
  {
    if alerts != [] {
      var n := |alerts| - 1;
      MatchingExactly(alerts[..n], matchers);
      assert alerts == alerts[..n] + [alerts[n]];
    }
  }

  function AlertsVerdict(matchers: map<string, string>, reply: AlertsReply): Verdict {
    if |matchers| == 0 then CLEAR
    else match reply
      case AlertsFailed => FAILED
      case Alerts(alerts) =>
        var firing := Matching(alerts, matchers);
        if |firing| > 0 then Verdict(Some(AlertMatch), "Critical alert: " + firing[0].name, false) else CLEAR
  }

  /** The first matching alert is the first active one that carries every label. */
  lemma {:induction false} FirstMatching(alerts: seq<RawAlert>, matchers: map<string, string>) returns (i: nat)
    requires |Matching(alerts, matchers)| > 0
    ensures i < |alerts| && alerts[i].state == "active"
    ensures forall k <- matchers.Keys :: (if k in alerts[i].labels then alerts[i].labels[k] else "") == matchers[k]
    ensures forall j :: 0 <= j < i ==> !Matches(alerts[j], matchers)
    ensures Matching(alerts, matchers)[0] == Named(alerts[i])
  {
    var n := |alerts| - 1;
    if |Matching(alerts[..n], matchers)| > 0 {
      i := FirstMatching(alerts[..n], matchers);
    } else {
      i := n;
      forall j | 0 <= j < n ensures !Matches(alerts[j], matchers) {
        MatchingExactly(alerts[..n], matchers);
        assert alerts[j] in alerts[..n];
      }
    }
  }

  method CheckAlertsFiring(matchers: map<string, string>, reply: AlertsReply)
    returns (code: Option<HaltCode>, reason: string, failed: bool)
    ensures |matchers| == 0 ==> code.None? && reason == "" && !failed
    ensures |matchers| > 0 && reply.AlertsFailed? ==> code.None? && reason == "" && failed
    ensures |matchers| > 0 && reply.Alerts? ==>
              var firing := Matching(reply.alerts, matchers);
              && !failed && code == (if firing == [] then None else Some(AlertMatch))
              && reason == (if firing == [] then "" else "Critical alert: " + firing[0].name)
    ensures Verdict(code, reason, failed) == AlertsVerdict(matchers, reply)
  {
    if |matchers| == 0 {
      return None, "", false;
    }
    if reply.AlertsFailed? {
      return None, "", true;
    }
    var firing := CheckAlerts(reply.alerts, matchers);
    if |firing| > 0 {
      return Some(AlertMatch), "Critical alert: " + firing[0].name, false;
    }
    return None, "", false;
  }

  /** The verdict of the first query, if any, that fails or reaches the limit. */
  function QueriesVerdict(queries: seq<Query>, limit: real, sample: string -> QueryReply): Verdict {
    if queries == [] then CLEAR
    else match sample(queries[0].expression)
      case QueryFailed => FAILED
      case Sample(v) =>
        if v >= limit then Verdict(Some(SLOBreach), "SLO breached: " + queries[0].name, false)
        else QueriesVerdict(queries[1..], limit, sample)
  }

  function SLOVerdict(slo: SLOProtection, sample: string -> QueryReply): Verdict {
    match slo.threshold
    case Missing => Verdict(Some(ConfigError), "SLO protection configured without threshold", false)
    case Malformed(text) => Verdict(Some(ConfigError), "Invalid SLO threshold " + text, false)
    case Value(limit) => QueriesVerdict(slo.queries, limit, sample)
  }

  method CheckSLOBreach(slo: SLOProtection, sample: string -> QueryReply)
    returns (code: Option<HaltCode>, reason: string, failed: bool)
    ensures slo.threshold.Missing? ==>
              code == Some(ConfigError) && reason == "SLO protection configured without threshold" && !failed
    ensures slo.threshold.Malformed? ==>
              code == Some(ConfigError) && reason == "Invalid SLO threshold " + slo.threshold.text && !failed
    ensures slo.threshold.Value? ==>
              Verdict(code, reason, failed) == QueriesVerdict(slo.queries, slo.threshold.limit, sample)
    ensures Verdict(code, reason, failed) == SLOVerdict(slo, sample)
  {
    if slo.threshold.Missing? {
      return Some(ConfigError), "SLO protection configured without threshold", false;
    }
    if slo.threshold.Malformed? {
      return Some(ConfigError), "Invalid SLO threshold " + slo.threshold.text, false;
    }
    var threshold := slo.threshold.limit;
    var i := 0;
    while i < |slo.queries|
      invariant 0 <= i <= |slo.queries|
      invariant QueriesVerdict(slo.queries, threshold, sample) == QueriesVerdict(slo.queries[i..], threshold, sample)
    {
      var query := slo.queries[i];
      var reply := sample(query.expression);
      if reply.QueryFailed? {
        return None, "", true;
      }
      if reply.value >= threshold {
        return Some(SLOBreach), "SLO breached: " + query.name, false;
      }
      i := i + 1;
    }
    return None, "", false;
  }

  predicate Below(reply: QueryReply, limit: real) {
    reply.Sample? && reply.value < limit
  }

  /** The verdict is that of the first query that is not below the limit: an error if it
      failed, a breach naming it if it was answered; with no such query all is clear. */
  lemma {:induction false} FirstQueryDecides(queries: seq<Query>, limit: real, sample: string -> QueryReply)
    returns (k: nat)
    ensures k <= |queries|
    ensures forall j :: 0 <= j < k ==> var r := sample(queries[j].expression); r.Sample? && r.value < limit
    ensures k < |queries| ==> var r := sample(queries[k].expression); r.QueryFailed? || r.value >= limit
    ensures QueriesVerdict(queries, limit, sample)
         == if k == |queries| then CLEAR
            else if sample(queries[k].expression).QueryFailed? then FAILED
            else Verdict(Some(SLOBreach), "SLO breached: " + queries[k].name, false)
  {
    if queries == [] || !Below(sample(queries[0].expression), limit) {
      k := 0;
    } else {
      k := FirstQueryDecides(queries[1..], limit, sample);
      k := k + 1;
    }
  }

  /** Every verdict is one of three kinds; a halt always comes with a reason. */
  lemma {:induction false} VerdictShape(queries: seq<Query>, limit: real, sample: string -> QueryReply)
    ensures var v := QueriesVerdict(queries, limit, sample);
            (v.code.Some? <==> v.reason != "") && (v.failed ==> v.code.None?)
  {
    if queries != [] {
      VerdictShape(queries[1..], limit, sample);
      var breach := "SLO breached: " + queries[0].name;
      assert breach[0] == 'S';
    }
  }
}
