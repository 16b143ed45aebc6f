// The React hook of src/hooks/useNetworkSecurity.ts: what an assessment does
// to the hook's state and which alerts it raises, and the two status ladders
// the hook derives from its state.

module NetworkHook {
  import opened Common
  import opened NetworkSecurity

  /** `riskThresholds`; the hook's defaults are 70 and 90. */
  datatype RiskThresholds = RiskThresholds(requireAdditionalAuth: int, blockAccess: int)

  const DefaultRiskThresholds := RiskThresholds(70, 90)

  /** The hook's state: the latest assessment (`null` before the first) and the metrics it shows. */
  datatype HookState = HookState(assessment: Option<NetworkAssessment>, metrics: NetworkMetrics)

  /** The toasts `performAssessment` raises. */
  datatype Alert = AccessBlocked | AdditionalAuthRequired | PoorConnection

  datatype ConnectionStatus = ConnectionUnknown | ConnectionCritical | ConnectionWarning | ConnectionDegraded | ConnectionHealthy

  datatype SecurityStatus = SecurityUnknown | SecurityCritical | SecurityWarning | SecurityModerate | SecuritySecure

  /** The state the hook starts in: no assessment and the service's metrics. */
  function InitialState(svc: NetworkSecurityService): (s: HookState)
    reads svc
    ensures s.assessment.None? && s.metrics == NetworkMetrics(0.0, 0.0, Good)
  {
    HookState(None, svc.GetNetworkMetrics())
  }

  /** The risk toast for a score: blocking wins over additional authentication. */
  function RiskAlerts(score: int, t: RiskThresholds): (r: seq<Alert>)
    ensures AccessBlocked in r <==> score >= t.blockAccess
    ensures AdditionalAuthRequired in r <==> t.requireAdditionalAuth <= score < t.blockAccess
    ensures |r| <= 1
  {
    if score >= t.blockAccess then [AccessBlocked]
    else if score >= t.requireAdditionalAuth then [AdditionalAuthRequired]
    else []
  }

  /**
   * `performAssessment`: nothing without a signed-in user; otherwise the new
   * assessment and metrics are stored, the risk toast is raised, and the
   * connection toast is decided on the metrics the hook held before, since
   * the callback reads them from its closure.
   */
  function PerformAssessment(user: Option<string>, svc: NetworkSecurityService, info: NetworkInfo,
                             t: RiskThresholds, s: HookState): (r: (HookState, seq<Alert>))
    reads svc
    ensures user.None? ==> r == (s, [])
    ensures user.Some? ==> r.0 == HookState(Some(svc.PerformNetworkAssessment(info)), svc.GetNetworkMetrics())
    ensures user.Some? ==> (PoorConnection in r.1 <==> s.metrics.connectionQuality == Poor)
    ensures user.Some? ==>
      r.1[..|r.1| - (if s.metrics.connectionQuality == Poor then 1 else 0)] == RiskAlerts(svc.PerformNetworkAssessment(info).riskScore, t)
  {
    if user.None? then (s, [])
    else
      var assessment := svc.PerformNetworkAssessment(info);
      var alerts := RiskAlerts(assessment.riskScore, t) + (if s.metrics.connectionQuality == Poor then [PoorConnection] else []);
      (HookState(Some(assessment), svc.GetNetworkMetrics()), alerts)
  }

  /** `getConnectionStatus`. */
  function ConnectionStatusOf(metrics: Option<NetworkMetrics>): ConnectionStatus
  {
    if metrics.None? then ConnectionUnknown
    else
      var m := metrics.value;
      if m.connectionQuality == Poor then ConnectionCritical
      else if m.latency > 500.0 || m.packetLoss > 15.0 then ConnectionWarning
      else if m.latency > 200.0 || m.packetLoss > 5.0 then ConnectionDegraded
      else ConnectionHealthy
  }

  /** `getSecurityStatus`: the first rung the risk score reaches. */
  function SecurityStatusOf(assessment: Option<NetworkAssessment>, t: RiskThresholds): SecurityStatus
  {
    if assessment.None? then SecurityUnknown
    else
      var score := assessment.value.riskScore;
      if score >= t.blockAccess then SecurityCritical
      else if score >= t.requireAdditionalAuth then SecurityWarning
      else if score >= 50 then SecurityModerate
      else SecuritySecure
  }

  // ---------------------------------------------------------------------
  // Properties

  /**
   * On metrics the service computes, the quality already covers the warning
   * thresholds, so the status is never `warning`: it is critical exactly when
   * the connection is poor, and degraded exactly when it is fair.
   */
  lemma ConnectionStatusOfServiceMetrics(ms: seq<ConnectionMetrics>)
    ensures var st := ConnectionStatusOf(Some(MetricsOf(ms)));
      st != ConnectionWarning && st != ConnectionUnknown &&
      (st == ConnectionCritical <==> MetricsOf(ms).connectionQuality == Poor) &&
      (st == ConnectionDegraded <==> MetricsOf(ms).connectionQuality == Fair)
  {
  }

  /** The risk toasts agree with the security status the hook then reports. */
  lemma AlertsFollowSecurityStatus(user: Option<string>, svc: NetworkSecurityService, info: NetworkInfo,
                                   t: RiskThresholds, s: HookState)
    requires user.Some?
    ensures var r := PerformAssessment(user, svc, info, t, s);
      var st := SecurityStatusOf(r.0.assessment, t);
      (AccessBlocked in r.1 <==> st == SecurityCritical) &&
      (AdditionalAuthRequired in r.1 <==> st == SecurityWarning)
  {
    var r := PerformAssessment(user, svc, info, t, s);
    var risk := RiskAlerts(svc.PerformNetworkAssessment(info).riskScore, t);
    var tail: seq<Alert> := if s.metrics.connectionQuality == Poor then [PoorConnection] else [];
    assert r.1 == risk + tail;
  }

  /**
   * The metrics the hook holds always come from the service, which reports a
   * good connection, so the poor-connection toast is never raised.
   */
  lemma NoPoorConnectionAlert(user: Option<string>, svc: NetworkSecurityService, info: NetworkInfo,
                              t: RiskThresholds, s: HookState)
    requires s.metrics == svc.GetNetworkMetrics()
    ensures PoorConnection !in PerformAssessment(user, svc, info, t, s).1
    ensures PerformAssessment(user, svc, info, t, s).0.metrics == svc.GetNetworkMetrics()
  {
  }

  /**
   * Under the default thresholds, access is blocked only for a network with
   * reported malicious activity, and the score is exactly the flag weights.
   */
  lemma DefaultBlockNeedsThreatIntel(user: Option<string>, svc: NetworkSecurityService, info: NetworkInfo, s: HookState)
    requires AccessBlocked in PerformAssessment(user, svc, info, DefaultRiskThresholds, s).1
    ensures info.threatIntel.maliciousActivity
    ensures FlagScore(info) >= 90
  {
    HighRiskNeedsThreatIntel(info);
  }

  /** A security status other than unknown depends only on the score, and rises with it. */
  lemma SecurityStatusMonotone(a: NetworkAssessment, b: NetworkAssessment, t: RiskThresholds)
    requires 50 <= t.requireAdditionalAuth <= t.blockAccess
    requires a.riskScore <= b.riskScore
    ensures Rank(SecurityStatusOf(Some(a), t)) <= Rank(SecurityStatusOf(Some(b), t))
  {
  }

  function Rank(st: SecurityStatus): int
  {
    match st
    case SecurityUnknown => 0
    case SecuritySecure => 1
    case SecurityModerate => 2
    case SecurityWarning => 3
    case SecurityCritical => 4
  }
}
