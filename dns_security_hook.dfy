// The readers of src/hooks/useDNSSecurity.ts: the security status and the
// health status ladders, and the security score computed over the latest
// assessment the hook holds.

module DnsSecurityHook {
  import opened Common
  import opened DnsTypes
  import opened DnsSecurity

  /** `performanceThresholds`; the hook's defaults are 500 ms and 90 %. */
  datatype Thresholds = Thresholds(responseTime: real, querySuccessRate: real)

  const DefaultThresholds := Thresholds(500.0, 90.0)

  /** What `performDNSSecurityAssessment` resolves to. */
  datatype DnsAssessment = DnsAssessment(securityInfo: SecurityInfo, metrics: MonitoringMetrics, recommendations: seq<string>)

  datatype SecurityStatus = UnknownStatus | CriticalRisk | HighRisk | ModerateRisk | LowRisk | Secure

  datatype HealthStatus = UnknownHealth | CriticalHealth | DegradedHealth | Healthy

  /** `vulnerabilities.some(v => v.severity === s)`. */
  predicate HasSeverity(vs: seq<Vulnerability>, s: Severity)
  {
    exists i :: 0 <= i < |vs| && vs[i].severity == s
  }

  /** `getDNSSecurityStatus`: the first rung whose condition holds. */
  function SecurityStatusOf(assessment: Option<DnsAssessment>): SecurityStatus
  {
    if assessment.None? then UnknownStatus
    else
      var info := assessment.value.securityInfo;
      var m := assessment.value.metrics;
      if HasSeverity(info.vulnerabilities, Critical) || m.resolverHealth == Poor then CriticalRisk
      else if !info.hasDnssec || HasSeverity(info.vulnerabilities, High) || m.querySuccessRate < 70.0 then HighRisk
      else if !info.hasCaa || !info.hasSpf || !info.hasDmarc || m.resolverHealth == Degraded then ModerateRisk
      else if !info.hasNameserverRedundancy || m.querySuccessRate < 90.0 then LowRisk
      else Secure
  }

  /**
   * `getDNSHealthStatus`. The hook's metrics state always holds the object
   * `getDNSMetrics` returns, so the `unknown` rung is reached only by `None`.
   */
  function HealthStatusOf(metrics: Option<MetricsView>, th: Thresholds): HealthStatus
  {
    if metrics.None? then UnknownHealth
    else
      var m := metrics.value;
      if m.resolverHealth == Poor || m.querySuccessRate < 50.0 then CriticalHealth
      else if m.resolverHealth == Degraded || m.querySuccessRate < th.querySuccessRate || m.responseTime > th.responseTime
      then DegradedHealth
      else Healthy
  }

  // ---------------------------------------------------------------------
  // getSecurityScore

  /** The points a missing feature costs: DNSSEC 30, CAA 10, SPF 15, DMARC 15, nameserver redundancy 10. */
  function FeaturePenalty(info: SecurityInfo): int
  {
    (if !info.hasDnssec then 30 else 0) + (if !info.hasCaa then 10 else 0) +
    (if !info.hasSpf then 15 else 0) + (if !info.hasDmarc then 15 else 0) +
    (if !info.hasNameserverRedundancy then 10 else 0)
  }

  function SeverityPenalty(s: Severity): int
  {
    match s
    case Critical => 25
    case High => 15
    case Medium => 10
    case Low => 5
  }

  /** The points the vulnerabilities cost, one deduction per vulnerability. */
  function VulnerabilityPenalty(vs: seq<Vulnerability>): (p: int)
    ensures p >= 5 * |vs|
  {
    if vs == [] then 0 else VulnerabilityPenalty(vs[..|vs| - 1]) + SeverityPenalty(vs[|vs| - 1].severity)
  }

  /** The points performance costs: 20 poor, 10 degraded, 15 below 70 % and 5 below 90 %. */
  function PerformancePenalty(m: MonitoringMetrics): int
  {
    (if m.resolverHealth == Poor then 20 else 0) + (if m.resolverHealth == Degraded then 10 else 0) +
    (if m.querySuccessRate < 70.0 then 15 else 0) + (if m.querySuccessRate < 90.0 then 5 else 0)
  }

  /** The score before `Math.max(0, …)`. */
  function RawScore(a: DnsAssessment): int
  {
    100 - FeaturePenalty(a.securityInfo) - VulnerabilityPenalty(a.securityInfo.vulnerabilities) - PerformancePenalty(a.metrics)
  }

  /** The score `getSecurityScore` returns: 0 without an assessment, otherwise a value in [0, 100]. */
  function SecurityScoreOf(assessment: Option<DnsAssessment>): (s: int)
    ensures 0 <= s <= 100
    ensures assessment.None? ==> s == 0
  {
    if assessment.None? then 0 else MaxInt(0, RawScore(assessment.value))
  }

  lemma VulnerabilityPenaltySnoc(vs: seq<Vulnerability>, i: nat)
    requires i < |vs|
    ensures VulnerabilityPenalty(vs[..i + 1]) == VulnerabilityPenalty(vs[..i]) + SeverityPenalty(vs[i].severity)
  {
    assert vs[..i + 1][..i] == vs[..i];
  }

  /** `getSecurityScore`: deductions from 100, one per vulnerability in the `forEach`, then the clamp. */
  method GetSecurityScore(assessment: Option<DnsAssessment>) returns (score: int)
    ensures score == SecurityScoreOf(assessment)
  {
    if assessment.None? {
      return 0;
    }
    var info := assessment.value.securityInfo;
    var metrics := assessment.value.metrics;
    score := 100;
    if !info.hasDnssec { score := score - 30; }
    if !info.hasCaa { score := score - 10; }
    if !info.hasSpf { score := score - 15; }
    if !info.hasDmarc { score := score - 15; }
    if !info.hasNameserverRedundancy { score := score - 10; }
    var vs := info.vulnerabilities;
    for i := 0 to |vs|
      invariant score == 100 - FeaturePenalty(info) - VulnerabilityPenalty(vs[..i])
    {
      VulnerabilityPenaltySnoc(vs, i);
      match vs[i].severity {
        case Critical => score := score - 25;
        case High => score := score - 15;
        case Medium => score := score - 10;
        case Low => score := score - 5;
      }
    }
    assert vs[..|vs|] == vs;
    if metrics.resolverHealth == Poor { score := score - 20; }
    if metrics.resolverHealth == Degraded { score := score - 10; }
    if metrics.querySuccessRate < 70.0 { score := score - 15; }
    if metrics.querySuccessRate < 90.0 { score := score - 5; }
    score := MaxInt(0, score);
  }

  // ---------------------------------------------------------------------
  // Properties

  /** The vulnerabilities cost nothing exactly when there are none. */
  lemma VulnerabilityPenaltyZero(vs: seq<Vulnerability>)
    ensures VulnerabilityPenalty(vs) == 0 <==> vs == []
  {
  }

  /** A critical vulnerability costs at least 25 points. */
  lemma {:induction false} CriticalCostsAtLeast25(vs: seq<Vulnerability>)
    requires HasSeverity(vs, Critical)
    ensures VulnerabilityPenalty(vs) >= 25
  {
    var last := vs[|vs| - 1];
    var init := vs[..|vs| - 1];
    if last.severity != Critical {
      var i :| 0 <= i < |vs| && vs[i].severity == Critical;
      assert init[i] == vs[i];
      CriticalCostsAtLeast25(init);
    }
  }

  /** A full score is given exactly to a secure assessment without any vulnerability. */
  lemma FullScoreIffSecureAndClean(a: DnsAssessment)
    ensures SecurityScoreOf(Some(a)) == 100 <==>
      SecurityStatusOf(Some(a)) == Secure && a.securityInfo.vulnerabilities == []
  {
    VulnerabilityPenaltyZero(a.securityInfo.vulnerabilities);
  }

  /** A critical status leaves at most 80 points. */
  lemma CriticalStatusCapsScore(a: DnsAssessment)
    requires SecurityStatusOf(Some(a)) == CriticalRisk
    ensures SecurityScoreOf(Some(a)) <= 80
  {
    if HasSeverity(a.securityInfo.vulnerabilities, Critical) {
      CriticalCostsAtLeast25(a.securityInfo.vulnerabilities);
    }
  }

  /** A success rate below 70 % costs 20 points, since both rate deductions apply. */
  lemma LowRateCostsTwenty(a: DnsAssessment)
    requires a.metrics.querySuccessRate < 70.0
    ensures RawScore(a) == RawScore(a.(metrics := a.metrics.(querySuccessRate := 100.0))) - 20
  {
  }

  /** Whether the MX records are valid changes neither the status nor the score. */
  lemma MxRecordsIgnored(a: DnsAssessment, mx: bool)
    ensures var b := a.(securityInfo := a.securityInfo.(hasValidMxRecords := mx));
      SecurityStatusOf(Some(b)) == SecurityStatusOf(Some(a)) && SecurityScoreOf(Some(b)) == SecurityScoreOf(Some(a))
  {
  }

  /**
   * Against the service's own classification of the resolver (poor below
   * 50 %, degraded below 80 %), and under the default thresholds, the health
   * status is critical exactly below 50 % and healthy exactly at 90 % or more
   * within 500 ms.
   */
  lemma HealthOfMeasuredMetrics(m: MetricsView)
    requires m.resolverHealth == ResolverHealthOf(m.querySuccessRate)
    ensures HealthStatusOf(Some(m), DefaultThresholds) == CriticalHealth <==> m.querySuccessRate < 50.0
    ensures HealthStatusOf(Some(m), DefaultThresholds) == Healthy <==>
      m.querySuccessRate >= 90.0 && m.responseTime <= 500.0
  {
  }
}
