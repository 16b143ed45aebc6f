// The second anomaly service, src/services/dns/dnsAnomalyDetection.ts, that
// the anomaly hook reads. Only its store maintenance is present in it: the
// age-out sweep, the two lookups and clearData.

module DnsAnomalyTwin {
  import opened Common
  import opened DnsTypes
  import opened DnsAnomaly

  class DnsAnomalyStore {
    var patterns: map<string, Pattern>
    var anomalies: map<string, seq<Anomaly>>

    constructor ()
      ensures patterns == map[] && anomalies == map[]
    {
      patterns := map[];
      anomalies := map[];
    }

    /**
     * `cleanupOldAnomalies`: each domain keeps its anomalies newer than a
     * week, in their order, and a domain left with none is removed.
     */
    method CleanupOldAnomalies(now: int)
      modifies this
      ensures patterns == old(patterns)
      ensures anomalies.Keys == set d | d in old(anomalies) && KeptAfter(old(anomalies)[d], now - LearningPeriod) != []
      ensures forall d :: d in anomalies ==> anomalies[d] == KeptAfter(old(anomalies)[d], now - LearningPeriod)
    {
      anomalies := Sweep(anomalies, now - LearningPeriod);
    }

    function GetAnomalies(domain: string): (r: seq<Anomaly>)
      reads this`anomalies
      ensures r == if domain in anomalies then anomalies[domain] else []
    {
      if domain in anomalies then anomalies[domain] else []
    }

    function GetPattern(domain: string): (r: Option<Pattern>)
      reads this`patterns
      ensures r == if domain in patterns then Some(patterns[domain]) else None
    {
      if domain in patterns then Some(patterns[domain]) else None
    }

    /** `clearData(domain)`: one domain when a non-empty name is given, otherwise everything. */
    method ClearData(domain: Option<string>)
      modifies this
      ensures domain.Some? && domain.value != "" ==>
        patterns == old(patterns) - {domain.value} && anomalies == old(anomalies) - {domain.value}
      ensures !(domain.Some? && domain.value != "") ==> patterns == map[] && anomalies == map[]
    {
      if domain.Some? && domain.value != "" {
        patterns := patterns - {domain.value};
        anomalies := anomalies - {domain.value};
      } else {
        patterns := map[];
        anomalies := map[];
      }
    }
  }

  /** After a sweep, a week-old anomaly is never returned, and a recent one always is. */
  lemma SweepAnswers(m: map<string, seq<Anomaly>>, now: int, d: string, x: Anomaly)
    ensures var r := Cleaned(m, now - LearningPeriod);
      (x in (if d in r then r[d] else []) <==>
       d in m && x in m[d] && x.timestamp > now - LearningPeriod)
  {
    if d in m {
      KeptAfterMembers(m[d], now - LearningPeriod, x);
    }
  }
}
