// The React hook of src/hooks/useDNSAnomalyDetection.ts: it copies one
// domain's anomalies and pattern out of the store, raises a notification per
// severity for anomalies it has not seen, and summarises what it holds.

module DnsAnomalyHook {
  import opened Common
  import opened DnsTypes
  import opened DnsAnomalyTwin

  /** `severityThresholds`; the hook's default is critical and high on, medium off. */
  datatype SeverityThresholds = SeverityThresholds(notifyOnCritical: bool, notifyOnHigh: bool, notifyOnMedium: bool)

  const DefaultThresholds := SeverityThresholds(true, true, false)

  datatype ToastKind = ErrorToast | WarningToast | InfoToast

  datatype Notification = Notification(kind: ToastKind, title: string, description: string)

  function BySeverity(s: seq<Anomaly>, sev: Severity): (r: seq<Anomaly>)
    ensures |r| <= |s|
  {
    if s == [] then []
    else if s[|s| - 1].severity == sev then BySeverity(s[..|s| - 1], sev) + [s[|s| - 1]]
    else BySeverity(s[..|s| - 1], sev)
  }

  function ByType(s: seq<Anomaly>, t: AnomalyType): (r: seq<Anomaly>)
    ensures |r| <= |s|
  {
    if s == [] then []
    else if s[|s| - 1].atype == t then ByType(s[..|s| - 1], t) + [s[|s| - 1]]
    else ByType(s[..|s| - 1], t)
  }

  /** The filters return exactly the matching anomalies. */
  lemma {:induction false} FilterMembers(s: seq<Anomaly>, sev: Severity, t: AnomalyType, x: Anomaly)
    ensures x in BySeverity(s, sev) <==> x in s && x.severity == sev
    ensures x in ByType(s, t) <==> x in s && x.atype == t
  {
    if s != [] {
      FilterMembers(s[..|s| - 1], sev, t, x);
      assert s == s[..|s| - 1] + [s[|s| - 1]];
    }
  }

  /** A filter keeps every matching anomaly, so its length is the number of matches. */
  lemma FilterAllOrNothing(s: seq<Anomaly>, sev: Severity)
    ensures (forall i :: 0 <= i < |s| ==> s[i].severity == sev) ==> BySeverity(s, sev) == s
    ensures (forall i :: 0 <= i < |s| ==> s[i].severity != sev) ==> BySeverity(s, sev) == []
  {
    if forall i :: 0 <= i < |s| ==> s[i].severity == sev {
      FilterAll(s, sev);
    }
    if forall i :: 0 <= i < |s| ==> s[i].severity != sev {
      FilterNone(s, sev);
    }
  }

  lemma {:induction false} FilterAll(s: seq<Anomaly>, sev: Severity)
    requires forall i :: 0 <= i < |s| ==> s[i].severity == sev
    ensures BySeverity(s, sev) == s
  {
    if s != [] {
      var p := s[..|s| - 1];
      assert forall i :: 0 <= i < |p| ==> p[i] == s[i];
      FilterAll(p, sev);
      assert s == p + [s[|s| - 1]];
    }
  }

  lemma {:induction false} FilterNone(s: seq<Anomaly>, sev: Severity)
    requires forall i :: 0 <= i < |s| ==> s[i].severity != sev
    ensures BySeverity(s, sev) == []
  {
    if s != [] {
      var p := s[..|s| - 1];
      assert forall i :: 0 <= i < |p| ==> p[i] == s[i];
      FilterNone(p, sev);
    }
  }

  /** One more anomaly adds one to the count of its severity and of its type. */
  lemma CountsStep(s: seq<Anomaly>, i: nat)
    requires i < |s|
    ensures forall sev :: |BySeverity(s[..i + 1], sev)| == |BySeverity(s[..i], sev)| + (if s[i].severity == sev then 1 else 0)
    ensures forall t :: |ByType(s[..i + 1], t)| == |ByType(s[..i], t)| + (if s[i].atype == t then 1 else 0)
  {
    assert s[..i + 1][..i] == s[..i];
  }

  /** `!previous.some(a => a.timestamp === x.timestamp && a.type === x.type)`. */
  predicate IsNew(x: Anomaly, previous: seq<Anomaly>)
  {
    forall i :: 0 <= i < |previous| ==> !(previous[i].timestamp == x.timestamp && previous[i].atype == x.atype)
  }

  function NewAnomalies(current: seq<Anomaly>, previous: seq<Anomaly>): (r: seq<Anomaly>)
    ensures |r| <= |current|
  {
    if current == [] then []
    else
      var x := current[|current| - 1];
      NewAnomalies(current[..|current| - 1], previous) + (if IsNew(x, previous) then [x] else [])
  }

  lemma {:induction false} NewAnomaliesMembers(current: seq<Anomaly>, previous: seq<Anomaly>, x: Anomaly)
    ensures x in NewAnomalies(current, previous) <==> x in current && IsNew(x, previous)
  {
    if current != [] {
      NewAnomaliesMembers(current[..|current| - 1], previous, x);
      assert current == current[..|current| - 1] + [current[|current| - 1]];
    }
  }

  /** Holding the same list again yields nothing new. */
  lemma NothingNewTwice(current: seq<Anomaly>)
    ensures NewAnomalies(current, current) == []
  {
    if NewAnomalies(current, current) != [] {
      var x := NewAnomalies(current, current)[0];
      NewAnomaliesMembers(current, current, x);
      assert false;
    }
  }

  function Descriptions(s: seq<Anomaly>): (r: seq<string>)
    ensures |r| == |s|
    ensures forall i :: 0 <= i < |s| ==> r[i] == s[i].description
  {
    if s == [] then [] else Descriptions(s[..|s| - 1]) + [s[|s| - 1].description]
  }

  function SeverityNotification(domain: string, enabled: bool, unseen: seq<Anomaly>, sev: Severity,
                                kind: ToastKind, title: string): (r: seq<Notification>)
    ensures |r| <= 1
    ensures |r| == 1 <==> enabled && |BySeverity(unseen, sev)| > 0
  {
    var matching := BySeverity(unseen, sev);
    if enabled && |matching| > 0
    then [Notification(kind, title + domain, Join(Descriptions(matching), ", "))]
    else []
  }

  /** The toasts raised for the anomalies not seen before, one per severity at most. */
  function Notifications(domain: string, t: SeverityThresholds, unseen: seq<Anomaly>): seq<Notification>
  {
    if |unseen| == 0 then []
    else
      SeverityNotification(domain, t.notifyOnCritical, unseen, Critical, ErrorToast, "Critical DNS anomalies detected for ") +
      SeverityNotification(domain, t.notifyOnHigh, unseen, High, WarningToast, "High-risk DNS anomalies detected for ") +
      SeverityNotification(domain, t.notifyOnMedium, unseen, Medium, InfoToast, "Medium-risk DNS anomalies detected for ")
  }

  /**
   * With the default thresholds, a new critical anomaly raises an error
   * toast and a new high one a warning; medium and low anomalies never raise one.
   */
  lemma DefaultNotificationGating(domain: string, unseen: seq<Anomaly>)
    ensures var n := Notifications(domain, DefaultThresholds, unseen);
      |n| <= 2 &&
      (forall i :: 0 <= i < |n| ==> n[i].kind != InfoToast) &&
      ((exists i :: 0 <= i < |n| && n[i].kind == ErrorToast) <==> |BySeverity(unseen, Critical)| > 0) &&
      ((exists i :: 0 <= i < |n| && n[i].kind == WarningToast) <==> |BySeverity(unseen, High)| > 0)
  {
    var c := SeverityNotification(domain, true, unseen, Critical, ErrorToast, "Critical DNS anomalies detected for ");
    var h := SeverityNotification(domain, true, unseen, High, WarningToast, "High-risk DNS anomalies detected for ");
    var m := SeverityNotification(domain, false, unseen, Medium, InfoToast, "Medium-risk DNS anomalies detected for ");
    if |unseen| > 0 {
      var n := c + h + m;
      assert Notifications(domain, DefaultThresholds, unseen) == n;
      assert m == [];
      assert forall i :: 0 <= i < |c| ==> c[i].kind == ErrorToast;
      assert forall i :: 0 <= i < |h| ==> h[i].kind == WarningToast;
      assert forall i :: 0 <= i < |n| ==> (i < |c| ==> n[i] == c[i]) && (i >= |c| ==> n[i] == h[i - |c|]);
      if |c| == 1 { assert n[0].kind == ErrorToast; }
      if |h| == 1 { assert n[|c|].kind == WarningToast; }
    } else {
      assert BySeverity(unseen, Critical) == [] && BySeverity(unseen, High) == [];
    }
  }

  /** No configuration ever raises a toast for a low-severity anomaly alone. */
  lemma LowNeverNotifies(domain: string, t: SeverityThresholds, unseen: seq<Anomaly>)
    requires forall i :: 0 <= i < |unseen| ==> unseen[i].severity == Low
    ensures Notifications(domain, t, unseen) == []
  {
    FilterAllOrNothing(unseen, Critical);
    FilterAllOrNothing(unseen, High);
    FilterAllOrNothing(unseen, Medium);
  }

  datatype AnomalyStats = AnomalyStats(
    total: nat,
    critical: nat, high: nat, medium: nat, low: nat,
    pattern: nat, timing: nat, volume: nat, resolution: nat, security: nat,
    lastDetected: Option<int>)

  function LatestTimestamp(s: seq<Anomaly>): (m: int)
    requires |s| > 0
    ensures forall i :: 0 <= i < |s| ==> s[i].timestamp <= m
    ensures exists i :: 0 <= i < |s| && s[i].timestamp == m
  {
    if |s| == 1 then s[0].timestamp
    else MaxInt(LatestTimestamp(s[..|s| - 1]), s[|s| - 1].timestamp)
  }

  /** The statistics of a list, computed by counting. */
  function Stats(s: seq<Anomaly>): AnomalyStats
  {
    AnomalyStats(|s|,
      |BySeverity(s, Critical)|, |BySeverity(s, High)|, |BySeverity(s, Medium)|, |BySeverity(s, Low)|,
      |ByType(s, PatternAnomaly)|, |ByType(s, Timing)|, |ByType(s, Volume)|, |ByType(s, Resolution)|,
      |ByType(s, Security)|,
      if |s| > 0 then Some(LatestTimestamp(s)) else None)
  }

  /** Both breakdowns account for every anomaly exactly once. */
  lemma {:induction false} StatsAddUp(s: seq<Anomaly>)
    ensures var st := Stats(s);
      st.critical + st.high + st.medium + st.low == st.total &&
      st.pattern + st.timing + st.volume + st.resolution + st.security == st.total
  {
    if s != [] {
      StatsAddUp(s[..|s| - 1]);
    }
  }

  /** The hook's state for one domain. */
  class AnomalyMonitor {
    const domain: string
    const thresholds: SeverityThresholds
    var anomalies: seq<Anomaly>
    var pattern: Option<Pattern>

    constructor (domain: string, thresholds: SeverityThresholds)
      ensures this.domain == domain && this.thresholds == thresholds
      ensures anomalies == [] && pattern == None
    {
      this.domain := domain;
      this.thresholds := thresholds;
      anomalies := [];
      pattern := None;
    }

    /** `updateAnomalies`: take the store's list and notify about what was not held before. */
    method UpdateAnomalies(store: DnsAnomalyStore) returns (toasts: seq<Notification>)
      modifies this
      ensures anomalies == store.GetAnomalies(domain) && pattern == old(pattern)
      ensures toasts == Notifications(domain, thresholds, NewAnomalies(anomalies, old(anomalies)))
    {
      var current := store.GetAnomalies(domain);
      var unseen := NewAnomalies(current, anomalies);
      anomalies := current;
      toasts := Notifications(domain, thresholds, unseen);
    }

    method UpdatePattern(store: DnsAnomalyStore)
      modifies this
      ensures pattern == store.GetPattern(domain) && anomalies == old(anomalies)
    {
      pattern := store.GetPattern(domain);
    }

    function GetAnomaliesByType(t: AnomalyType): (r: seq<Anomaly>)
      reads this
      ensures r == ByType(anomalies, t)
    {
      ByType(anomalies, t)
    }

    function GetAnomaliesBySeverity(sev: Severity): (r: seq<Anomaly>)
      reads this
      ensures r == BySeverity(anomalies, sev)
    {
      BySeverity(anomalies, sev)
    }

    /** `getAnomalyStats`: one pass over the held anomalies, one counter per severity and type. */
    method GetAnomalyStats() returns (st: AnomalyStats)
      ensures st == Stats(anomalies)
    {
      var c, h, m, l := 0, 0, 0, 0;
      var pa, ti, vo, re, se := 0, 0, 0, 0, 0;
      for i := 0 to |anomalies|
        invariant c == |BySeverity(anomalies[..i], Critical)| && h == |BySeverity(anomalies[..i], High)|
        invariant m == |BySeverity(anomalies[..i], Medium)| && l == |BySeverity(anomalies[..i], Low)|
        invariant pa == |ByType(anomalies[..i], PatternAnomaly)| && ti == |ByType(anomalies[..i], Timing)|
        invariant vo == |ByType(anomalies[..i], Volume)| && re == |ByType(anomalies[..i], Resolution)|
        invariant se == |ByType(anomalies[..i], Security)|
      {
        CountsStep(anomalies, i);
        var a := anomalies[i];
        match a.severity {
          case Critical => c := c + 1;
          case High => h := h + 1;
          case Medium => m := m + 1;
          case Low => l := l + 1;
        }
        match a.atype {
          case PatternAnomaly => pa := pa + 1;
          case Timing => ti := ti + 1;
          case Volume => vo := vo + 1;
          case Resolution => re := re + 1;
          case Security => se := se + 1;
        }
      }
      assert anomalies[..|anomalies|] == anomalies;
      var last := if |anomalies| > 0 then Some(LatestTimestamp(anomalies)) else None;
      st := AnomalyStats(|anomalies|, c, h, m, l, pa, ti, vo, re, se, last);
    }

    /** `clearAnomalies`: the store forgets the domain, and the hook its copies. */
    method ClearAnomalies(store: DnsAnomalyStore)
      modifies this, store
      ensures anomalies == [] && pattern == None
      ensures domain != "" ==>
        store.patterns == old(store.patterns) - {domain} && store.anomalies == old(store.anomalies) - {domain}
      ensures domain == "" ==> store.patterns == map[] && store.anomalies == map[]
    {
      store.ClearData(Some(domain));
      anomalies := [];
      pattern := None;
    }
  }
}
