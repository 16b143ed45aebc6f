// The DNS anomaly detector of src/services/dnsAnomalyDetection.ts: a
// per-domain query pattern (hourly histogram and frequency maps), the
// detectors that read it, and a bounded store of the anomalies found.

module DnsAnomaly {
  import opened Common
  import opened OrderedMaps
  import opened DnsTypes

  const LearningPeriod := 7 * 24 * 60 * 60 * 1000
  const MaxAnomalies := 1000

  /** What the detector reads from the platform: the clock, its hour, and two computations left abstract. */
  datatype DetectorEnv = DetectorEnv(
    now: int,
    hour: int,
    entropy: string -> real,
    numberText: real -> string)

  predicate ValidEnv(env: DetectorEnv) { 0 <= env.hour < 24 }

  // ---------------------------------------------------------------------
  // Patterns

  predicate WellFormedPattern(p: Pattern)
  {
    |p.hourlyDistribution| == 24 &&
    (forall h :: 0 <= h < 24 ==> p.hourlyDistribution[h] >= 0) &&
    Keyed(p.commonRecordTypes) && Keyed(p.commonResponses) && Keyed(p.failureRates)
  }

  /** The pattern `getOrCreatePattern` creates for a domain it has not seen. */
  /** `new Array(24).fill(0)`. */
  const ZeroBuckets: seq<int> := [0, 0, 0, 0, 0, 0, 0, 0, 0, 0, 0, 0, 0, 0, 0, 0, 0, 0, 0, 0, 0, 0, 0, 0]

  const NewPattern := Pattern(ZeroBuckets, 0.0, [], [], [])

  lemma NewPatternIsEmpty()
    ensures WellFormedPattern(NewPattern)
    ensures forall h :: 0 <= h < 24 ==> NewPattern.hourlyDistribution[h] == 0
    ensures forall k :: CountOf(NewPattern.commonResponses, k) == 0 && CountOf(NewPattern.commonRecordTypes, k) == 0
  {
  }

  lemma NewPatternWellFormed()
    ensures WellFormedPattern(NewPattern) && NewPattern.averageQueryRate == 0.0
  {
    NewPatternIsEmpty();
  }

  function ResponseKeys(response: seq<DnsRecord>): (ks: seq<string>)
    ensures |ks| == |response|
    ensures forall i :: 0 <= i < |response| ==> ks[i] == RecordKey(response[i].rtype, response[i].value)
  {
    if response == [] then []
    else
      var last := response[|response| - 1];
      ResponseKeys(response[..|response| - 1]) + [RecordKey(last.rtype, last.value)]
  }

  /** How often `k` occurs in `ks`. */
  function Occurrences(ks: seq<string>, k: string): (n: nat)
    ensures n <= |ks|
  {
    if ks == [] then 0
    else Occurrences(ks[..|ks| - 1], k) + (if ks[|ks| - 1] == k then 1 else 0)
  }

  /** The count map after adding one to the count of each key of `ks` in turn. */
  function CountKeys(m: OMap<string, int>, ks: seq<string>): OMap<string, int>
  {
    if ks == [] then m
    else
      var prev := CountKeys(m, ks[..|ks| - 1]);
      var k := ks[|ks| - 1];
      Put(prev, k, CountOf(prev, k) + 1)
  }

  lemma PutCount(m: OMap<string, int>, k: string, v: int, j: string)
    requires Keyed(m)
    ensures Keyed(Put(m, k, v))
    ensures CountOf(Put(m, k, v), j) == if j == k then v else CountOf(m, j)
    ensures HasKey(Put(m, k, v), j) <==> HasKey(m, j) || j == k
  {
    PutKeyed(m, k, v);
    PutGet(m, k, v, j);
  }

  /** Each key's count grows by exactly its number of occurrences; nothing is decremented. */
  lemma {:induction false} CountKeysCounts(m: OMap<string, int>, ks: seq<string>, j: string)
    requires Keyed(m)
    ensures Keyed(CountKeys(m, ks))
    ensures CountOf(CountKeys(m, ks), j) == CountOf(m, j) + Occurrences(ks, j)
    ensures HasKey(CountKeys(m, ks), j) <==> HasKey(m, j) || j in ks
  {
    if ks != [] {
      var init := ks[..|ks| - 1];
      var k := ks[|ks| - 1];
      CountKeysCounts(m, init, j);
      CountKeysCounts(m, init, k);
      PutCount(CountKeys(m, init), k, CountOf(CountKeys(m, init), k) + 1, j);
      assert ks == init + [k];
      assert j in ks <==> j in init || j == k;
    }
  }

  /** The pattern after `updatePattern`. */
  function Updated(p: Pattern, queryType: string, response: seq<DnsRecord>,
                   metrics: MonitoringMetrics, hour: int): (q: Pattern)
    requires |p.hourlyDistribution| == 24 && 0 <= hour < 24
  {
    Pattern(
      Bumped(p.hourlyDistribution, hour),
      p.averageQueryRate,
      Put(p.commonRecordTypes, queryType, CountOf(p.commonRecordTypes, queryType) + 1),
      CountKeys(p.commonResponses, ResponseKeys(response)),
      if metrics.querySuccessRate < 100.0 then
        Put(p.failureRates, queryType, (RateOf(p.failureRates, queryType) + (100.0 - metrics.querySuccessRate)) / 2.0)
      else p.failureRates)
  }

  /**
   * An update keeps the pattern well formed, adds one to the current hour's
   * bucket only, and never changes the average query rate.
   */
  lemma UpdatedShape(p: Pattern, queryType: string, response: seq<DnsRecord>,
                     metrics: MonitoringMetrics, hour: int)
    requires WellFormedPattern(p) && 0 <= hour < 24
    ensures var q := Updated(p, queryType, response, metrics, hour);
      WellFormedPattern(q) &&
      (forall h :: 0 <= h < 24 ==>
        q.hourlyDistribution[h] == p.hourlyDistribution[h] + (if h == hour then 1 else 0)) &&
      q.averageQueryRate == p.averageQueryRate
  {
    var q := Updated(p, queryType, response, metrics, hour);
    HourBumped(p.hourlyDistribution, hour);
    assert q.hourlyDistribution == Bumped(p.hourlyDistribution, hour);
    CountKeysCounts(p.commonResponses, ResponseKeys(response), queryType);
    PutKeyed(p.commonRecordTypes, queryType, CountOf(p.commonRecordTypes, queryType) + 1);
    PutKeyed(p.failureRates, queryType, (RateOf(p.failureRates, queryType) + (100.0 - metrics.querySuccessRate)) / 2.0);
  }

  lemma UpdatedValid(p: Pattern, queryType: string, response: seq<DnsRecord>,
                      metrics: MonitoringMetrics, hour: int)
    requires WellFormedPattern(p) && 0 <= hour < 24
    ensures WellFormedPattern(Updated(p, queryType, response, metrics, hour))
    ensures Updated(p, queryType, response, metrics, hour).averageQueryRate == p.averageQueryRate
  {
    UpdatedShape(p, queryType, response, metrics, hour);
  }

  /** The histogram with one more query in `hour`. */
  function Bumped(h: seq<int>, hour: int): seq<int>
    requires 0 <= hour < |h|
  {
    h[hour := h[hour] + 1]
  }

  lemma HourBumped(h: seq<int>, hour: int)
    requires |h| == 24 && 0 <= hour < 24
    requires forall i :: 0 <= i < 24 ==> h[i] >= 0
    ensures |Bumped(h, hour)| == 24
    ensures forall i :: 0 <= i < 24 ==> Bumped(h, hour)[i] == h[i] + (if i == hour then 1 else 0) >= 0
  {
  }

  /**
   * What an update does to each count: the query type and every response key
   * go up by their number of occurrences (a record that appears twice in one
   * response counts twice) and every other count is unchanged.
   */
  lemma UpdatedCounts(p: Pattern, queryType: string, response: seq<DnsRecord>,
                      metrics: MonitoringMetrics, hour: int, k: string)
    requires |p.hourlyDistribution| == 24 && 0 <= hour < 24
    requires Keyed(p.commonRecordTypes) && Keyed(p.commonResponses)
    ensures var q := Updated(p, queryType, response, metrics, hour);
      CountOf(q.commonRecordTypes, k) == CountOf(p.commonRecordTypes, k) + (if k == queryType then 1 else 0) &&
      CountOf(q.commonResponses, k) == CountOf(p.commonResponses, k) + Occurrences(ResponseKeys(response), k) &&
      (HasKey(q.commonResponses, k) <==> HasKey(p.commonResponses, k) || k in ResponseKeys(response))
  {
    PutCount(p.commonRecordTypes, queryType, CountOf(p.commonRecordTypes, queryType) + 1, k);
    CountKeysCounts(p.commonResponses, ResponseKeys(response), k);
  }

  /** The query type's failure rate is averaged with the failure percentage when the success rate is below 100. */
  lemma UpdatedFailureRate(p: Pattern, queryType: string, response: seq<DnsRecord>,
                           metrics: MonitoringMetrics, hour: int, k: string)
    requires WellFormedPattern(p) && 0 <= hour < 24
    ensures RateOf(Updated(p, queryType, response, metrics, hour).failureRates, k) ==
      if k == queryType && metrics.querySuccessRate < 100.0
      then (RateOf(p.failureRates, k) + (100.0 - metrics.querySuccessRate)) / 2.0
      else RateOf(p.failureRates, k)
  {
    var q := Updated(p, queryType, response, metrics, hour);
    if metrics.querySuccessRate < 100.0 {
      var v := (RateOf(p.failureRates, queryType) + (100.0 - metrics.querySuccessRate)) / 2.0;
      assert q.failureRates == Put(p.failureRates, queryType, v);
      PutGet(p.failureRates, queryType, v, k);
    } else {
      assert q.failureRates == p.failureRates;
    }
  }

  lemma CountKeysStep(m: OMap<string, int>, ks: seq<string>, i: nat)
    requires i < |ks|
    ensures CountKeys(m, ks[..i + 1]) == Put(CountKeys(m, ks[..i]), ks[i], CountOf(CountKeys(m, ks[..i]), ks[i]) + 1)
  {
    assert ks[..i + 1][..i] == ks[..i];
  }

  /** The response loop of `updatePattern`: one count per record, in order. */
  method CountResponses(m: OMap<string, int>, response: seq<DnsRecord>) returns (counts: OMap<string, int>)
    ensures counts == CountKeys(m, ResponseKeys(response))
  {
    counts := m;
    var keys := ResponseKeys(response);
    for i := 0 to |response|
      invariant counts == CountKeys(m, keys[..i])
    {
      var key := RecordKey(response[i].rtype, response[i].value);
      assert key == keys[i];
      CountKeysStep(m, keys, i);
      counts := Put(counts, key, CountOf(counts, key) + 1);
    }
    assert keys[..|response|] == keys;
  }

  /** `updatePattern`: the histogram and the maps are bumped in place. */
  method UpdatePattern(p: Pattern, queryType: string, response: seq<DnsRecord>,
                       metrics: MonitoringMetrics, hour: int) returns (q: Pattern)
    requires WellFormedPattern(p) && 0 <= hour < 24
    ensures q == Updated(p, queryType, response, metrics, hour)
  {
    var hourly := p.hourlyDistribution[hour := p.hourlyDistribution[hour] + 1];
    assert hourly == Bumped(p.hourlyDistribution, hour);
    var types := Put(p.commonRecordTypes, queryType, CountOf(p.commonRecordTypes, queryType) + 1);
    var responses := CountResponses(p.commonResponses, response);
    var failures := p.failureRates;
    if metrics.querySuccessRate < 100.0 {
      var current := RateOf(failures, queryType);
      failures := Put(failures, queryType, (current + (100.0 - metrics.querySuccessRate)) / 2.0);
    }
    q := Pattern(hourly, p.averageQueryRate, types, responses, failures);
  }

  // ---------------------------------------------------------------------
  // Detectors

  function AbsReal(x: real): real { if x < 0.0 then -x else x }

  /**
   * `detectTimingAnomaly`: the response time against the "mean" plus three
   * "standard deviations", where the deviation is the distance of this one
   * response time from the mean.
   */
  predicate DetectTimingAnomaly(metrics: MonitoringMetrics, p: Pattern)
  {
    metrics.responseTime > p.averageQueryRate + 3.0 * AbsReal(metrics.responseTime - p.averageQueryRate)
  }

  /** No response time exceeds that threshold, whatever the mean. */
  lemma TimingNeverFires(metrics: MonitoringMetrics, p: Pattern)
    ensures !DetectTimingAnomaly(metrics, p)
  {
  }

  /** `detectVolumeAnomaly`: the bucket against a seventh of itself, tripled. */
  predicate DetectVolumeAnomaly(p: Pattern, hour: int)
    requires 0 <= hour < |p.hourlyDistribution|
  {
    var current := p.hourlyDistribution[hour] as real;
    var hourlyMean := current / (LearningPeriod / (24 * 60 * 60 * 1000)) as real;
    current > hourlyMean * (1.0 + 2.0)
  }

  lemma VolumeFiresIffBucketPositive(p: Pattern, hour: int)
    requires 0 <= hour < |p.hourlyDistribution|
    ensures DetectVolumeAnomaly(p, hour) <==> p.hourlyDistribution[hour] > 0
  {
    assert LearningPeriod / (24 * 60 * 60 * 1000) == 7;
  }

  function SumCounts(vs: seq<int>): int
  {
    if vs == [] then 0 else SumCounts(vs[..|vs| - 1]) + vs[|vs| - 1]
  }

  function TotalResponses(p: Pattern): int
  {
    SumCounts(Values(p.commonResponses))
  }

  /** A record's key is rare when it makes up less than 30% of all recorded responses. */
  predicate IsRare(r: DnsRecord, p: Pattern)
  {
    var total := TotalResponses(p);
    total > 0 && (CountOf(p.commonResponses, RecordKey(r.rtype, r.value)) as real) / (total as real) < 0.3
  }

  function RareCount(response: seq<DnsRecord>, p: Pattern): (n: nat)
    ensures n <= |response|
  {
    if response == [] then 0
    else RareCount(response[..|response| - 1], p) + (if IsRare(response[|response| - 1], p) then 1 else 0)
  }

  /** `detectResolutionAnomaly`: more than 30% of the records are rare. */
  predicate DetectResolutionAnomaly(response: seq<DnsRecord>, p: Pattern)
  {
    |response| > 0 && (RareCount(response, p) as real) / (|response| as real) > 0.3
  }

  lemma {:induction false} NoRareRecords(response: seq<DnsRecord>, p: Pattern)
    requires forall i :: 0 <= i < |response| ==> !IsRare(response[i], p)
    ensures RareCount(response, p) == 0
  {
    if response != [] {
      NoRareRecords(response[..|response| - 1], p);
    }
  }

  /**
   * Without any recorded response nothing is rare, and a response whose
   * every record is common is never anomalous.
   */
  lemma ResolutionNeedsRareRecords(response: seq<DnsRecord>, p: Pattern)
    requires TotalResponses(p) == 0 || forall i :: 0 <= i < |response| ==> !IsRare(response[i], p)
    ensures !DetectResolutionAnomaly(response, p)
  {
    NoRareRecords(response, p);
  }

  /** Any record that is rare alone in a one-record response makes it anomalous. */
  lemma SingleRareRecordIsAnomalous(r: DnsRecord, p: Pattern)
    requires IsRare(r, p)
    ensures DetectResolutionAnomaly([r], p)
  {
    assert [r][..0] == [];
  }

  predicate HasLongLabel(value: string)
  {
    var parts := Split(value, '.');
    exists i :: 0 <= i < |parts| && |parts[i]| > 30
  }

  /** The three tunnelling indicators of one record. */
  predicate IsSuspicious(r: DnsRecord, entropy: string -> real)
  {
    |r.value| > 200 || entropy(r.value) > 4.5 || (r.rtype == A && HasLongLabel(r.value))
  }

  function Suspicious(response: seq<DnsRecord>, entropy: string -> real): (s: seq<DnsRecord>)
    ensures |s| <= |response|
    ensures forall i :: 0 <= i < |s| ==> s[i] in response && IsSuspicious(s[i], entropy)
    ensures forall i :: 0 <= i < |response| && IsSuspicious(response[i], entropy) ==> response[i] in s
  {
    if response == [] then []
    else
      var rest := Suspicious(response[1..], entropy);
      if IsSuspicious(response[0], entropy) then [response[0]] + rest else rest
  }

  /** `detectDNSTunneling`: the list of suspicious records is not empty. */
  predicate DetectDnsTunneling(response: seq<DnsRecord>, entropy: string -> real)
  {
    |Suspicious(response, entropy)| > 0
  }

  lemma TunnelingIffSomeSuspicious(response: seq<DnsRecord>, entropy: string -> real)
    ensures DetectDnsTunneling(response, entropy) <==>
      exists i :: 0 <= i < |response| && IsSuspicious(response[i], entropy)
  {
    if DetectDnsTunneling(response, entropy) {
      var s := Suspicious(response, entropy);
      var i :| 0 <= i < |response| && response[i] == s[0];
      assert IsSuspicious(response[i], entropy);
    }
  }

  function TotalLength(response: seq<DnsRecord>): (n: nat)
  {
    if response == [] then 0 else TotalLength(response[..|response| - 1]) + |response[|response| - 1].value|
  }

  /** `detectDNSAmplification`: the values together are longer than 512 characters. */
  predicate DetectDnsAmplification(response: seq<DnsRecord>)
  {
    TotalLength(response) > 512
  }

  lemma {:induction false} TotalLengthAppend(a: seq<DnsRecord>, b: seq<DnsRecord>)
    ensures TotalLength(a + b) == TotalLength(a) + TotalLength(b)
  {
    if b != [] {
      assert (a + b)[..|a + b| - 1] == a + b[..|b| - 1];
      TotalLengthAppend(a, b[..|b| - 1]);
    } else {
      assert a + b == a;
    }
  }

  /** More records never clear the amplification flag. */
  lemma AmplificationMonotone(a: seq<DnsRecord>, b: seq<DnsRecord>)
    ensures DetectDnsAmplification(a) ==> DetectDnsAmplification(a + b)
    ensures DetectDnsAmplification(b) ==> DetectDnsAmplification(a + b)
  {
    TotalLengthAppend(a, b);
  }

  /** `detectCachePoisoning`: some record's key has never been counted for the domain. */
  predicate DetectCachePoisoning(pattern: Option<Pattern>, response: seq<DnsRecord>)
  {
    pattern.Some? &&
    exists i :: 0 <= i < |response| && !HasKey(pattern.value.commonResponses, RecordKey(response[i].rtype, response[i].value))
  }

  /** Once the response has been counted into the pattern, poisoning cannot be detected. */
  lemma PoisoningNeverFiresAfterUpdate(p: Pattern, queryType: string, response: seq<DnsRecord>,
                                       metrics: MonitoringMetrics, hour: int)
    requires WellFormedPattern(p) && 0 <= hour < 24
    ensures !DetectCachePoisoning(Some(Updated(p, queryType, response, metrics, hour)), response)
  {
    var q := Updated(p, queryType, response, metrics, hour);
    forall i | 0 <= i < |response|
      ensures HasKey(q.commonResponses, RecordKey(response[i].rtype, response[i].value))
    {
      var k := RecordKey(response[i].rtype, response[i].value);
      assert ResponseKeys(response)[i] == k;
      UpdatedCounts(p, queryType, response, metrics, hour, k);
    }
  }

  // ---------------------------------------------------------------------
  // Assembling the findings of one query

  const TunnelingDescription := "Possible DNS tunneling detected"
  const AmplificationDescription := "Possible DNS amplification attack"
  const PoisoningDescription := "Possible DNS cache poisoning attempt"

  function SecurityAnomalies(domain: string, response: seq<DnsRecord>, pattern: Option<Pattern>,
                             env: DetectorEnv): (r: seq<Anomaly>)
    ensures forall i :: 0 <= i < |r| ==>
      r[i].atype == Security && r[i].severity == Critical &&
      r[i].affectedDomain == domain && r[i].timestamp == env.now
    ensures forall i :: 0 <= i < |r| && r[i].description == PoisoningDescription ==>
      DetectCachePoisoning(pattern, response)
  {
    (if DetectDnsTunneling(response, env.entropy)
     then [Anomaly(Security, Critical, TunnelingDescription, env.now, domain,
                   ["Unusual record content length", "High entropy in record values"])]
     else []) +
    (if DetectDnsAmplification(response)
     then [Anomaly(Security, Critical, AmplificationDescription, env.now, domain,
                   ["Large response size", "ANY query type"])]
     else []) +
    (if DetectCachePoisoning(pattern, response)
     then [Anomaly(Security, Critical, PoisoningDescription, env.now, domain,
                   ["Unexpected record changes", "Multiple conflicting responses"])]
     else [])
  }

  /** The anomalies `analyzeQuery` reports, given the already updated pattern. */
  function Findings(domain: string, p: Pattern, response: seq<DnsRecord>,
                    metrics: MonitoringMetrics, env: DetectorEnv): seq<Anomaly>
    requires ValidEnv(env) && |p.hourlyDistribution| == 24
  {
    (if DetectTimingAnomaly(metrics, p)
     then [Anomaly(Timing, Medium, "Unusual DNS response time detected", env.now, domain,
                   ["Response time: " + env.numberText(metrics.responseTime) + "ms"])]
     else []) +
    (if DetectVolumeAnomaly(p, env.hour)
     then [Anomaly(Volume, High, "Unusual query volume detected", env.now, domain,
                   ["Query rate significantly above normal"])]
     else []) +
    (if DetectResolutionAnomaly(response, p)
     then [Anomaly(Resolution, High, "Unusual DNS resolution pattern detected", env.now, domain,
                   ["Resolution pattern deviates from historical data"])]
     else []) +
    SecurityAnomalies(domain, response, Some(p), env)
  }

  /**
   * Every analysed query reports a volume anomaly first, and never a timing
   * or a cache-poisoning anomaly; all findings carry the query's domain and time.
   */
  lemma FindingsOfAnalyzedQuery(domain: string, p: Pattern, queryType: string, response: seq<DnsRecord>,
                                metrics: MonitoringMetrics, env: DetectorEnv)
    requires WellFormedPattern(p) && ValidEnv(env)
    ensures var q := Updated(p, queryType, response, metrics, env.hour);
      var f := Findings(domain, q, response, metrics, env);
      |f| >= 1 && f[0].atype == Volume && f[0].severity == High &&
      (forall i :: 0 <= i < |f| ==>
         f[i].atype != Timing && f[i].description != PoisoningDescription &&
         f[i].affectedDomain == domain && f[i].timestamp == env.now)
  {
    var q := Updated(p, queryType, response, metrics, env.hour);
    UpdatedShape(p, queryType, response, metrics, env.hour);
    TimingNeverFires(metrics, q);
    VolumeFiresIffBucketPositive(q, env.hour);
    PoisoningNeverFiresAfterUpdate(p, queryType, response, metrics, env.hour);
    FindingsShape(domain, q, response, metrics, env);
  }

  lemma FindingsShape(domain: string, q: Pattern, response: seq<DnsRecord>,
                      metrics: MonitoringMetrics, env: DetectorEnv)
    requires ValidEnv(env) && |q.hourlyDistribution| == 24
    requires !DetectTimingAnomaly(metrics, q) && DetectVolumeAnomaly(q, env.hour)
    requires !DetectCachePoisoning(Some(q), response)
    ensures var f := Findings(domain, q, response, metrics, env);
      |f| >= 1 && f[0].atype == Volume && f[0].severity == High &&
      (forall i :: 0 <= i < |f| ==>
         f[i].atype != Timing && f[i].description != PoisoningDescription &&
         f[i].affectedDomain == domain && f[i].timestamp == env.now)
  {
    var sec := SecurityAnomalies(domain, response, Some(q), env);
    var vol := Anomaly(Volume, High, "Unusual query volume detected", env.now, domain,
                       ["Query rate significantly above normal"]);
    var res := if DetectResolutionAnomaly(response, q)
      then [Anomaly(Resolution, High, "Unusual DNS resolution pattern detected", env.now, domain,
                    ["Resolution pattern deviates from historical data"])]
      else [];
    assert Findings(domain, q, response, metrics, env) == [] + [vol] + res + sec;
  }

  // ---------------------------------------------------------------------
  // The anomaly store

  predicate NewestFirst(s: seq<Anomaly>)
  {
    forall i, j :: 0 <= i < j < |s| ==> s[i].timestamp >= s[j].timestamp
  }

  /** Places `x` before the first element that is not newer than it. */
  function InsertNewestFirst(x: Anomaly, s: seq<Anomaly>): (r: seq<Anomaly>)
    ensures |r| == |s| + 1
    ensures multiset(r) == multiset(s) + multiset{x}
  {
    if s == [] || x.timestamp >= s[0].timestamp then [x] + s
    else
      var rest := InsertNewestFirst(x, s[1..]);
      assert s == [s[0]] + s[1..];
      [s[0]] + rest
  }

  /** Every element of the result is `x` or an element of `s`. */
  lemma InsertedFrom(x: Anomaly, s: seq<Anomaly>, i: nat)
    requires i < |InsertNewestFirst(x, s)|
    ensures InsertNewestFirst(x, s)[i] == x || InsertNewestFirst(x, s)[i] in s
  {
    var r := InsertNewestFirst(x, s);
    assert r[i] in multiset(r);
  }

  lemma {:induction false} InsertKeepsNewestFirst(x: Anomaly, s: seq<Anomaly>)
    requires NewestFirst(s)
    ensures NewestFirst(InsertNewestFirst(x, s))
  {
    if !(s == [] || x.timestamp >= s[0].timestamp) {
      InsertKeepsNewestFirst(x, s[1..]);
      var rest := InsertNewestFirst(x, s[1..]);
      forall i | 0 <= i < |rest| ensures s[0].timestamp >= rest[i].timestamp {
        InsertedFrom(x, s[1..], i);
        if rest[i] != x {
          var j :| 0 <= j < |s[1..]| && s[1..][j] == rest[i];
          assert s[j + 1] == rest[i];
        }
      }
    }
  }

  /** `sort((a, b) => b.timestamp - a.timestamp)`, a stable sort. */
  function SortNewestFirst(s: seq<Anomaly>): (r: seq<Anomaly>)
    ensures multiset(r) == multiset(s)
    ensures NewestFirst(r)
  {
    if s == [] then []
    else
      assert s == [s[0]] + s[1..];
      InsertKeepsNewestFirst(s[0], SortNewestFirst(s[1..]));
      InsertNewestFirst(s[0], SortNewestFirst(s[1..]))
  }

  /** The list `storeAnomalies` keeps: everything, newest first, cut at 1000. */
  function Stored(existing: seq<Anomaly>, found: seq<Anomaly>): (r: seq<Anomaly>)
    ensures |r| <= MaxAnomalies
    ensures NewestFirst(r)
    ensures multiset(r) <= multiset(existing + found)
    ensures |existing + found| <= MaxAnomalies ==> multiset(r) == multiset(existing + found)
  {
    var sorted := SortNewestFirst(existing + found);
    var r := sorted[..MinInt(MaxAnomalies, |sorted|)];
    NewestFirstPrefix(sorted, |r|);
    r
  }

  /** A prefix of a newest-first list is newest first and takes nothing the list lacks. */
  lemma NewestFirstPrefix(s: seq<Anomaly>, n: nat)
    requires NewestFirst(s) && n <= |s|
    ensures NewestFirst(s[..n])
    ensures multiset(s[..n]) <= multiset(s)
    ensures n == |s| ==> s[..n] == s
  {
    assert s == s[..n] + s[n..];
  }

  /** Whatever a full store drops is no newer than anything it keeps. */
  lemma StoredKeepsTheNewest(existing: seq<Anomaly>, found: seq<Anomaly>, x: Anomaly)
    requires x in existing + found && x !in Stored(existing, found)
    ensures |Stored(existing, found)| == MaxAnomalies
    ensures forall i :: 0 <= i < MaxAnomalies ==> Stored(existing, found)[i].timestamp >= x.timestamp
  {
    var sorted := SortNewestFirst(existing + found);
    assert x in multiset(sorted);
    var j :| 0 <= j < |sorted| && sorted[j] == x;
  }

  /** The anomalies of one domain that are newer than `cutoff`, in order. */
  function KeptAfter(s: seq<Anomaly>, cutoff: int): (r: seq<Anomaly>)
    ensures |r| <= |s|
  {
    if s == [] then []
    else
      var rest := KeptAfter(s[1..], cutoff);
      if s[0].timestamp > cutoff then [s[0]] + rest else rest
  }

  /** Exactly the anomalies newer than the cutoff are kept. */
  lemma {:induction false} KeptAfterMembers(s: seq<Anomaly>, cutoff: int, x: Anomaly)
    ensures x in KeptAfter(s, cutoff) <==> x in s && x.timestamp > cutoff
  {
    if s != [] {
      KeptAfterMembers(s[1..], cutoff, x);
      assert x in s <==> x == s[0] || x in s[1..];
    }
  }

  lemma HeadIsNewest(s: seq<Anomaly>, x: Anomaly)
    requires NewestFirst(s) && |s| >= 1 && x in s[1..]
    ensures s[0].timestamp >= x.timestamp
  {
    var j :| 0 <= j < |s[1..]| && s[1..][j] == x;
    assert s[j + 1] == x;
  }

  lemma {:induction false} KeptAfterNewestFirst(s: seq<Anomaly>, cutoff: int)
    requires NewestFirst(s)
    ensures NewestFirst(KeptAfter(s, cutoff))
  {
    if s != [] {
      KeptAfterNewestFirst(s[1..], cutoff);
      var rest := KeptAfter(s[1..], cutoff);
      if s[0].timestamp > cutoff {
        var r := [s[0]] + rest;
        forall i, j | 0 <= i < j < |r| ensures r[i].timestamp >= r[j].timestamp {
          if i == 0 {
            KeptAfterMembers(s[1..], cutoff, rest[j - 1]);
            HeadIsNewest(s, rest[j - 1]);
          } else {
            assert r[i] == rest[i - 1] && r[j] == rest[j - 1];
          }
        }
      }
    }
  }

  /** `cleanupOldAnomalies`: old anomalies go, and so do the domains left with none. */
  function Cleaned(m: map<string, seq<Anomaly>>, cutoff: int): (r: map<string, seq<Anomaly>>)
    ensures forall d :: d in r <==> d in m && KeptAfter(m[d], cutoff) != []
    ensures forall d :: d in r ==> r[d] == KeptAfter(m[d], cutoff)
  {
    map d | d in m && KeptAfter(m[d], cutoff) != [] :: KeptAfter(m[d], cutoff)
  }

  /** The map part-way through the sweep, with the domains of `todo` not yet visited. */
  ghost function PartlyCleaned(m: map<string, seq<Anomaly>>, todo: set<string>, cutoff: int): map<string, seq<Anomaly>>
  {
    map d | d in m && (d in todo || KeptAfter(m[d], cutoff) != []) ::
      if d in todo then m[d] else KeptAfter(m[d], cutoff)
  }

  /** The sweep over a domain map, shared by both detector services. */
  method Sweep(m: map<string, seq<Anomaly>>, cutoff: int) returns (r: map<string, seq<Anomaly>>)
    ensures r == Cleaned(m, cutoff)
  {
    r := m;
    var todo := m.Keys;
    while todo != {}
      invariant todo <= m.Keys
      invariant r == PartlyCleaned(m, todo, cutoff)
      decreases |todo|
    {
      var d :| d in todo;
      var kept := KeptAfter(r[d], cutoff);
      if kept == [] {
        r := r - {d};
      } else {
        r := r[d := kept];
      }
      todo := todo - {d};
    }
  }

  /** Every pattern is well formed and keeps a zero average query rate. */
  ghost predicate PatternsValid(ps: map<string, Pattern>)
  {
    forall d :: d in ps ==> WellFormedPattern(ps[d]) && ps[d].averageQueryRate == 0.0
  }

  /** Every stored list is newest first and within the cap. */
  ghost predicate AnomaliesValid(a: map<string, seq<Anomaly>>)
  {
    forall d :: d in a ==> |a[d]| <= MaxAnomalies && NewestFirst(a[d])
  }

  lemma PatternsValidPut(ps: map<string, Pattern>, d: string, p: Pattern)
    requires PatternsValid(ps) && WellFormedPattern(p) && p.averageQueryRate == 0.0
    ensures PatternsValid(ps[d := p])
  {
  }

  /** The pattern kept for a domain, or the new one `getOrCreatePattern` would create. */
  function PatternOf(ps: map<string, Pattern>, domain: string): Pattern
  {
    if domain in ps then ps[domain] else NewPattern
  }

  /** The service, with the two per-domain maps it owns. */
  class DnsAnomalyDetectionService {
    var patterns: map<string, Pattern>
    var anomalies: map<string, seq<Anomaly>>

    /**
     * The patterns are well formed and keep a zero average query rate, and
     * each stored list is newest first and within the cap.
     */
    ghost predicate Valid()
      reads this
    {
      PatternsValid(patterns) && AnomaliesValid(anomalies)
    }

    constructor ()
      ensures Valid() && patterns == map[] && anomalies == map[]
    {
      patterns := map[];
      anomalies := map[];
    }

    function PatternOrNew(domain: string): Pattern
      reads this`patterns
    {
      if domain in patterns then patterns[domain] else NewPattern
    }

    method GetOrCreatePattern(domain: string) returns (p: Pattern)
      requires Valid()
      modifies this
      ensures Valid()
      ensures p == old(PatternOrNew(domain))
      ensures patterns == old(patterns)[domain := p] && anomalies == old(anomalies)
    {
      if domain !in patterns {
        NewPatternIsEmpty();
        patterns := patterns[domain := NewPattern];
      }
      p := patterns[domain];
    }

    method StoreAnomalies(domain: string, found: seq<Anomaly>)
      requires Valid()
      modifies this
      ensures Valid()
      ensures anomalies == old(anomalies)[domain := Stored(old(GetAnomalies(domain)), found)]
      ensures patterns == old(patterns)
    {
      var existing := GetAnomalies(domain);
      anomalies := anomalies[domain := Stored(existing, found)];
    }

    /** The first half of `analyzeQuery`: the domain's pattern, created if need be, is updated in place. */
    method LearnQuery(domain: string, queryType: string, response: seq<DnsRecord>,
                      metrics: MonitoringMetrics, hour: int) returns (updated: Pattern)
      requires Valid() && 0 <= hour < 24
      modifies this
      ensures Valid()
      ensures WellFormedPattern(old(PatternOrNew(domain)))
      ensures updated == Updated(old(PatternOrNew(domain)), queryType, response, metrics, hour)
      ensures patterns == old(patterns)[domain := updated] && anomalies == old(anomalies)
    {
      ghost var before := patterns;
      NewPatternWellFormed();
      ghost var start := PatternOrNew(domain);
      assert WellFormedPattern(start) && start.averageQueryRate == 0.0;
      var pattern := GetOrCreatePattern(domain);
      assert pattern == start;
      updated := UpdatePattern(pattern, queryType, response, metrics, hour);
      UpdatedValid(pattern, queryType, response, metrics, hour);
      PatternsValidPut(before, domain, updated);
      patterns := patterns[domain := updated];
      assert patterns == before[domain := updated];
    }

    /**
     * `analyzeQuery`: update the domain's pattern, run the detectors on the
     * updated pattern, store and return what they found.
     */
    method AnalyzeQuery(domain: string, queryType: string, response: seq<DnsRecord>,
                        metrics: MonitoringMetrics, env: DetectorEnv) returns (found: seq<Anomaly>)
      requires Valid() && ValidEnv(env)
      modifies this
      ensures Valid()
      ensures var q := Updated(old(PatternOrNew(domain)), queryType, response, metrics, env.hour);
        patterns == old(patterns)[domain := q] &&
        found == Findings(domain, q, response, metrics, env) &&
        anomalies == old(anomalies)[domain := Stored(old(GetAnomalies(domain)), found)]
      ensures |found| >= 1 && found[0].atype == Volume
      ensures forall i :: 0 <= i < |found| ==> found[i].atype != Timing && found[i].description != PoisoningDescription
    {
      ghost var existing, pattern := GetAnomalies(domain), PatternOrNew(domain);
      var updated := LearnQuery(domain, queryType, response, metrics, env.hour);
      FindingsOfAnalyzedQuery(domain, pattern, queryType, response, metrics, env);
      found := Findings(domain, updated, response, metrics, env);
      assert GetAnomalies(domain) == existing;
      StoreAnomalies(domain, found);
    }

    method CleanupOldAnomalies(now: int)
      requires Valid()
      modifies this
      ensures Valid()
      ensures anomalies == Cleaned(old(anomalies), now - LearningPeriod) && patterns == old(patterns)
    {
      anomalies := Sweep(anomalies, now - LearningPeriod);
      forall d | d in anomalies
        ensures |anomalies[d]| <= MaxAnomalies && NewestFirst(anomalies[d])
      {
        KeptAfterNewestFirst(old(anomalies)[d], now - LearningPeriod);
      }
    }

    function GetAnomalies(domain: string): (r: seq<Anomaly>)
      reads this`anomalies
      ensures domain !in anomalies ==> r == []
      ensures domain in anomalies ==> r == anomalies[domain]
    {
      if domain in anomalies then anomalies[domain] else []
    }

    function GetPattern(domain: string): (r: Option<Pattern>)
      reads this`patterns
      ensures r.None? <==> domain !in patterns
      ensures r.Some? ==> r.value == patterns[domain]
    {
      if domain in patterns then Some(patterns[domain]) else None
    }

    /** `clearData(domain)`; an absent or empty domain name clears everything. */
    method ClearData(domain: Option<string>)
      requires Valid()
      modifies this
      ensures Valid()
      ensures domain.Some? && domain.value != "" ==>
        patterns == old(patterns) - {domain.value} && anomalies == old(anomalies) - {domain.value}
      ensures !(domain.Some? && domain.value != "") ==> patterns == map[] && anomalies == map[]
    {
      if domain.Some? && domain.value != "" {
        patterns := patterns - {domain.value};
        anomalies := anomalies - {domain.value};
      } else {
        patterns := map[];
        anomalies := map[];
      }
    }
  }
}
