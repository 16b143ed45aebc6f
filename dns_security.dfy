// The in-memory parts of src/services/dnsSecurityService.ts: the record
// type codes, the DNS-over-HTTPS answer parser, the resolver health
// classification, the per-domain metrics history, the recommendation list,
// and the cache-then-retry control of `queryDNS`. Every network exchange is
// an input: `fetch` gives the outcome of each attempt.

module DnsSecurity {
  import opened Common
  import opened OrderedMaps
  import opened DnsTypes
  import opened DnsCache
  import opened DnsAnomaly

  // ---------------------------------------------------------------------
  // Record type codes

  /** `DNS_RECORD_TYPES`: the numeric TYPE value of each record type. */
  function TypeCode(t: RecordType): int
  {
    match t
    case A => 1
    case AAAA => 28
    case MX => 15
    case TXT => 16
    case NS => 2
    case CNAME => 5
    case SOA => 6
    case CAA => 257
    case DNSKEY => 48
    case DS => 43
    case PTR => 12
    case AXFR => 252
  }

  /** The entries of `DNS_RECORD_TYPES` in declaration order, as `Object.entries` lists them. */
  const TypeTable: seq<RecordType> := [A, AAAA, MX, TXT, NS, CNAME, SOA, CAA, DNSKEY, DS, PTR, AXFR]

  lemma TypeTableComplete(t: RecordType)
    ensures t in TypeTable
  {
  }

  /** No two record types share a code. */
  lemma TypeCodeInjective(t: RecordType, u: RecordType)
    ensures TypeCode(t) == TypeCode(u) <==> t == u
  {
  }

  /** `types.find(([_, value]) => value === code)`. */
  function FindType(entries: seq<RecordType>, code: int): (r: Option<RecordType>)
    ensures r.Some? ==> r.value in entries && TypeCode(r.value) == code
    ensures r.None? ==> forall t :: t in entries ==> TypeCode(t) != code
  {
    if entries == [] then None
    else if TypeCode(entries[0]) == code then Some(entries[0])
    else FindType(entries[1..], code)
  }

  /** `getRecordType`: the type whose code is `code`, and `A` for any other code. */
  function GetRecordType(code: int): (t: RecordType)
    ensures (exists u :: TypeCode(u) == code) ==> TypeCode(t) == code
    ensures (forall u :: TypeCode(u) != code) ==> t == A
  {
    var found := FindType(TypeTable, code);
    if found.None? then
      assert forall u :: TypeCode(u) != code by {
        forall u ensures TypeCode(u) != code {
          TypeTableComplete(u);
        }
      }
      A
    else found.value
  }

  /** Decoding a type's own code gives the type back. */
  lemma GetRecordTypeOfCode(t: RecordType)
    ensures GetRecordType(TypeCode(t)) == t
  {
    TypeCodeInjective(GetRecordType(TypeCode(t)), t);
  }

  /** The ANY query type (255) and the CAA-adjacent 256 both read as `A`. */
  lemma UnknownCodesReadAsA()
    ensures GetRecordType(255) == A && GetRecordType(256) == A && GetRecordType(0) == A
  {
  }

  // ---------------------------------------------------------------------
  // DNS-over-HTTPS answers

  /** One entry of the JSON `Answer` array: `type`, `data` and `TTL`. */
  datatype DohAnswer = DohAnswer(code: int, data: string, ttl: int)

  /** The JSON body: `Answer` (absent or present) and the `TC` flag, read as `data.TC || false`. */
  datatype DohResponse = DohResponse(answer: Option<seq<DohAnswer>>, truncated: bool)

  function ToRecord(a: DohAnswer): DnsRecord
  {
    DnsRecord(GetRecordType(a.code), a.data, a.ttl)
  }

  function ParseAnswers(answers: seq<DohAnswer>): (r: seq<DnsRecord>)
    ensures |r| == |answers|
    ensures forall i :: 0 <= i < |r| ==> r[i] == ToRecord(answers[i])
  {
    if answers == [] then [] else [ToRecord(answers[0])] + ParseAnswers(answers[1..])
  }

  /** `parseDNSResponse`: no records without an `Answer`, else one record per answer, in order. */
  function ParseDnsResponse(resp: DohResponse): (r: seq<DnsRecord>)
    ensures resp.answer.None? ==> r == []
    ensures resp.answer.Some? ==> |r| == |resp.answer.value|
    ensures resp.answer.Some? ==> forall i :: 0 <= i < |r| ==>
      r[i].rtype == GetRecordType(resp.answer.value[i].code) &&
      r[i].value == resp.answer.value[i].data && r[i].ttl == resp.answer.value[i].ttl
  {
    if resp.answer.None? then [] else ParseAnswers(resp.answer.value)
  }

  /** The answer a resolver sends for a record. */
  function Encode(rs: seq<DnsRecord>): (r: seq<DohAnswer>)
    ensures |r| == |rs|
    ensures forall i :: 0 <= i < |rs| ==> r[i] == DohAnswer(TypeCode(rs[i].rtype), rs[i].value, rs[i].ttl)
  {
    if rs == [] then [] else [DohAnswer(TypeCode(rs[0].rtype), rs[0].value, rs[0].ttl)] + Encode(rs[1..])
  }

  /** Parsing an answer list that encodes some records gives back exactly those records. */
  lemma ParseEncoded(rs: seq<DnsRecord>, truncated: bool)
    ensures ParseDnsResponse(DohResponse(Some(Encode(rs)), truncated)) == rs
  {
    var r := ParseDnsResponse(DohResponse(Some(Encode(rs)), truncated));
    forall i | 0 <= i < |rs| ensures r[i] == rs[i] {
      GetRecordTypeOfCode(rs[i].rtype);
    }
  }

  // ---------------------------------------------------------------------
  // Resolver health

  /** The four resolvers `measureDNSMetrics` queries. */
  const CheckEndpoints: seq<string> := ["8.8.8.8", "1.1.1.1", "9.9.9.9", "208.67.222.222"]

  /** The success-rate ladder. */
  function ResolverHealthOf(rate: real): ResolverHealth
  {
    if rate < 50.0 then Poor else if rate < 80.0 then Degraded else Good
  }

  function HealthRank(h: ResolverHealth): int
  {
    match h
    case Good => 0
    case Degraded => 1
    case Poor => 2
  }

  /** A higher success rate never gives a worse health. */
  lemma HealthMonotone(rate: real, rate': real)
    requires rate <= rate'
    ensures HealthRank(ResolverHealthOf(rate')) <= HealthRank(ResolverHealthOf(rate))
  {
  }

  /**
   * The metrics `measureDNSMetrics` computes from the number of probes that
   * answered, with the elapsed time and the clock as inputs. With four probes
   * one success or none is poor, two or three degraded, all four good.
   */
  function MeasureDnsMetrics(successes: nat, responseTime: real, now: int): (m: MonitoringMetrics)
    requires successes <= |CheckEndpoints|
    ensures m.querySuccessRate == 25.0 * successes as real
    ensures 0.0 <= m.querySuccessRate <= 100.0
    ensures m.resolverHealth == Poor <==> successes <= 1
    ensures m.resolverHealth == Degraded <==> 2 <= successes <= 3
    ensures m.resolverHealth == Good <==> successes == 4
    ensures m.responseTime == responseTime && m.lastChecked == now
  {
    var rate := (successes as real / |CheckEndpoints| as real) * 100.0;
    MonitoringMetrics(responseTime, rate, now, ResolverHealthOf(rate))
  }

  /** The answer of `getDNSMetrics`; `lastChecked` is `null` without a measurement. */
  datatype MetricsView = MetricsView(
    responseTime: real,
    querySuccessRate: real,
    resolverHealth: ResolverHealth,
    lastChecked: Option<int>)

  const NoMetrics := MetricsView(0.0, 100.0, Good, None)

  const MaxMetricsHistory := 100

  function LatestView(h: seq<MonitoringMetrics>): (v: MetricsView)
    ensures h == [] ==> v == NoMetrics
    ensures h != [] ==> v == MetricsView(h[|h| - 1].responseTime, h[|h| - 1].querySuccessRate,
                                         h[|h| - 1].resolverHealth, Some(h[|h| - 1].lastChecked))
  {
    if h == [] then NoMetrics
    else
      var m := h[|h| - 1];
      MetricsView(m.responseTime, m.querySuccessRate, m.resolverHealth, Some(m.lastChecked))
  }

  // ---------------------------------------------------------------------
  // Recommendations

  datatype Vulnerability = Vulnerability(vtype: string, severity: Severity, description: string)

  datatype SecurityInfo = SecurityInfo(
    hasDnssec: bool,
    hasCaa: bool,
    hasSpf: bool,
    hasDmarc: bool,
    hasValidMxRecords: bool,
    hasNameserverRedundancy: bool,
    vulnerabilities: seq<Vulnerability>)

  const DnssecAdvice := "Enable DNSSEC to prevent DNS spoofing attacks"
  const CaaAdvice := "Add CAA records to control which CAs can issue certificates"
  const SpfAdvice := "Implement SPF records to prevent email spoofing"
  const DmarcAdvice := "Configure DMARC policy to enhance email security"
  const MxAdvice := "Review and update MX records for proper email routing"
  const NameserverAdvice := "Add redundant nameservers for improved reliability"
  const ResolverAdvice := "DNS resolution performance issues detected - consider using redundant DNS providers"
  const SuccessRateAdvice := "DNS query success rate is low - investigate potential DNS infrastructure issues"

  /** `severity.toUpperCase()`. */
  function SeverityLabel(s: Severity): (r: string)
    ensures |r| >= 3
  {
    match s
    case Low => "LOW"
    case Medium => "MEDIUM"
    case High => "HIGH"
    case Critical => "CRITICAL"
  }

  function VulnerabilityAdvice(v: Vulnerability): string
  {
    SeverityLabel(v.severity) + ": " + v.description
  }

  function VulnerabilityAdvices(vs: seq<Vulnerability>): (r: seq<string>)
    ensures |r| == |vs|
    ensures forall i :: 0 <= i < |vs| ==> r[i] == VulnerabilityAdvice(vs[i])
  {
    if vs == [] then [] else [VulnerabilityAdvice(vs[0])] + VulnerabilityAdvices(vs[1..])
  }

  /** The eight tests of `generateRecommendations`, in order, one per fixed message. */
  function AdviceConditions(info: SecurityInfo, metrics: MonitoringMetrics): (c: seq<bool>)
    ensures |c| == |FixedAdvices|
  {
    [!info.hasDnssec, !info.hasCaa, !info.hasSpf, !info.hasDmarc, !info.hasValidMxRecords,
     !info.hasNameserverRedundancy, metrics.resolverHealth != Good, metrics.querySuccessRate < 80.0]
  }

  /** The fixed part of the list: one message per condition that holds, in the order they are tested. */
  function FeatureAdvices(info: SecurityInfo, metrics: MonitoringMetrics): seq<string>
  {
    Selected(FixedAdvices, AdviceConditions(info, metrics))
  }

  /** `generateRecommendations`. */
  function GenerateRecommendations(info: SecurityInfo, metrics: MonitoringMetrics): (r: seq<string>)
    ensures |r| >= |info.vulnerabilities|
    ensures r[|r| - |info.vulnerabilities|..] == VulnerabilityAdvices(info.vulnerabilities)
  {
    FeatureAdvices(info, metrics) + VulnerabilityAdvices(info.vulnerabilities)
  }

  const FixedAdvices: seq<string> :=
    [DnssecAdvice, CaaAdvice, SpfAdvice, DmarcAdvice, MxAdvice, NameserverAdvice, ResolverAdvice, SuccessRateAdvice]

  /** The fixed messages differ pairwise: no two have the same length. */
  lemma FixedAdvicesDistinct()
    ensures NoDuplicates(FixedAdvices)
  {
    assert |DnssecAdvice| == 45 && |CaaAdvice| == 59 && |SpfAdvice| == 47 && |DmarcAdvice| == 48;
    assert |MxAdvice| == 53 && |NameserverAdvice| == 50 && |ResolverAdvice| == 83 && |SuccessRateAdvice| == 79;
  }

  /** A fixed message is in the fixed part exactly when its condition holds. */
  lemma FeatureAdvicesExactly(info: SecurityInfo, metrics: MonitoringMetrics, k: nat)
    requires k < |FixedAdvices|
    ensures FixedAdvices[k] in FeatureAdvices(info, metrics) <==> AdviceConditions(info, metrics)[k]
  {
    FixedAdvicesDistinct();
    SelectedMembers(FixedAdvices, AdviceConditions(info, metrics), FixedAdvices[k]);
  }

  /** The messages of the fixed part are fixed messages, each at most once. */
  lemma FeatureAdvicesShape(info: SecurityInfo, metrics: MonitoringMetrics)
    ensures forall m :: m in FeatureAdvices(info, metrics) ==> m in FixedAdvices
    ensures NoDuplicates(FeatureAdvices(info, metrics))
  {
    FixedAdvicesDistinct();
    SelectedNoDuplicates(FixedAdvices, AdviceConditions(info, metrics));
    forall m | m in FeatureAdvices(info, metrics) ensures m in FixedAdvices {
      SelectedMembers(FixedAdvices, AdviceConditions(info, metrics), m);
    }
  }

  /**
   * The recommendations are the fixed messages whose conditions hold, each
   * once, followed by one message per vulnerability in order.
   */
  lemma RecommendationsExactly(info: SecurityInfo, metrics: MonitoringMetrics, k: nat)
    requires k < |FixedAdvices|
    ensures var r := GenerateRecommendations(info, metrics);
      var n := |r| - |info.vulnerabilities|;
      (FixedAdvices[k] in r[..n] <==> AdviceConditions(info, metrics)[k]) &&
      (forall m :: m in r[..n] ==> m in FixedAdvices) && NoDuplicates(r[..n]) &&
      r[n..] == VulnerabilityAdvices(info.vulnerabilities)
  {
    var f := FeatureAdvices(info, metrics);
    var r := GenerateRecommendations(info, metrics);
    assert r[..|f|] == f;
    FeatureAdvicesExactly(info, metrics, k);
    FeatureAdvicesShape(info, metrics);
  }

  // ---------------------------------------------------------------------
  // queryDNS

  /** `DNSQueryOptions` with its defaults made explicit. */
  datatype QueryOptions = QueryOptions(
    rtype: Option<RecordType>,
    useCache: bool,
    bypassCache: bool,
    timeout: int,
    retries: int,
    preferredResolver: Option<string>)

  const DefaultOptions := QueryOptions(None, true, false, 5000, 2, None)

  const CloudflareEndpoint := "https://cloudflare-dns.com/dns-query"

  /** The request every attempt sends: the resolver and the query parameters. */
  datatype DohRequest = DohRequest(endpoint: string, params: OMap<string, string>)

  /** `type || 'ANY'`. */
  function QueryTypeName(t: Option<RecordType>): string
  {
    if t.Some? then TypeName(t.value) else "ANY"
  }

  /** The URL of `queryDNS`: an empty preferred resolver falls back to Cloudflare. */
  function BuildRequest(domain: string, opt: QueryOptions): (q: DohRequest)
    ensures q.endpoint == if opt.preferredResolver.Some? && opt.preferredResolver.value != ""
                          then opt.preferredResolver.value else CloudflareEndpoint
    ensures Keyed(q.params)
    ensures Get(q.params, "name") == Some(domain)
    ensures Get(q.params, "type") == Some(QueryTypeName(opt.rtype))
    ensures HasKey(q.params, "do") <==> opt.rtype == Some(DNSKEY) || opt.rtype == Some(DS)
  {
    var endpoint := if opt.preferredResolver.Some? && opt.preferredResolver.value != ""
                    then opt.preferredResolver.value else CloudflareEndpoint;
    var params := [("name", domain), ("type", QueryTypeName(opt.rtype))] +
                  (if opt.rtype == Some(DNSKEY) || opt.rtype == Some(DS) then [("do", "true")] else []);
    assert Keys(params)[0] == "name" && Keys(params)[1] == "type";
    assert |params| == 3 ==> Keys(params)[2] == "do";
    DohRequest(endpoint, params)
  }

  /** What one `fetch` attempt produced: an exception or an HTTP response with its parsed body. */
  datatype FetchOutcome =
    | Thrown(message: string)
    | Responded(ok: bool, statusText: string, body: DohResponse, elapsed: real)

  predicate Answers(o: FetchOutcome)
  {
    o.Responded? && o.ok
  }

  /** The message of the error an attempt ends with. */
  function AttemptError(o: FetchOutcome): string
  {
    if o.Thrown? then o.message else "DNS query failed: " + o.statusText
  }

  const NoAttemptError := "DNS query failed after retries"

  /** The first attempt among `from..retries` that gets an OK response. */
  function FirstAnswer(fetch: (DohRequest, nat) -> FetchOutcome, q: DohRequest, from: nat, retries: int): (r: Option<nat>)
    decreases retries + 1 - from
    ensures r.Some? ==> from <= r.value <= retries && Answers(fetch(q, r.value))
    ensures r.Some? ==> forall j :: from <= j < r.value ==> !Answers(fetch(q, j))
    ensures r.None? <==> forall j :: from <= j <= retries ==> !Answers(fetch(q, j))
  {
    if from > retries then None
    else if Answers(fetch(q, from)) then Some(from)
    else FirstAnswer(fetch, q, from + 1, retries)
  }

  datatype QueryResult = QueryResult(
    records: seq<DnsRecord>,
    fromCache: bool,
    queryTime: real,
    resolver: string,
    truncated: bool)

  datatype QueryOutcome = Resolved(result: QueryResult) | QueryFailed(error: string)

  /**
   * The outcome of the retry loop: the parsed answer of the first OK
   * attempt, or the error of the last attempt when all `retries + 1` fail.
   */
  function Fetched(fetch: (DohRequest, nat) -> FetchOutcome, q: DohRequest, server: string, retries: int): (r: QueryOutcome)
    ensures r.Resolved? ==> !r.result.fromCache && r.result.resolver == server
  {
    match FirstAnswer(fetch, q, 0, retries)
    case Some(i) =>
      var o := fetch(q, i);
      Resolved(QueryResult(ParseDnsResponse(o.body), false, o.elapsed, server, o.body.truncated))
    case None =>
      QueryFailed(if retries < 0 then NoAttemptError else AttemptError(fetch(q, retries)))
  }

  /** When every attempt fails, the error is the last attempt's; a negative retry count makes no attempt. */
  lemma AllAttemptsFail(fetch: (DohRequest, nat) -> FetchOutcome, q: DohRequest, server: string, retries: int)
    requires forall j: nat :: j <= retries ==> !Answers(fetch(q, j))
    ensures Fetched(fetch, q, server, retries) ==
      QueryFailed(if retries < 0 then NoAttemptError else AttemptError(fetch(q, retries)))
  {
  }

  /** Attempts after the first OK one are never made: changing their outcomes changes nothing. */
  lemma LaterAttemptsIrrelevant(f: (DohRequest, nat) -> FetchOutcome, g: (DohRequest, nat) -> FetchOutcome,
                                q: DohRequest, server: string, retries: int, i: nat)
    requires i <= retries && Answers(f(q, i))
    requires forall j: nat :: j <= i ==> f(q, j) == g(q, j)
    ensures Fetched(f, q, server, retries) == Fetched(g, q, server, retries)
  {
    assert FirstAnswer(f, q, 0, retries).Some?;
    assert FirstAnswer(g, q, 0, retries).Some?;
  }

  /**
   * The retry loop of `queryDNS`: attempts `0..retries` in turn, stopping at
   * the first OK response; when none answers, the last attempt's error.
   */
  method RetryLoop(fetch: (DohRequest, nat) -> FetchOutcome, q: DohRequest, retries: int)
    returns (answer: Option<FetchOutcome>, lastError: Option<string>)
    ensures answer.None? <==> FirstAnswer(fetch, q, 0, retries).None?
    ensures answer.Some? ==> answer.value == fetch(q, FirstAnswer(fetch, q, 0, retries).value)
    ensures answer.None? ==> lastError == if retries < 0 then None else Some(AttemptError(fetch(q, retries)))
  {
    lastError := None;
    var attempt := 0;
    while attempt <= retries
      invariant 0 <= attempt && (attempt <= retries + 1 || attempt == 0)
      invariant forall j: nat :: j < attempt ==> !Answers(fetch(q, j))
      invariant attempt == 0 ==> lastError == None
      invariant attempt > 0 ==> lastError == Some(AttemptError(fetch(q, attempt - 1)))
      decreases retries + 1 - attempt
    {
      var o := fetch(q, attempt);
      if Answers(o) {
        assert FirstAnswer(fetch, q, 0, retries) == Some(attempt);
        return Some(o), lastError;
      }
      lastError := Some(AttemptError(o));
      attempt := attempt + 1;
    }
    answer := None;
  }

  /** A cache hit: caching allowed, not bypassed, and the cache holds a live record of the type. */
  predicate CacheHit(c: Cache, domain: string, opt: QueryOptions, now: int)
  {
    opt.useCache && !opt.bypassCache && LiveRecords(DomainOf(c, domain), opt.rtype, now) != []
  }

  /** The metrics `queryDNS` hands the anomaly detector for a successful query. */
  function QueryMetrics(queryTime: real, now: int): MonitoringMetrics
  {
    MonitoringMetrics(queryTime, 100.0, now, Good)
  }

  // ---------------------------------------------------------------------
  // The health check

  /** The options of every probe of `measureDNSMetrics`: no cache, a 2-second timeout, no retry. */
  const ProbeOptions := QueryOptions(None, false, false, 2000, 0, None)

  /**
   * The outcome of the probe labelled `CheckEndpoints[i]`, with `fetch` the
   * network's answers to it. The label only names the result: without a
   * preferred resolver every probe sends the same request to Cloudflare.
   */
  function ProbeOutcome(domain: string, fetch: (DohRequest, nat) -> FetchOutcome, i: nat): QueryOutcome
    requires i < |CheckEndpoints|
  {
    Fetched(fetch, BuildRequest(domain, ProbeOptions), CheckEndpoints[i], ProbeOptions.retries)
  }

  /** How many of the first `n` probes answered. */
  function Successes(domain: string, fetches: seq<(DohRequest, nat) -> FetchOutcome>, n: nat): (k: nat)
    requires n <= |fetches| <= |CheckEndpoints|
    ensures k <= n
  {
    if n == 0 then 0
    else Successes(domain, fetches, n - 1) + (if ProbeOutcome(domain, fetches[n - 1], n - 1).Resolved? then 1 else 0)
  }

  /** The anomaly detector's two maps, as values. */
  datatype DetectorState = DetectorState(patterns: map<string, Pattern>, anomalies: map<string, seq<Anomaly>>)

  function PatternIn(s: DetectorState, domain: string): Pattern
  {
    PatternOf(s.patterns, domain)
  }

  function AnomaliesIn(s: DetectorState, domain: string): seq<Anomaly>
  {
    if domain in s.anomalies then s.anomalies[domain] else []
  }

  /** The domain's pattern has its 24 hourly buckets. */
  predicate Bucketed(s: DetectorState, domain: string)
  {
    |PatternIn(s, domain).hourlyDistribution| == 24
  }

  /** `analyzeQuery` on the two maps: the domain's pattern is updated and the findings on it are stored. */
  function AnalyzedState(s: DetectorState, domain: string, queryType: string, records: seq<DnsRecord>,
                         metrics: MonitoringMetrics, env: DetectorEnv): (r: DetectorState)
    requires Bucketed(s, domain) && ValidEnv(env)
    ensures Bucketed(r, domain)
  {
    var q := Updated(PatternIn(s, domain), queryType, records, metrics, env.hour);
    WithDomain(s, domain, q, Stored(AnomaliesIn(s, domain), Findings(domain, q, records, metrics, env)))
  }

  /** The detector with the domain's pattern and anomaly list replaced. */
  function WithDomain(s: DetectorState, domain: string, p: Pattern, found: seq<Anomaly>): (r: DetectorState)
    requires |p.hourlyDistribution| == 24
    ensures Bucketed(r, domain)
  {
    DetectorState(s.patterns[domain := p], s.anomalies[domain := found])
  }

  /** One probe's effect on the detector: an answering probe's records are analysed, a failed probe changes nothing. */
  function ProbeStep(prev: DetectorState, domain: string, o: QueryOutcome, env: DetectorEnv): (r: DetectorState)
    requires Bucketed(prev, domain) && ValidEnv(env)
    ensures Bucketed(r, domain)
  {
    if o.Resolved?
    then AnalyzedState(prev, domain, QueryTypeName(ProbeOptions.rtype), o.result.records,
                       QueryMetrics(o.result.queryTime, env.now), env)
    else prev
  }

  /** The detector after the first `n` probes, taken in endpoint order. */
  function ProbesAnalyzed(s: DetectorState, domain: string, fetches: seq<(DohRequest, nat) -> FetchOutcome>, n: nat,
                          env: DetectorEnv): (r: DetectorState)
    requires n <= |fetches| <= |CheckEndpoints|
    requires Bucketed(s, domain) && ValidEnv(env)
    ensures Bucketed(r, domain)
  {
    if n == 0 then s
    else ProbeStep(ProbesAnalyzed(s, domain, fetches, n - 1, env), domain, ProbeOutcome(domain, fetches[n - 1], n - 1), env)
  }

  lemma WithDomainFrame(s: DetectorState, domain: string, p: Pattern, found: seq<Anomaly>)
    requires |p.hourlyDistribution| == 24
    ensures WithDomain(s, domain, p, found).patterns - {domain} == s.patterns - {domain}
    ensures WithDomain(s, domain, p, found).anomalies - {domain} == s.anomalies - {domain}
  {
  }

  /** One analysis changes the detector only for the analysed domain. */
  lemma AnalyzedStateFrame(s: DetectorState, domain: string, queryType: string, records: seq<DnsRecord>,
                           metrics: MonitoringMetrics, env: DetectorEnv)
    requires Bucketed(s, domain) && ValidEnv(env)
    ensures AnalyzedState(s, domain, queryType, records, metrics, env).patterns - {domain} == s.patterns - {domain}
    ensures AnalyzedState(s, domain, queryType, records, metrics, env).anomalies - {domain} == s.anomalies - {domain}
  {
    var q := Updated(PatternIn(s, domain), queryType, records, metrics, env.hour);
    WithDomainFrame(s, domain, q, Stored(AnomaliesIn(s, domain), Findings(domain, q, records, metrics, env)));
  }

  /** One probe changes the detector only for the probed domain. */
  lemma ProbeStepFrame(prev: DetectorState, domain: string, o: QueryOutcome, env: DetectorEnv)
    requires Bucketed(prev, domain) && ValidEnv(env)
    ensures ProbeStep(prev, domain, o, env).patterns - {domain} == prev.patterns - {domain}
    ensures ProbeStep(prev, domain, o, env).anomalies - {domain} == prev.anomalies - {domain}
  {
    if o.Resolved? {
      AnalyzedStateFrame(prev, domain, QueryTypeName(ProbeOptions.rtype), o.result.records,
                         QueryMetrics(o.result.queryTime, env.now), env);
    }
  }

  /** The probes change the detector only for the probed domain. */
  lemma {:induction false} ProbesTouchOnlyDomain(s: DetectorState, domain: string, fetches: seq<(DohRequest, nat) -> FetchOutcome>,
                                                 n: nat, env: DetectorEnv)
    requires n <= |fetches| <= |CheckEndpoints|
    requires Bucketed(s, domain) && ValidEnv(env)
    ensures var r := ProbesAnalyzed(s, domain, fetches, n, env);
      r.patterns - {domain} == s.patterns - {domain} && r.anomalies - {domain} == s.anomalies - {domain}
  {
    if n > 0 {
      ProbesTouchOnlyDomain(s, domain, fetches, n - 1, env);
      ProbeStepFrame(ProbesAnalyzed(s, domain, fetches, n - 1, env), domain, ProbeOutcome(domain, fetches[n - 1], n - 1), env);
    }
  }

  lemma WithDomainValid(s: DetectorState, domain: string, p: Pattern, found: seq<Anomaly>)
    requires PatternsValid(s.patterns) && WellFormedPattern(p) && p.averageQueryRate == 0.0
    ensures PatternsValid(WithDomain(s, domain, p, found).patterns)
  {
    PatternsValidPut(s.patterns, domain, p);
  }

  /** In a valid detector the domain's pattern, kept or new, is well formed. */
  lemma PatternInValid(s: DetectorState, domain: string)
    requires PatternsValid(s.patterns)
    ensures WellFormedPattern(PatternIn(s, domain)) && PatternIn(s, domain).averageQueryRate == 0.0
  {
    NewPatternWellFormed();
  }

  /** A valid detector has the domain's 24 buckets. */
  lemma ValidIsBucketed(s: DetectorState, domain: string)
    requires PatternsValid(s.patterns)
    ensures Bucketed(s, domain)
  {
    PatternInValid(s, domain);
  }

  /** One analysis keeps every pattern well formed. */
  lemma AnalyzedStateValid(s: DetectorState, domain: string, queryType: string, records: seq<DnsRecord>,
                           metrics: MonitoringMetrics, env: DetectorEnv)
    requires PatternsValid(s.patterns) && ValidEnv(env)
    ensures Bucketed(s, domain)
    ensures PatternsValid(AnalyzedState(s, domain, queryType, records, metrics, env).patterns)
  {
    PatternInValid(s, domain);
    var q := Updated(PatternIn(s, domain), queryType, records, metrics, env.hour);
    UpdatedValid(PatternIn(s, domain), queryType, records, metrics, env.hour);
    WithDomainValid(s, domain, q, Stored(AnomaliesIn(s, domain), Findings(domain, q, records, metrics, env)));
  }

  /** One probe keeps every pattern well formed. */
  lemma ProbeStepValid(prev: DetectorState, domain: string, o: QueryOutcome, env: DetectorEnv)
    requires PatternsValid(prev.patterns) && ValidEnv(env)
    ensures Bucketed(prev, domain)
    ensures PatternsValid(ProbeStep(prev, domain, o, env).patterns)
  {
    ValidIsBucketed(prev, domain);
    if o.Resolved? {
      AnalyzedStateValid(prev, domain, QueryTypeName(ProbeOptions.rtype), o.result.records,
                         QueryMetrics(o.result.queryTime, env.now), env);
    }
  }

  /** The probes keep every pattern well formed. */
  lemma {:induction false} ProbesKeepPatternsValid(s: DetectorState, domain: string, fetches: seq<(DohRequest, nat) -> FetchOutcome>,
                                                   n: nat, env: DetectorEnv)
    requires n <= |fetches| <= |CheckEndpoints|
    requires PatternsValid(s.patterns) && ValidEnv(env)
    ensures Bucketed(s, domain)
    ensures PatternsValid(ProbesAnalyzed(s, domain, fetches, n, env).patterns)
  {
    ValidIsBucketed(s, domain);
    if n > 0 {
      ProbesKeepPatternsValid(s, domain, fetches, n - 1, env);
      ProbeStepValid(ProbesAnalyzed(s, domain, fetches, n - 1, env), domain, ProbeOutcome(domain, fetches[n - 1], n - 1), env);
    }
  }

  /**
   * Every answering probe is learned: the domain's `ANY` count and its bucket
   * for the current hour each grow by exactly the number of answering probes.
   */
  lemma {:induction false} ProbesCounted(s: DetectorState, domain: string, fetches: seq<(DohRequest, nat) -> FetchOutcome>,
                                         n: nat, env: DetectorEnv)
    requires n <= |fetches| <= |CheckEndpoints|
    requires PatternsValid(s.patterns) && ValidEnv(env)
    ensures Bucketed(s, domain)
    ensures var r := ProbesAnalyzed(s, domain, fetches, n, env);
      CountOf(PatternIn(r, domain).commonRecordTypes, "ANY") ==
        CountOf(PatternIn(s, domain).commonRecordTypes, "ANY") + Successes(domain, fetches, n) &&
      PatternIn(r, domain).hourlyDistribution[env.hour] ==
        PatternIn(s, domain).hourlyDistribution[env.hour] + Successes(domain, fetches, n)
  {
    ValidIsBucketed(s, domain);
    if n > 0 {
      ProbesCounted(s, domain, fetches, n - 1, env);
      ProbesKeepPatternsValid(s, domain, fetches, n - 1, env);
      var prev := ProbesAnalyzed(s, domain, fetches, n - 1, env);
      var o := ProbeOutcome(domain, fetches[n - 1], n - 1);
      if o.Resolved? {
        NewPatternWellFormed();
        var p := PatternIn(prev, domain);
        var m := QueryMetrics(o.result.queryTime, env.now);
        UpdatedShape(p, "ANY", o.result.records, m, env.hour);
        UpdatedCounts(p, "ANY", o.result.records, m, env.hour, "ANY");
      }
    }
  }

  /** A stored list that receives at least one finding is not empty. */
  lemma StoredNonEmpty(existing: seq<Anomaly>, found: seq<Anomaly>)
    requires found != []
    ensures Stored(existing, found) != []
  {
    var sorted := SortNewestFirst(existing + found);
    assert |multiset(sorted)| == |multiset(existing + found)|;
  }

  /** An analysed query always reports something: at least the volume anomaly. */
  lemma FindingsNonEmpty(domain: string, p: Pattern, queryType: string, records: seq<DnsRecord>,
                         metrics: MonitoringMetrics, env: DetectorEnv)
    requires WellFormedPattern(p) && ValidEnv(env)
    ensures Findings(domain, Updated(p, queryType, records, metrics, env.hour), records, metrics, env) != []
  {
    FindingsOfAnalyzedQuery(domain, p, queryType, records, metrics, env);
  }

  lemma WithDomainAnomalies(s: DetectorState, domain: string, p: Pattern, found: seq<Anomaly>)
    requires |p.hourlyDistribution| == 24
    ensures domain in WithDomain(s, domain, p, found).anomalies
    ensures WithDomain(s, domain, p, found).anomalies[domain] == found
  {
  }

  /** After an analysis the domain holds stored anomalies. */
  lemma AnalyzedStateStores(s: DetectorState, domain: string, queryType: string, records: seq<DnsRecord>,
                            metrics: MonitoringMetrics, env: DetectorEnv)
    requires PatternsValid(s.patterns) && ValidEnv(env)
    ensures Bucketed(s, domain)
    ensures domain in AnalyzedState(s, domain, queryType, records, metrics, env).anomalies
    ensures AnalyzedState(s, domain, queryType, records, metrics, env).anomalies[domain] != []
  {
    ValidIsBucketed(s, domain);
    NewPatternWellFormed();
    var q := Updated(PatternIn(s, domain), queryType, records, metrics, env.hour);
    var found := Findings(domain, q, records, metrics, env);
    FindingsNonEmpty(domain, PatternIn(s, domain), queryType, records, metrics, env);
    StoredNonEmpty(AnomaliesIn(s, domain), found);
    WithDomainAnomalies(s, domain, q, Stored(AnomaliesIn(s, domain), found));
  }

  /** An answering probe leaves the domain with stored anomalies; a failed one changes nothing. */
  lemma ProbeStepStores(prev: DetectorState, domain: string, o: QueryOutcome, env: DetectorEnv)
    requires PatternsValid(prev.patterns) && ValidEnv(env)
    ensures Bucketed(prev, domain)
    ensures o.Resolved? ==> domain in ProbeStep(prev, domain, o, env).anomalies &&
                            ProbeStep(prev, domain, o, env).anomalies[domain] != []
    ensures !o.Resolved? ==> ProbeStep(prev, domain, o, env) == prev
  {
    ValidIsBucketed(prev, domain);
    if o.Resolved? {
      AnalyzedStateStores(prev, domain, QueryTypeName(ProbeOptions.rtype), o.result.records,
                          QueryMetrics(o.result.queryTime, env.now), env);
    }
  }

  /**
   * When some probe answers, the domain holds stored anomalies afterwards;
   * when none answers, the detector is left as it was.
   */
  lemma {:induction false} ProbesStoreAnomalies(s: DetectorState, domain: string, fetches: seq<(DohRequest, nat) -> FetchOutcome>,
                                                n: nat, env: DetectorEnv)
    requires n <= |fetches| <= |CheckEndpoints|
    requires PatternsValid(s.patterns) && ValidEnv(env)
    ensures Bucketed(s, domain)
    ensures var r := ProbesAnalyzed(s, domain, fetches, n, env);
      (Successes(domain, fetches, n) > 0 ==> domain in r.anomalies && r.anomalies[domain] != []) &&
      (Successes(domain, fetches, n) == 0 ==> r == s)
  {
    ValidIsBucketed(s, domain);
    if n > 0 {
      ProbesStoreAnomalies(s, domain, fetches, n - 1, env);
      ProbesKeepPatternsValid(s, domain, fetches, n - 1, env);
      ProbeStepStores(ProbesAnalyzed(s, domain, fetches, n - 1, env), domain, ProbeOutcome(domain, fetches[n - 1], n - 1), env);
    }
  }

  // ---------------------------------------------------------------------
  // The service

  class DnsSecurityService {
    /** The shared cache service the module imports as `dnsCache`. */
    const sharedCache: DnsCacheService
    const analyzer: DnsAnomalyDetectionService
    /** The service's own `dnsCache` map, which no method writes. */
    var dnsCache: OMap<string, seq<DnsRecord>>
    var monitoringMetrics: map<string, seq<MonitoringMetrics>>

    ghost predicate Valid()
      reads this, sharedCache, analyzer
    {
      sharedCache.Valid() && analyzer.Valid() &&
      forall d :: d in monitoringMetrics ==> |monitoringMetrics[d]| <= MaxMetricsHistory
    }

    /** The minute timer the constructor starts is not modelled. */
    constructor (cache: DnsCacheService, anomalyService: DnsAnomalyDetectionService)
      requires cache.Valid() && anomalyService.Valid()
      ensures Valid()
      ensures sharedCache == cache && analyzer == anomalyService
      ensures dnsCache == [] && monitoringMetrics == map[]
    {
      sharedCache := cache;
      analyzer := anomalyService;
      dnsCache := [];
      monitoringMetrics := map[];
    }

    function History(domain: string): (h: seq<MonitoringMetrics>)
      reads this
      ensures domain !in monitoringMetrics ==> h == []
    {
      if domain in monitoringMetrics then monitoringMetrics[domain] else []
    }

    /** `storeDNSMetrics`: append, dropping the oldest entry beyond one hundred. */
    method StoreDnsMetrics(domain: string, metrics: MonitoringMetrics)
      requires Valid()
      modifies this
      ensures Valid() && dnsCache == old(dnsCache)
      ensures monitoringMetrics == old(monitoringMetrics)[domain := Appended(old(History(domain)), metrics, MaxMetricsHistory)]
    {
      var domainMetrics := History(domain);
      domainMetrics := domainMetrics + [metrics];
      if |domainMetrics| > MaxMetricsHistory {
        domainMetrics := domainMetrics[1..];
      }
      monitoringMetrics := monitoringMetrics[domain := domainMetrics];
    }

    /** `getDNSMetrics`: the latest measurement, or the neutral defaults. */
    function GetDnsMetrics(domain: string): (v: MetricsView)
      reads this
      ensures domain !in monitoringMetrics ==> v == NoMetrics
      ensures v == LatestView(History(domain))
    {
      LatestView(History(domain))
    }

    function Detector(): DetectorState
      reads analyzer
    {
      DetectorState(analyzer.patterns, analyzer.anomalies)
    }

    /**
     * `measureDNSMetrics`: one uncached, unretried `queryDNS` per entry of
     * `CheckEndpoints`, with `fetches[i]` the network's answers to the i-th;
     * each answering probe feeds the anomaly detector. The elapsed time is an
     * input.
     */
    method MeasureDns(domain: string, fetches: seq<(DohRequest, nat) -> FetchOutcome>, responseTime: real, env: DetectorEnv)
      returns (m: MonitoringMetrics)
      requires Valid() && ValidEnv(env) && |fetches| == |CheckEndpoints|
      modifies sharedCache, analyzer
      ensures Valid()
      ensures m == MeasureDnsMetrics(Successes(domain, fetches, |fetches|), responseTime, env.now)
      ensures sharedCache.cache == old(sharedCache.cache)
      ensures Detector() == ProbesAnalyzed(old(Detector()), domain, fetches, |fetches|, env)
    {
      var successfulQueries, totalQueries := RunProbes(domain, fetches, env);
      var querySuccessRate := (successfulQueries as real / totalQueries as real) * 100.0;
      m := MonitoringMetrics(responseTime, querySuccessRate, env.now, ResolverHealthOf(querySuccessRate));
    }

    /** The probe loop of `measureDNSMetrics`, counting the answering and the finished probes. */
    method RunProbes(domain: string, fetches: seq<(DohRequest, nat) -> FetchOutcome>, env: DetectorEnv)
      returns (successfulQueries: nat, totalQueries: nat)
      requires Valid() && ValidEnv(env) && |fetches| <= |CheckEndpoints|
      modifies sharedCache, analyzer
      ensures Valid()
      ensures totalQueries == |fetches|
      ensures successfulQueries == Successes(domain, fetches, |fetches|)
      ensures sharedCache.cache == old(sharedCache.cache)
      ensures Detector() == ProbesAnalyzed(old(Detector()), domain, fetches, |fetches|, env)
    {
      ghost var s0 := Detector();
      ValidIsBucketed(s0, domain);
      successfulQueries := 0;
      totalQueries := 0;
      while totalQueries < |fetches|
        invariant 0 <= totalQueries <= |fetches|
        invariant Valid()
        invariant sharedCache.cache == old(sharedCache.cache)
        invariant successfulQueries == Successes(domain, fetches, totalQueries)
        invariant Detector() == ProbesAnalyzed(s0, domain, fetches, totalQueries, env)
      {
        var answered := ProbeNext(domain, fetches, totalQueries, env, s0, successfulQueries);
        if answered {
          successfulQueries := successfulQueries + 1;
        }
        totalQueries := totalQueries + 1;
      }
    }

    /** One turn of the probe loop: the i-th probe, and whether it answered. */
    method ProbeNext(domain: string, fetches: seq<(DohRequest, nat) -> FetchOutcome>, i: nat, env: DetectorEnv,
                     ghost s0: DetectorState, successes: nat) returns (answered: bool)
      requires Valid() && ValidEnv(env) && i < |fetches| <= |CheckEndpoints|
      requires Bucketed(s0, domain) && Detector() == ProbesAnalyzed(s0, domain, fetches, i, env)
      requires successes == Successes(domain, fetches, i)
      modifies sharedCache, analyzer
      ensures Valid()
      ensures sharedCache.cache == old(sharedCache.cache)
      ensures Detector() == ProbesAnalyzed(s0, domain, fetches, i + 1, env)
      ensures successes + (if answered then 1 else 0) == Successes(domain, fetches, i + 1)
    {
      var out := Probe(domain, fetches[i], i, env);
      answered := out.Resolved?;
    }

    /** One probe of `measureDNSMetrics`: `queryDNS` to the i-th endpoint, uncached and unretried. */
    method Probe(domain: string, fetch: (DohRequest, nat) -> FetchOutcome, i: nat, env: DetectorEnv)
      returns (out: QueryOutcome)
      requires Valid() && ValidEnv(env) && i < |CheckEndpoints|
      modifies sharedCache, analyzer
      ensures Valid()
      ensures out == ProbeOutcome(domain, fetch, i)
      ensures sharedCache.cache == old(sharedCache.cache)
      ensures Detector() == ProbeStep(old(Detector()), domain, out, env)
    {
      ValidIsBucketed(Detector(), domain);
      out := QueryDns(domain, CheckEndpoints[i], ProbeOptions, fetch, env);
    }

    /** `performDNSHealthCheck`: measure, then store. */
    method PerformDnsHealthCheck(domain: string, fetches: seq<(DohRequest, nat) -> FetchOutcome>, responseTime: real, env: DetectorEnv)
      requires Valid() && ValidEnv(env) && |fetches| == |CheckEndpoints|
      modifies this, sharedCache, analyzer
      ensures Valid() && dnsCache == old(dnsCache)
      ensures sharedCache.cache == old(sharedCache.cache)
      ensures Detector() == ProbesAnalyzed(old(Detector()), domain, fetches, |fetches|, env)
      ensures monitoringMetrics ==
        old(monitoringMetrics)[domain := Appended(old(History(domain)),
          MeasureDnsMetrics(Successes(domain, fetches, |fetches|), responseTime, env.now), MaxMetricsHistory)]
    {
      var metrics := MeasureDns(domain, fetches, responseTime, env);
      StoreDnsMetrics(domain, metrics);
    }

    /**
     * `queryDNS`. A cache hit returns the cached records at once. Otherwise
     * up to `retries + 1` attempts are made; the first OK one stores its
     * records in the cache (when caching is on and there are some), feeds
     * the anomaly detector, and is returned; if none is OK the last error
     * is raised.
     */
    method QueryDns(domain: string, dnsServer: string, opt: QueryOptions,
                    fetch: (DohRequest, nat) -> FetchOutcome, env: DetectorEnv) returns (out: QueryOutcome)
      requires Valid() && ValidEnv(env)
      modifies sharedCache, analyzer
      ensures Valid()
      ensures CacheHit(old(sharedCache.cache), domain, opt, env.now) ==>
        out == Resolved(QueryResult(LiveRecords(DomainOf(old(sharedCache.cache), domain), opt.rtype, env.now),
                                    true, 0.0, "cache", false)) &&
        sharedCache.cache == old(sharedCache.cache) &&
        analyzer.patterns == old(analyzer.patterns) && analyzer.anomalies == old(analyzer.anomalies)
      ensures !CacheHit(old(sharedCache.cache), domain, opt, env.now) ==>
        out == Fetched(fetch, BuildRequest(domain, opt), dnsServer, opt.retries)
      ensures out.QueryFailed? ==>
        sharedCache.cache == old(sharedCache.cache) &&
        analyzer.patterns == old(analyzer.patterns) && analyzer.anomalies == old(analyzer.anomalies)
      ensures out.Resolved? && !out.result.fromCache ==>
        sharedCache.cache == (if opt.useCache && out.result.records != []
                              then AfterSet(old(sharedCache.cache), domain, out.result.records, env.now)
                              else old(sharedCache.cache))
      ensures out.Resolved? && !out.result.fromCache ==>
        analyzer.patterns == old(analyzer.patterns)[domain := Updated(old(analyzer.PatternOrNew(domain)), QueryTypeName(opt.rtype), out.result.records, QueryMetrics(out.result.queryTime, env.now), env.hour)] &&
        analyzer.anomalies == old(analyzer.anomalies)[domain := Stored(old(analyzer.GetAnomalies(domain)),
          Findings(domain, Updated(old(analyzer.PatternOrNew(domain)), QueryTypeName(opt.rtype), out.result.records, QueryMetrics(out.result.queryTime, env.now), env.hour), out.result.records, QueryMetrics(out.result.queryTime, env.now), env))]
      ensures out.Resolved? && !out.result.fromCache ==>
        Detector() == AnalyzedState(old(Detector()), domain, QueryTypeName(opt.rtype), out.result.records,
                                    QueryMetrics(out.result.queryTime, env.now), env)
    {
      if opt.useCache && !opt.bypassCache && sharedCache.IsValid(domain, opt.rtype, env.now) {
        var records := sharedCache.Get(domain, opt.rtype, env.now);
        return Resolved(QueryResult(records, true, 0.0, "cache", false));
      }
      var q := BuildRequest(domain, opt);
      var answer, lastError := RetryLoop(fetch, q, opt.retries);
      if answer.Some? {
        var result := Deliver(domain, dnsServer, opt, answer.value, env);
        return Resolved(result);
      }
      out := QueryFailed(if lastError.Some? then lastError.value else NoAttemptError);
    }

    /**
     * The body of a successful attempt: parse, cache the records when
     * caching is on and there are some, and run the anomaly detector.
     */
    method Deliver(domain: string, dnsServer: string, opt: QueryOptions, o: FetchOutcome, env: DetectorEnv)
      returns (result: QueryResult)
      requires Valid() && ValidEnv(env) && Answers(o)
      modifies sharedCache, analyzer
      ensures Valid()
      ensures result == QueryResult(ParseDnsResponse(o.body), false, o.elapsed, dnsServer, o.body.truncated)
      ensures sharedCache.cache == (if opt.useCache && result.records != []
                                    then AfterSet(old(sharedCache.cache), domain, result.records, env.now)
                                    else old(sharedCache.cache))
      ensures
        analyzer.patterns == old(analyzer.patterns)[domain := Updated(old(analyzer.PatternOrNew(domain)), QueryTypeName(opt.rtype), result.records, QueryMetrics(o.elapsed, env.now), env.hour)] &&
        analyzer.anomalies == old(analyzer.anomalies)[domain := Stored(old(analyzer.GetAnomalies(domain)),
          Findings(domain, Updated(old(analyzer.PatternOrNew(domain)), QueryTypeName(opt.rtype), result.records, QueryMetrics(o.elapsed, env.now), env.hour), result.records, QueryMetrics(o.elapsed, env.now), env))]
      ensures Detector() == AnalyzedState(old(Detector()), domain, QueryTypeName(opt.rtype), result.records, QueryMetrics(o.elapsed, env.now), env)
    {
      var records := ParseDnsResponse(o.body);
      CacheRecords(domain, records, opt.useCache, env.now);
      Analyze(domain, QueryTypeName(opt.rtype), records, QueryMetrics(o.elapsed, env.now), env);
      result := QueryResult(records, false, o.elapsed, dnsServer, o.body.truncated);
    }

    method CacheRecords(domain: string, records: seq<DnsRecord>, useCache: bool, now: int)
      requires Valid()
      modifies sharedCache
      ensures Valid()
      ensures sharedCache.cache == if useCache && records != [] then AfterSet(old(sharedCache.cache), domain, records, now)
                                   else old(sharedCache.cache)
    {
      if useCache && |records| > 0 {
        sharedCache.Set(domain, records, now);
      }
    }

    method Analyze(domain: string, queryType: string, records: seq<DnsRecord>, metrics: MonitoringMetrics, env: DetectorEnv)
      requires Valid() && ValidEnv(env)
      modifies analyzer
      ensures Valid()
      ensures
        analyzer.patterns == old(analyzer.patterns)[domain := Updated(old(analyzer.PatternOrNew(domain)), queryType, records, metrics, env.hour)] &&
        analyzer.anomalies == old(analyzer.anomalies)[domain := Stored(old(analyzer.GetAnomalies(domain)),
          Findings(domain, Updated(old(analyzer.PatternOrNew(domain)), queryType, records, metrics, env.hour), records, metrics, env))]
      ensures Detector() == AnalyzedState(old(Detector()), domain, queryType, records, metrics, env)
    {
      ghost var before := Detector();
      assert analyzer.PatternOrNew(domain) == PatternIn(before, domain);
      assert analyzer.GetAnomalies(domain) == AnomaliesIn(before, domain);
      var found := analyzer.AnalyzeQuery(domain, queryType, records, metrics, env);
    }

    /** `getCacheStats`, read from the shared cache. */
    method GetCacheStats(now: int) returns (st: CacheStats)
      ensures st == Stats(sharedCache.cache, now)
    {
      st := sharedCache.GetStats(now);
    }

    /**
     * `clearCache`: with a non-empty domain, invalidate it in the shared
     * cache; without one, invalidate every domain of the service's own,
     * never-written `dnsCache` map, which leaves the shared cache as it was.
     */
    method ClearCache(domain: Option<string>, rtype: Option<RecordType>)
      requires Valid()
      modifies sharedCache
      ensures Valid()
      ensures domain.Some? && domain.value != "" ==>
        sharedCache.cache == Invalidated(old(sharedCache.cache), domain.value, rtype)
      ensures !(domain.Some? && domain.value != "") ==>
        sharedCache.cache == InvalidatedAll(old(sharedCache.cache), Keys(dnsCache))
    {
      if domain.Some? && domain.value != "" {
        sharedCache.Invalidate(domain.value, rtype);
      } else {
        InvalidateDomains(sharedCache, Keys(dnsCache));
      }
    }
  }

  /** The loop of `clearCache` without a domain: each name in turn loses all its records. */
  method InvalidateDomains(cache: DnsCacheService, ds: seq<string>)
    requires cache.Valid()
    modifies cache
    ensures cache.Valid()
    ensures cache.cache == InvalidatedAll(old(cache.cache), ds)
  {
    ghost var c0 := cache.cache;
    var i := 0;
    while i < |ds|
      invariant 0 <= i <= |ds|
      invariant cache.Valid()
      invariant cache.cache == InvalidatedAll(c0, ds[..i])
    {
      InvalidatedAllStep(c0, ds[..i], ds[i]);
      assert ds[..i + 1] == ds[..i] + [ds[i]];
      cache.Invalidate(ds[i], None);
      i := i + 1;
    }
    assert ds[..i] == ds;
  }

  /** The shared cache after invalidating each of `ds` in turn, whole domains. */
  function InvalidatedAll(c: Cache, ds: seq<string>): Cache
  {
    if ds == [] then c else Invalidated(InvalidatedAll(c, ds[..|ds| - 1]), ds[|ds| - 1], None)
  }

  lemma InvalidatedAllStep(c: Cache, ds: seq<string>, d: string)
    ensures InvalidatedAll(c, ds + [d]) == Invalidated(InvalidatedAll(c, ds), d, None)
  {
    assert (ds + [d])[..|ds|] == ds;
  }

  /**
   * Clearing without a domain changes nothing while the service's own map
   * is empty, which it always is, since the constructor leaves it empty and
   * no method writes it.
   */
  lemma ClearAllIsNoOp(c: Cache)
    ensures InvalidatedAll(c, Keys<string, seq<DnsRecord>>([])) == c
  {
  }

  /** Invalidating every domain afresh removes exactly those domains. */
  lemma {:induction false} InvalidatedAllRemoves(c: Cache, ds: seq<string>, d: string)
    requires WellFormed(c)
    ensures WellFormed(InvalidatedAll(c, ds))
    ensures HasKey(InvalidatedAll(c, ds), d) <==> HasKey(c, d) && d !in ds
  {
    if ds != [] {
      var init, last := ds[..|ds| - 1], ds[|ds| - 1];
      InvalidatedAllRemoves(c, init, d);
      var p := InvalidatedAll(c, init);
      if HasKey(p, last) {
        RemoveWellFormed(p, last);
        RemoveHasKey(p, last, d);
      }
      assert d in ds <==> d in init || d == last;
    }
  }
}
