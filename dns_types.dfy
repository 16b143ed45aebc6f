// The DNS shapes of src/types/dns.ts that the anomaly detector, the cache
// and the security service share.

module DnsTypes {
  import opened Common
  import opened OrderedMaps

  datatype RecordType = A | AAAA | MX | TXT | NS | CNAME | SOA | CAA | DNSKEY | DS | PTR | AXFR

  function TypeName(t: RecordType): (s: string)
    ensures |s| >= 1
  {
    match t
    case A => "A"
    case AAAA => "AAAA"
    case MX => "MX"
    case TXT => "TXT"
    case NS => "NS"
    case CNAME => "CNAME"
    case SOA => "SOA"
    case CAA => "CAA"
    case DNSKEY => "DNSKEY"
    case DS => "DS"
    case PTR => "PTR"
    case AXFR => "AXFR"
  }

  /** No type name contains the ':' that separates it from a value in a key. */
  lemma TypeNamesHaveNoColon(t: RecordType)
    ensures ':' !in TypeName(t)
  {
  }

  lemma TypeNameInjective(t: RecordType, u: RecordType)
    ensures TypeName(t) == TypeName(u) <==> t == u
  {
  }

  datatype DnsRecord = DnsRecord(rtype: RecordType, value: string, ttl: int)

  /** The `${type}:${value}` key under which a record is counted and cached. */
  function RecordKey(t: RecordType, value: string): string
  {
    TypeName(t) + ":" + value
  }

  /** The key determines the record's type and value. */
  lemma RecordKeyInjective(t: RecordType, v: string, u: RecordType, w: string)
    ensures RecordKey(t, v) == RecordKey(u, w) <==> t == u && v == w
  {
    if RecordKey(t, v) == RecordKey(u, w) {
      TypeNamesHaveNoColon(t);
      TypeNamesHaveNoColon(u);
      SplitAtFirstColon(TypeName(t), v, TypeName(u), w);
      TypeNameInjective(t, u);
    }
  }

  /** The position of the first ':' in `s`, or `|s|` when there is none. */
  function FirstColon(s: string): (i: nat)
    ensures i <= |s|
  {
    if s == [] || s[0] == ':' then 0 else 1 + FirstColon(s[1..])
  }

  lemma {:induction false} FirstColonAfter(a: string, x: string)
    requires ':' !in a
    ensures FirstColon(a + ":" + x) == |a|
  {
    if a != [] {
      assert (a + ":" + x)[1..] == a[1..] + ":" + x;
      FirstColonAfter(a[1..], x);
    }
  }

  lemma SplitAtFirstColon(a: string, x: string, b: string, y: string)
    requires ':' !in a && ':' !in b
    requires a + ":" + x == b + ":" + y
    ensures a == b && x == y
  {
    var s := a + ":" + x;
    FirstColonAfter(a, x);
    FirstColonAfter(b, y);
    assert a == s[..|a|];
    assert b == s[..|b|];
    assert x == s[|a| + 1..];
    assert y == s[|b| + 1..];
  }

  datatype Severity = Low | Medium | High | Critical

  datatype AnomalyType = PatternAnomaly | Timing | Volume | Resolution | Security

  datatype Anomaly = Anomaly(
    atype: AnomalyType,
    severity: Severity,
    description: string,
    timestamp: int,
    affectedDomain: string,
    evidence: seq<string>)

  datatype ResolverHealth = Good | Degraded | Poor

  datatype MonitoringMetrics = MonitoringMetrics(
    responseTime: real,
    querySuccessRate: real,
    lastChecked: int,
    resolverHealth: ResolverHealth)

  /**
   * The fields of a query pattern that the detector creates and updates; the
   * other fields of the declared shape are never assigned.
   */
  datatype Pattern = Pattern(
    hourlyDistribution: seq<int>,
    averageQueryRate: real,
    commonRecordTypes: OMap<string, int>,
    commonResponses: OMap<string, int>,
    failureRates: OMap<string, real>)

  /** `m.get(k) || 0`. */
  function CountOf(m: OMap<string, int>, k: string): int
  {
    match Get(m, k)
    case None => 0
    case Some(v) => v
  }

  function RateOf(m: OMap<string, real>, k: string): real
  {
    match Get(m, k)
    case None => 0.0
    case Some(v) => v
  }
}
