// The network risk scorer of src/services/networkSecurity.ts: flag weights,
// connection-quality surcharges over the current user's connection history,
// the recommendation list and the averaged connection metrics.

module NetworkSecurity {
  import opened Common

  datatype ThreatIntel = ThreatIntel(maliciousActivity: bool, lastReportedAt: Option<string>, threatTypes: seq<string>)

  /** What `gatherNetworkInfo` resolves to; the probes behind it are not modelled. */
  datatype NetworkInfo = NetworkInfo(
    ip: string,
    isp: Option<string>,
    asn: Option<string>,
    vpnDetected: bool,
    proxyDetected: bool,
    torDetected: bool,
    datacenterIp: bool,
    threatIntel: ThreatIntel)

  datatype ConnectionType = Wifi | Cellular | Ethernet | UnknownConnection

  /** Latency in milliseconds and packet loss in percent. */
  datatype ConnectionMetrics = ConnectionMetrics(
    latency: real,
    packetLoss: real,
    connectionType: Option<ConnectionType>,
    signalStrength: Option<real>,
    bandwidth: Option<real>)

  const MaxMetricsHistory := 100

  // ---------------------------------------------------------------------
  // Averages

  function SumLatency(ms: seq<ConnectionMetrics>): real
  {
    if ms == [] then 0.0 else SumLatency(ms[..|ms| - 1]) + ms[|ms| - 1].latency
  }

  function SumPacketLoss(ms: seq<ConnectionMetrics>): real
  {
    if ms == [] then 0.0 else SumPacketLoss(ms[..|ms| - 1]) + ms[|ms| - 1].packetLoss
  }

  function AverageLatency(ms: seq<ConnectionMetrics>): real
    requires ms != []
  {
    SumLatency(ms) / |ms| as real
  }

  function AveragePacketLoss(ms: seq<ConnectionMetrics>): real
    requires ms != []
  {
    SumPacketLoss(ms) / |ms| as real
  }

  // ---------------------------------------------------------------------
  // calculateNetworkRiskScore

  /** The weights of the detected flags: VPN 20, proxy 15, Tor 25, datacenter 10, malicious activity 30. */
  function FlagScore(info: NetworkInfo): (s: int)
    ensures 0 <= s <= 100
  {
    (if info.vpnDetected then 20 else 0) + (if info.proxyDetected then 15 else 0) +
    (if info.torDetected then 25 else 0) + (if info.datacenterIp then 10 else 0) +
    (if info.threatIntel.maliciousActivity then 30 else 0)
  }

  /** The connection surcharges: 5 above 200 ms and 10 more above 500 ms; 5 above 5 % loss and 10 more above 15 %. */
  function QualityScore(ms: seq<ConnectionMetrics>): (s: int)
    ensures 0 <= s <= 30
  {
    if ms == [] then 0
    else
      var latency := AverageLatency(ms);
      var loss := AveragePacketLoss(ms);
      (if latency > 200.0 then 5 else 0) + (if latency > 500.0 then 10 else 0) +
      (if loss > 5.0 then 5 else 0) + (if loss > 15.0 then 10 else 0)
  }

  /** `calculateNetworkRiskScore` over a given connection history. */
  function RiskScore(info: NetworkInfo, ms: seq<ConnectionMetrics>): (s: int)
    ensures 0 <= s <= 100
    ensures ms == [] ==> s == FlagScore(info)
  {
    MinInt(100, FlagScore(info) + QualityScore(ms))
  }

  /** A slow connection (above 500 ms on average) costs the full 15 points of latency surcharge. */
  lemma SlowConnectionSurcharge(ms: seq<ConnectionMetrics>)
    requires ms != [] && AverageLatency(ms) > 500.0 && AveragePacketLoss(ms) <= 5.0
    ensures QualityScore(ms) == 15
  {
  }

  // ---------------------------------------------------------------------
  // generateRecommendations

  const HighRiskAdvice := "High-risk network detected. Additional authentication required."
  const TrustedNetworkAdvice := "Consider using a trusted network connection."
  const VpnAdvice := "VPN usage detected. Verify your identity through additional means."
  const ProxyAdvice := "Proxy detected. This may impact security and performance."
  const TorAdvice := "Tor network detected. Access may be restricted."
  const ThreatAdvice := "Security threats detected from this network. Please use caution."
  const LatencyAdvice := "High network latency detected. This may impact security features."
  const PacketLossAdvice := "Significant packet loss detected. Consider using a more stable connection."

  /** Every message `generateRecommendations` can push, in push order. */
  const NetworkAdvices: seq<string> :=
    [HighRiskAdvice, TrustedNetworkAdvice, VpnAdvice, ProxyAdvice, TorAdvice, ThreatAdvice, LatencyAdvice, PacketLossAdvice]

  /** The messages differ pairwise: no two have the same length. */
  lemma NetworkAdvicesDistinct()
    ensures NoDuplicates(NetworkAdvices)
  {
    assert |HighRiskAdvice| == 63 && |TrustedNetworkAdvice| == 44 && |VpnAdvice| == 66 && |ProxyAdvice| == 57;
    assert |TorAdvice| == 47 && |ThreatAdvice| == 64 && |LatencyAdvice| == 65 && |PacketLossAdvice| == 74;
  }

  /**
   * The test guarding each message, in push order; the two high-risk
   * messages share one test, and the connection tests need a history.
   */
  function AdviceConditions(info: NetworkInfo, riskScore: int, ms: seq<ConnectionMetrics>): (c: seq<bool>)
    ensures |c| == |NetworkAdvices|
  {
    [riskScore >= 80, riskScore >= 80, info.vpnDetected, info.proxyDetected, info.torDetected,
     info.threatIntel.maliciousActivity, ms != [] && AverageLatency(ms) > 500.0,
     ms != [] && AveragePacketLoss(ms) > 15.0]
  }

  /** `generateRecommendations` over a given connection history. */
  function Recommendations(info: NetworkInfo, riskScore: int, ms: seq<ConnectionMetrics>): seq<string>
  {
    Selected(NetworkAdvices, AdviceConditions(info, riskScore, ms))
  }

  /** A message is recommended exactly when its test holds; no message is repeated. */
  lemma RecommendationsExactly(info: NetworkInfo, riskScore: int, ms: seq<ConnectionMetrics>, k: nat)
    requires k < |NetworkAdvices|
    ensures var r := Recommendations(info, riskScore, ms);
      (NetworkAdvices[k] in r <==> AdviceConditions(info, riskScore, ms)[k]) &&
      (forall m :: m in r ==> m in NetworkAdvices) && NoDuplicates(r)
  {
    var c := AdviceConditions(info, riskScore, ms);
    NetworkAdvicesDistinct();
    SelectedMembers(NetworkAdvices, c, NetworkAdvices[k]);
    SelectedNoDuplicates(NetworkAdvices, c);
    forall m | m in Recommendations(info, riskScore, ms) ensures m in NetworkAdvices {
      SelectedMembers(NetworkAdvices, c, m);
    }
  }

  /** Whether the address belongs to a datacenter adds no message of its own. */
  lemma DatacenterHasNoAdvice(info: NetworkInfo, riskScore: int, ms: seq<ConnectionMetrics>)
    ensures Recommendations(info.(datacenterIp := !info.datacenterIp), riskScore, ms) == Recommendations(info, riskScore, ms)
  {
    assert AdviceConditions(info.(datacenterIp := !info.datacenterIp), riskScore, ms) == AdviceConditions(info, riskScore, ms);
  }

  // ---------------------------------------------------------------------
  // measurePacketLoss and getNetworkMetrics

  function SlowCount(ms: seq<ConnectionMetrics>): (n: nat)
    ensures n <= |ms|
  {
    if ms == [] then 0 else SlowCount(ms[..|ms| - 1]) + (if ms[|ms| - 1].latency > 500.0 then 1 else 0)
  }

  /** `measurePacketLoss` over a given history: the share of samples above 500 ms, in percent. */
  function PacketLoss(ms: seq<ConnectionMetrics>): (r: real)
    ensures 0.0 <= r <= 100.0
    ensures |ms| < 2 ==> r == 0.0
  {
    if |ms| < 2 then 0.0
    else
      var share := SlowCount(ms) as real / |ms| as real;
      assert share <= 1.0 by { DivAtMostOne(SlowCount(ms) as real, |ms| as real); }
      share * 100.0
  }

  lemma DivAtMostOne(a: real, b: real)
    requires 0.0 <= a <= b && b > 0.0
    ensures 0.0 <= a / b <= 1.0
  {
  }

  datatype ConnectionQuality = Good | Fair | Poor

  datatype NetworkMetrics = NetworkMetrics(latency: real, packetLoss: real, connectionQuality: ConnectionQuality)

  /** `getNetworkMetrics` over a given history. */
  function MetricsOf(ms: seq<ConnectionMetrics>): (m: NetworkMetrics)
    ensures ms == [] ==> m == NetworkMetrics(0.0, 0.0, Good)
    ensures ms != [] ==> m.latency == AverageLatency(ms) && m.packetLoss == AveragePacketLoss(ms)
    ensures m.connectionQuality == Poor <==> m.latency > 500.0 || m.packetLoss > 15.0
    ensures m.connectionQuality == Fair <==> !(m.latency > 500.0 || m.packetLoss > 15.0) && (m.latency > 200.0 || m.packetLoss > 5.0)
  {
    if ms == [] then NetworkMetrics(0.0, 0.0, Good)
    else
      var latency := AverageLatency(ms);
      var loss := AveragePacketLoss(ms);
      var quality := if latency > 500.0 || loss > 15.0 then Poor else if latency > 200.0 || loss > 5.0 then Fair else Good;
      NetworkMetrics(latency, loss, quality)
  }

  // ---------------------------------------------------------------------
  // The service

  /** `getCurrentUserId` is a placeholder that always answers `null`. */
  function CurrentUserId(): Option<string>
  {
    None
  }

  datatype NetworkAssessment = NetworkAssessment(networkInfo: NetworkInfo, riskScore: int, recommendations: seq<string>)

  class NetworkSecurityService {
    var connectionMetrics: map<string, seq<ConnectionMetrics>>

    ghost predicate Valid()
      reads this
    {
      forall u :: u in connectionMetrics ==> |connectionMetrics[u]| <= MaxMetricsHistory
    }

    constructor ()
      ensures Valid() && connectionMetrics == map[]
    {
      connectionMetrics := map[];
    }

    /** The history `getRecentConnectionMetrics` would return for a given user. */
    function HistoryOf(userId: Option<string>): (ms: seq<ConnectionMetrics>)
      reads this
      ensures userId.None? ==> ms == []
      ensures userId.Some? && userId.value !in connectionMetrics ==> ms == []
    {
      if userId.Some? && userId.value in connectionMetrics then connectionMetrics[userId.value] else []
    }

    /** `getRecentConnectionMetrics`: without a current user, always empty. */
    function RecentConnectionMetrics(): (ms: seq<ConnectionMetrics>)
      reads this
      ensures ms == []
    {
      HistoryOf(CurrentUserId())
    }

    /**
     * The body of `storeConnectionMetrics` for a given user id: nothing
     * without one, otherwise the newest 100 samples, oldest first.
     */
    method StoreForUser(userId: Option<string>, metrics: ConnectionMetrics)
      requires Valid()
      modifies this
      ensures Valid()
      ensures userId.None? ==> connectionMetrics == old(connectionMetrics)
      ensures userId.Some? ==> var h := old(HistoryOf(userId)) + [metrics];
        connectionMetrics == old(connectionMetrics)[userId.value := if |h| > MaxMetricsHistory then h[1..] else h]
    {
      if userId.None? {
        return;
      }
      var userMetrics := if userId.value in connectionMetrics then connectionMetrics[userId.value] else [];
      userMetrics := userMetrics + [metrics];
      if |userMetrics| > MaxMetricsHistory {
        userMetrics := userMetrics[1..];
      }
      connectionMetrics := connectionMetrics[userId.value := userMetrics];
    }

    /** `storeConnectionMetrics`: there is never a current user, so nothing is stored. */
    method StoreConnectionMetrics(metrics: ConnectionMetrics)
      requires Valid()
      modifies this
      ensures Valid()
      ensures connectionMetrics == old(connectionMetrics)
    {
      StoreForUser(CurrentUserId(), metrics);
    }

    /** `handleConnectionChange`, with the measured latency and the connection's fields as inputs. */
    method HandleConnectionChange(latency: real, connectionType: Option<ConnectionType>,
                                  signalStrength: Option<real>, bandwidth: Option<real>)
      requires Valid()
      modifies this
      ensures Valid()
      ensures connectionMetrics == old(connectionMetrics)
    {
      var metrics := ConnectionMetrics(latency, MeasurePacketLoss(),
                                       if connectionType.Some? then connectionType else Some(UnknownConnection),
                                       signalStrength, bandwidth);
      StoreConnectionMetrics(metrics);
    }

    /** `measurePacketLoss`: with an empty history it is always 0. */
    function MeasurePacketLoss(): (r: real)
      reads this
      ensures r == 0.0
    {
      PacketLoss(RecentConnectionMetrics())
    }

    /** `calculateNetworkRiskScore`: the connection surcharges never apply, so the score is the flag weights. */
    function CalculateNetworkRiskScore(info: NetworkInfo): (s: int)
      reads this
      ensures s == FlagScore(info)
    {
      RiskScore(info, RecentConnectionMetrics())
    }

    /** `getNetworkMetrics`: zeros and a good connection. */
    function GetNetworkMetrics(): (m: NetworkMetrics)
      reads this
      ensures m == NetworkMetrics(0.0, 0.0, Good)
    {
      MetricsOf(RecentConnectionMetrics())
    }

    /** `performNetworkAssessment`, with the gathered network information as input. */
    function PerformNetworkAssessment(info: NetworkInfo): (a: NetworkAssessment)
      reads this
      ensures a.networkInfo == info && a.riskScore == FlagScore(info)
      ensures a.recommendations == Recommendations(info, FlagScore(info), [])
    {
      var score := CalculateNetworkRiskScore(info);
      NetworkAssessment(info, score, Recommendations(info, score, RecentConnectionMetrics()))
    }
  }

  /** Without threat intelligence the flags add up to at most 70, so a score of 80 or more needs it. */
  lemma HighRiskNeedsThreatIntel(info: NetworkInfo)
    requires FlagScore(info) >= 80
    ensures info.threatIntel.maliciousActivity
  {
  }
}
