// The device trust scorer of src/hooks/useDeviceTrust.ts: the trust factors
// and their weights, the risk-point ladder, the unusual-activity messages and
// the known-device list kept in local storage. The browser probes, the clock,
// the geolocation result and the distance between two points are inputs.

module DeviceTrust {
  import opened Common

  datatype RiskLevel = Low | Medium | High

  datatype Factors = Factors(
    knownDevice: bool,
    recentActivity: bool,
    locationMatch: bool,
    platformSecurity: bool,
    browserSecurity: bool,
    networkSecurity: bool,
    timePatternMatch: bool,
    deviceIntegrity: bool,
    riskLevel: RiskLevel)

  datatype Metadata = Metadata(lastLoginTime: int, loginCount: int, failedAttempts: int, unusualActivityFlags: seq<string>)

  datatype TrustScore = TrustScore(score: int, factors: Factors, metadata: Metadata)

  /** A geolocation fix; the time is in milliseconds. */
  datatype Coordinates = Coordinates(latitude: real, longitude: real, accuracy: real, timestamp: int)

  datatype NetworkInfo = NetworkInfo(ip: Option<string>, vpnDetected: bool, isp: Option<string>)

  datatype RiskFactors = RiskFactors(
    unusualLoginTime: bool,
    unusualLocation: bool,
    rapidLocationChange: bool,
    multipleFailedAttempts: bool,
    suspiciousIpActivity: bool)

  datatype DeviceInfo = DeviceInfo(
    deviceId: string,
    browser: string,
    os: string,
    device: string,
    lastSeen: int,
    loginTimes: seq<int>,
    usualLoginHours: seq<int>,
    networkInfo: NetworkInfo,
    location: Option<Coordinates>,
    riskFactors: RiskFactors)

  /** What the browser reports at the time of a computation. */
  datatype Probe = Probe(
    deviceId: string,
    now: int,
    currentHour: int,
    ip: Option<string>,
    position: Option<Coordinates>,
    platformSecurity: bool,
    browserSecurity: bool,
    deviceIntegrity: bool)

  const WeekMs := 7 * 24 * 60 * 60 * 1000

  /** The state the hook starts in. */
  const InitialTrustScore := TrustScore(0, Factors(false, false, false, false, false, false, false, false, Medium), Metadata(0, 0, 0, []))

  // ---------------------------------------------------------------------
  // checkTimePattern

  /** How many of the login times fall in a given hour. */
  function HourCount(times: seq<int>, hour: int, hourOf: int -> int): (n: nat)
    ensures n <= |times|
  {
    if times == [] then 0
    else HourCount(times[..|times| - 1], hour, hourOf) + (if hourOf(times[|times| - 1]) == hour then 1 else 0)
  }

  /** `checkTimePattern`: true with fewer than five logins, otherwise whether the hour's count is positive. */
  function CheckTimePattern(loginTimes: seq<int>, currentHour: int, hourOf: int -> int): bool
  {
    |loginTimes| < 5 || HourCount(loginTimes, currentHour, hourOf) > 0
  }

  lemma {:induction false} HourCountPositive(times: seq<int>, hour: int, hourOf: int -> int)
    ensures HourCount(times, hour, hourOf) > 0 <==> exists i :: 0 <= i < |times| && hourOf(times[i]) == hour
  {
    if times != [] {
      var init := times[..|times| - 1];
      HourCountPositive(init, hour, hourOf);
      if exists i :: 0 <= i < |init| && hourOf(init[i]) == hour {
        var i :| 0 <= i < |init| && hourOf(init[i]) == hour;
        assert times[i] == init[i];
      }
      if exists i :: 0 <= i < |times| && hourOf(times[i]) == hour {
        var i :| 0 <= i < |times| && hourOf(times[i]) == hour;
        if i < |init| { assert init[i] == times[i]; }
      }
    }
  }

  /** With five logins or more, the time matches exactly when some login was in the current hour. */
  lemma TimePatternMatches(loginTimes: seq<int>, currentHour: int, hourOf: int -> int)
    ensures CheckTimePattern(loginTimes, currentHour, hourOf) <==>
      |loginTimes| < 5 || exists i :: 0 <= i < |loginTimes| && hourOf(loginTimes[i]) == currentHour
  {
    HourCountPositive(loginTimes, currentHour, hourOf);
  }

  // ---------------------------------------------------------------------
  // assessRiskLevel

  /** The risk points: 2 unknown device, 2 no location match, 1 time mismatch, 2 unusual location, 3 rapid change, 3 failed attempts, 1 VPN. */
  function RiskPoints(f: Factors, d: DeviceInfo): (p: int)
    ensures 0 <= p <= 14
  {
    (if !f.knownDevice then 2 else 0) + (if !f.locationMatch then 2 else 0) + (if !f.timePatternMatch then 1 else 0) +
    (if d.riskFactors.unusualLocation then 2 else 0) + (if d.riskFactors.rapidLocationChange then 3 else 0) +
    (if d.riskFactors.multipleFailedAttempts then 3 else 0) + (if d.networkInfo.vpnDetected then 1 else 0)
  }

  function LevelOf(points: int): (l: RiskLevel)
    ensures l == High <==> points >= 6
    ensures l == Medium <==> 3 <= points < 6
  {
    if points >= 6 then High else if points >= 3 then Medium else Low
  }

  /** `assessRiskLevel`. */
  function AssessRiskLevel(f: Factors, d: DeviceInfo): RiskLevel
  {
    LevelOf(RiskPoints(f, d))
  }

  /** The risk level never falls when the risk points rise. */
  lemma LevelMonotone(p: int, q: int)
    requires p <= q
    ensures LevelOf(p) == High ==> LevelOf(q) == High
    ensures LevelOf(p) == Medium ==> LevelOf(q) != Low
  {
  }

  // ---------------------------------------------------------------------
  // The trust score

  /** The weighted sum: 20 known device, 15 recent activity, 15 location match, 10 for each of the other five. */
  function TrustScoreOf(f: Factors): (s: int)
  {
    (if f.knownDevice then 20 else 0) + (if f.recentActivity then 15 else 0) + (if f.locationMatch then 15 else 0) +
    (if f.platformSecurity then 10 else 0) + (if f.browserSecurity then 10 else 0) + (if f.networkSecurity then 10 else 0) +
    (if f.timePatternMatch then 10 else 0) + (if f.deviceIntegrity then 10 else 0)
  }

  /** The weights add up to 100: the score is a multiple of 5 in [0, 100], and 100 exactly when every factor holds. */
  lemma TrustScoreRange(f: Factors)
    ensures 0 <= TrustScoreOf(f) <= 100 && TrustScoreOf(f) % 5 == 0
    ensures TrustScoreOf(f) == 100 <==>
      f.knownDevice && f.recentActivity && f.locationMatch && f.platformSecurity && f.browserSecurity &&
      f.networkSecurity && f.timePatternMatch && f.deviceIntegrity
  {
  }

  // ---------------------------------------------------------------------
  // getUnusualActivityFlags

  const NewDeviceFlag := "New device detected"
  const UnusualLocationFlag := "Unusual location"
  const UnusualTimeFlag := "Unusual login time"
  const RapidChangeFlag := "Rapid location change"
  const FailedAttemptsFlag := "Multiple failed attempts"
  const VpnFlag := "VPN detected"
  const IntegrityFlag := "Device integrity check failed"

  const ActivityFlags: seq<string> :=
    [NewDeviceFlag, UnusualLocationFlag, UnusualTimeFlag, RapidChangeFlag, FailedAttemptsFlag, VpnFlag, IntegrityFlag]

  /** The messages differ pairwise: no two have the same length. */
  lemma ActivityFlagsDistinct()
    ensures NoDuplicates(ActivityFlags)
  {
    assert |NewDeviceFlag| == 19 && |UnusualLocationFlag| == 16 && |UnusualTimeFlag| == 18 && |RapidChangeFlag| == 21;
    assert |FailedAttemptsFlag| == 24 && |VpnFlag| == 12 && |IntegrityFlag| == 29;
  }

  /** The test guarding each message, in push order. */
  function FlagConditions(f: Factors, d: DeviceInfo): (c: seq<bool>)
    ensures |c| == |ActivityFlags|
  {
    [!f.knownDevice, !f.locationMatch, !f.timePatternMatch, d.riskFactors.rapidLocationChange,
     d.riskFactors.multipleFailedAttempts, d.networkInfo.vpnDetected, !f.deviceIntegrity]
  }

  /** `getUnusualActivityFlags`. */
  function UnusualActivityFlags(f: Factors, d: DeviceInfo): seq<string>
  {
    Selected(ActivityFlags, FlagConditions(f, d))
  }

  /** A message is emitted exactly when its test holds, never twice, and only one of the seven. */
  lemma UnusualActivityFlagsExactly(f: Factors, d: DeviceInfo, k: nat)
    requires k < |ActivityFlags|
    ensures var r := UnusualActivityFlags(f, d);
      (ActivityFlags[k] in r <==> FlagConditions(f, d)[k]) &&
      (forall m :: m in r ==> m in ActivityFlags) && NoDuplicates(r) && |r| <= 7
  {
    var c := FlagConditions(f, d);
    ActivityFlagsDistinct();
    SelectedMembers(ActivityFlags, c, ActivityFlags[k]);
    SelectedNoDuplicates(ActivityFlags, c);
    forall m | m in UnusualActivityFlags(f, d) ensures m in ActivityFlags {
      SelectedMembers(ActivityFlags, c, m);
    }
  }

  // ---------------------------------------------------------------------
  // calculateTrustScore

  /** `knownDevices.find(d => d.deviceId === id)`. */
  function FindDevice(devices: seq<DeviceInfo>, id: string): (r: Option<DeviceInfo>)
    ensures r.Some? ==> r.value in devices && r.value.deviceId == id
    ensures r.None? <==> forall i :: 0 <= i < |devices| ==> devices[i].deviceId != id
  {
    if devices == [] then None
    else if devices[0].deviceId == id then Some(devices[0])
    else
      assert forall i :: 1 <= i < |devices| ==> devices[i] == devices[1..][i - 1];
      FindDevice(devices[1..], id)
  }

  /** The stored locations, in order, skipping devices without one. */
  function Locations(devices: seq<DeviceInfo>): (r: seq<Coordinates>)
    ensures |r| <= |devices|
  {
    if devices == [] then []
    else (if devices[0].location.Some? then [devices[0].location.value] else []) + Locations(devices[1..])
  }

  /**
   * `checkLocationAnomaly`: compares with the last stored location. A move
   * in no time gives an infinite speed when the distance is positive and
   * `NaN` (never above the limit) when it is zero.
   */
  function CheckLocationAnomaly(current: Coordinates, previous: seq<Coordinates>,
                                distance: (Coordinates, Coordinates) -> real): bool
  {
    if previous == [] then false
    else
      var recent := previous[|previous| - 1];
      var timeDiff := current.timestamp - recent.timestamp;
      var d := distance(current, recent);
      if timeDiff == 0 then d > 0.0 else (d / timeDiff as real) * 3600.0 > 500.0
  }

  /**
   * Only the last stored location counts: a later move is flagged exactly
   * when it covers more than 500 distance units per hour, a move in no time
   * exactly when it covers any distance, and a move back in time never
   * while distances are not negative.
   */
  lemma LocationAnomalyIffTooFast(current: Coordinates, previous: seq<Coordinates>,
                                  distance: (Coordinates, Coordinates) -> real)
    requires previous != []
    ensures var recent := previous[|previous| - 1];
      var t, d := current.timestamp - recent.timestamp, distance(current, recent);
      && CheckLocationAnomaly(current, previous, distance) == CheckLocationAnomaly(current, [recent], distance)
      && (t > 0 ==> (CheckLocationAnomaly(current, previous, distance) <==> d * 3600.0 > 500.0 * t as real))
      && (t == 0 ==> (CheckLocationAnomaly(current, previous, distance) <==> d > 0.0))
      && (t < 0 && d >= 0.0 ==> !CheckLocationAnomaly(current, previous, distance))
  {
    var recent := previous[|previous| - 1];
    var t, d := current.timestamp - recent.timestamp, distance(current, recent);
    if t > 0 {
      SpeedAbove(d, t as real);
    } else if t < 0 && d >= 0.0 {
      NegativeIntervalSpeed(d, t as real);
    }
  }

  /** Over a positive interval, the speed test is a comparison of distance and interval. */
  lemma SpeedAbove(d: real, tr: real)
    requires tr > 0.0
    ensures (d / tr) * 3600.0 > 500.0 <==> d * 3600.0 > 500.0 * tr
  {
    var v := d / tr;
    assert v * tr == d;
    if v * 3600.0 > 500.0 {
      PositiveProduct(v * 3600.0 - 500.0, tr);
    }
    if d * 3600.0 > 500.0 * tr {
      if v * 3600.0 <= 500.0 {
        NonNegativeProduct(500.0 - v * 3600.0, tr);
      }
    }
  }

  /** Over a negative interval, a non-negative distance gives a speed of at most zero. */
  lemma NegativeIntervalSpeed(d: real, tr: real)
    requires tr < 0.0 && d >= 0.0
    ensures (d / tr) * 3600.0 <= 0.0
  {
    var v := d / tr;
    assert v * tr == d;
    if v > 0.0 {
      PositiveProduct(v, -tr);
    }
  }

  lemma PositiveProduct(a: real, b: real)
    requires a > 0.0 && b > 0.0
    ensures a * b > 0.0
  {
  }

  lemma NonNegativeProduct(a: real, b: real)
    requires a >= 0.0 && b > 0.0
    ensures a * b >= 0.0
  {
  }

  /** `detectVPN`: a placeholder that never detects a VPN. */
  function DetectVpn(ip: Option<string>): (n: NetworkInfo)
    ensures !n.vpnDetected
  {
    NetworkInfo(ip, false, None)
  }

  /** The factors before the risk level is set. */
  function BaseFactors(current: Option<DeviceInfo>, probe: Probe, network: NetworkInfo,
                       hourOf: int -> int, distance: (Coordinates, Coordinates) -> real): (f: Factors)
    ensures f.knownDevice <==> current.Some?
    ensures f.recentActivity <==> current.Some? && probe.now - current.value.lastSeen < WeekMs
    ensures f.locationMatch <==>
      probe.position.Some? && current.Some? && current.value.location.Some? &&
      distance(probe.position.value, current.value.location.value) < 100.0
    ensures f.timePatternMatch <==> current.None? || CheckTimePattern(current.value.loginTimes, probe.currentHour, hourOf)
  {
    Factors(
      current.Some?,
      current.Some? && probe.now - current.value.lastSeen < WeekMs,
      probe.position.Some? && current.Some? && current.value.location.Some? &&
        distance(probe.position.value, current.value.location.value) < 100.0,
      probe.platformSecurity,
      probe.browserSecurity,
      !network.vpnDetected,
      current.None? || CheckTimePattern(current.value.loginTimes, probe.currentHour, hourOf),
      probe.deviceIntegrity,
      Low)
  }

  /** The risk flags `calculateTrustScore` attaches: an unusual location is the absence of a location match. */
  function RiskFactorsOf(f: Factors, devices: seq<DeviceInfo>, probe: Probe, network: NetworkInfo,
                         failedAttempts: int, distance: (Coordinates, Coordinates) -> real): RiskFactors
  {
    RiskFactors(
      !f.timePatternMatch,
      !f.locationMatch,
      probe.position.Some? && CheckLocationAnomaly(probe.position.value, Locations(devices), distance),
      failedAttempts > 3,
      network.vpnDetected)
  }

  /** The record `calculateTrustScore` computes from the previous one, the stored devices and the probes. */
  function NextTrustScore(previous: TrustScore, devices: seq<DeviceInfo>, probe: Probe,
                          hourOf: int -> int, distance: (Coordinates, Coordinates) -> real): (t: TrustScore)
    ensures t.metadata.loginCount == previous.metadata.loginCount + 1
    ensures t.metadata.failedAttempts == previous.metadata.failedAttempts
    ensures t.metadata.lastLoginTime == probe.now
  {
    var current := FindDevice(devices, probe.deviceId);
    var network := DetectVpn(probe.ip);
    var base := BaseFactors(current, probe, network, hourOf, distance);
    var rf := RiskFactorsOf(base, devices, probe, network, previous.metadata.failedAttempts, distance);
    var info := DeviceInfo(probe.deviceId, "", "", "", 0, [], [], network, None, rf);
    var f := base.(riskLevel := AssessRiskLevel(base, info));
    TrustScore(TrustScoreOf(f), f, Metadata(probe.now, previous.metadata.loginCount + 1,
                                            previous.metadata.failedAttempts, UnusualActivityFlags(f, info)))
  }

  /**
   * A location mismatch costs four risk points, since it also counts as an
   * unusual location; a device that is not registered therefore always
   * carries high risk.
   */
  lemma UnregisteredIsHighRisk(previous: TrustScore, devices: seq<DeviceInfo>, probe: Probe,
                               hourOf: int -> int, distance: (Coordinates, Coordinates) -> real)
    requires FindDevice(devices, probe.deviceId).None?
    ensures NextTrustScore(previous, devices, probe, hourOf, distance).factors.riskLevel == High
    ensures NextTrustScore(previous, devices, probe, hourOf, distance).score <= 50
  {
  }

  /** Clearing the location match also raises the unusual-location flag: four risk points in all. */
  lemma LocationMismatchCostsFour(f: Factors, d: DeviceInfo)
    ensures RiskPoints(f.(locationMatch := false), d.(riskFactors := d.riskFactors.(unusualLocation := true))) ==
            RiskPoints(f.(locationMatch := true), d.(riskFactors := d.riskFactors.(unusualLocation := false))) + 4
  {
  }

  /**
   * The factors of a computed record: the score is their weighted sum, the
   * device is known exactly when the list holds its id, recent activity means
   * seen less than a week ago, a location match needs both a position and a
   * stored location, and an unknown device matches the time pattern.
   */
  lemma TrustScoreFactors(previous: TrustScore, devices: seq<DeviceInfo>, probe: Probe,
                          hourOf: int -> int, distance: (Coordinates, Coordinates) -> real)
    ensures var t := NextTrustScore(previous, devices, probe, hourOf, distance);
      var cur := FindDevice(devices, probe.deviceId);
      t.score == TrustScoreOf(t.factors) && 0 <= t.score <= 100 && t.score % 5 == 0 &&
      (t.factors.knownDevice <==> exists i :: 0 <= i < |devices| && devices[i].deviceId == probe.deviceId) &&
      (t.factors.recentActivity <==> cur.Some? && probe.now - cur.value.lastSeen < WeekMs) &&
      (t.factors.locationMatch ==> probe.position.Some? && cur.Some? && cur.value.location.Some?) &&
      (cur.None? ==> t.factors.timePatternMatch && !t.factors.locationMatch)
  {
    TrustScoreRange(NextTrustScore(previous, devices, probe, hourOf, distance).factors);
  }

  /**
   * Nothing counts failed attempts, so from the initial state the failed
   * attempts stay 0, the VPN is never detected, and neither of their
   * messages is ever emitted.
   */
  lemma NoFailedAttemptsOrVpn(previous: TrustScore, devices: seq<DeviceInfo>, probe: Probe,
                              hourOf: int -> int, distance: (Coordinates, Coordinates) -> real)
    requires previous.metadata.failedAttempts == 0
    ensures var t := NextTrustScore(previous, devices, probe, hourOf, distance);
      t.metadata.failedAttempts == 0 && t.factors.networkSecurity &&
      FailedAttemptsFlag !in t.metadata.unusualActivityFlags && VpnFlag !in t.metadata.unusualActivityFlags
  {
    var t := NextTrustScore(previous, devices, probe, hourOf, distance);
    var current := FindDevice(devices, probe.deviceId);
    var network := DetectVpn(probe.ip);
    var base := BaseFactors(current, probe, network, hourOf, distance);
    var rf := RiskFactorsOf(base, devices, probe, network, 0, distance);
    var info := DeviceInfo(probe.deviceId, "", "", "", 0, [], [], network, None, rf);
    var f := base.(riskLevel := AssessRiskLevel(base, info));
    UnusualActivityFlagsExactly(f, info, 4);
    UnusualActivityFlagsExactly(f, info, 5);
  }

  // ---------------------------------------------------------------------
  // The login count

  /** The records of successive calls that each start from the record before, as intended. */
  function Replayed(start: TrustScore, calls: seq<(seq<DeviceInfo>, Probe)>,
                    hourOf: int -> int, distance: (Coordinates, Coordinates) -> real): TrustScore
    decreases |calls|
  {
    if calls == [] then start
    else
      var last := calls[|calls| - 1];
      NextTrustScore(Replayed(start, calls[..|calls| - 1], hourOf, distance), last.0, last.1, hourOf, distance)
  }

  /** Chained from the record before, the login count counts the calls. */
  lemma {:induction false} ReplayedCountsLogins(start: TrustScore, calls: seq<(seq<DeviceInfo>, Probe)>,
                                                hourOf: int -> int, distance: (Coordinates, Coordinates) -> real)
    ensures Replayed(start, calls, hourOf, distance).metadata.loginCount == start.metadata.loginCount + |calls|
  {
    if calls != [] {
      ReplayedCountsLogins(start, calls[..|calls| - 1], hourOf, distance);
    }
  }

  /**
   * As written, two calls (the mount effect, then the recomputation after a
   * registration) both report one login, since each starts from the initial
   * record; chaining the records would report two.
   */
  lemma StaleLoginCount(first: (seq<DeviceInfo>, Probe), second: (seq<DeviceInfo>, Probe),
                        hourOf: int -> int, distance: (Coordinates, Coordinates) -> real)
    ensures NextTrustScore(InitialTrustScore, first.0, first.1, hourOf, distance).metadata.loginCount == 1
    ensures NextTrustScore(InitialTrustScore, second.0, second.1, hourOf, distance).metadata.loginCount == 1
    ensures Replayed(InitialTrustScore, [first, second], hourOf, distance).metadata.loginCount == 2
  {
    ReplayedCountsLogins(InitialTrustScore, [first, second], hourOf, distance);
  }

  // ---------------------------------------------------------------------
  // registerDevice

  /** The list without the entries of one id, in order. */
  function WithoutDevice(devices: seq<DeviceInfo>, id: string): (r: seq<DeviceInfo>)
    ensures |r| <= |devices|
    ensures forall d :: d in r <==> d in devices && d.deviceId != id
  {
    if devices == [] then []
    else if devices[0].deviceId == id then WithoutDevice(devices[1..], id)
    else [devices[0]] + WithoutDevice(devices[1..], id)
  }

  /** The entry `registerDevice` stores: never seen logging in, no risk flags. */
  function NewDevice(id: string, browserName: Option<string>, osName: Option<string>, vendor: Option<string>,
                     now: int, position: Option<Coordinates>): (d: DeviceInfo)
    ensures d.deviceId == id && d.lastSeen == now && d.loginTimes == [] && d.location == position
  {
    DeviceInfo(
      id,
      if browserName.Some? && browserName.value != "" then browserName.value else "Unknown",
      if osName.Some? && osName.value != "" then osName.value else "Unknown",
      if vendor.Some? && vendor.value != "" then vendor.value else "Desktop",
      now, [], [], NetworkInfo(None, false, None), position,
      RiskFactors(false, false, false, false, false))
  }

  /** No two entries share an id. */
  predicate DistinctIds(devices: seq<DeviceInfo>)
  {
    forall i, j :: 0 <= i < j < |devices| ==> devices[i].deviceId != devices[j].deviceId
  }

  /** The list after `registerDevice`: the other entries in order, then the new one. */
  function Registered(devices: seq<DeviceInfo>, d: DeviceInfo): seq<DeviceInfo>
  {
    WithoutDevice(devices, d.deviceId) + [d]
  }

  lemma {:induction false} WithoutDeviceDistinct(devices: seq<DeviceInfo>, id: string)
    requires DistinctIds(devices)
    ensures DistinctIds(WithoutDevice(devices, id))
  {
    if devices != [] {
      var rest := devices[1..];
      assert DistinctIds(rest) by {
        forall i, j | 0 <= i < j < |rest| ensures rest[i].deviceId != rest[j].deviceId {
          assert rest[i] == devices[i + 1] && rest[j] == devices[j + 1];
        }
      }
      WithoutDeviceDistinct(rest, id);
      var w := WithoutDevice(rest, id);
      if devices[0].deviceId != id {
        forall k | 0 <= k < |w| ensures w[k].deviceId != devices[0].deviceId {
          assert w[k] in rest;
          var m :| 0 <= m < |rest| && rest[m] == w[k];
          assert devices[m + 1] == w[k];
        }
        ConsDistinct(devices[0], w);
      }
    }
  }

  /** A device whose id the list does not hold can go in front of a list without repeated ids. */
  lemma ConsDistinct(x: DeviceInfo, w: seq<DeviceInfo>)
    requires DistinctIds(w)
    requires forall k :: 0 <= k < |w| ==> w[k].deviceId != x.deviceId
    ensures DistinctIds([x] + w)
  {
    var r := [x] + w;
    forall i, j | 0 <= i < j < |r| ensures r[i].deviceId != r[j].deviceId {
      if i > 0 {
        assert r[i] == w[i - 1] && r[j] == w[j - 1];
      } else {
        assert r[j] == w[j - 1];
      }
    }
  }

  /**
   * After registration the id occurs exactly once, last; every other entry
   * is kept; and a list free of repeated ids stays free of them.
   */
  lemma RegisteredOnce(devices: seq<DeviceInfo>, d: DeviceInfo)
    ensures var r := Registered(devices, d);
      r[|r| - 1] == d && FindDevice(r, d.deviceId) == Some(d) &&
      (forall i :: 0 <= i < |r| - 1 ==> r[i].deviceId != d.deviceId) &&
      (forall e :: e in devices && e.deviceId != d.deviceId ==> e in r)
    ensures DistinctIds(devices) ==> DistinctIds(Registered(devices, d))
  {
    var r := Registered(devices, d);
    var w := WithoutDevice(devices, d.deviceId);
    assert forall i :: 0 <= i < |r| - 1 ==> r[i] == w[i] && w[i] in w;
    if DistinctIds(devices) {
      WithoutDeviceDistinct(devices, d.deviceId);
      forall i, j | 0 <= i < j < |r| ensures r[i].deviceId != r[j].deviceId {
        if j < |r| - 1 {
          assert r[i] == w[i] && r[j] == w[j];
        }
      }
    }
  }

  // ---------------------------------------------------------------------
  // The hook

  class DeviceTrustHook {
    /** The `knownDevices` entry of local storage. */
    var knownDevices: seq<DeviceInfo>
    var trustScore: TrustScore

    constructor (stored: seq<DeviceInfo>)
      ensures knownDevices == stored && trustScore == InitialTrustScore
    {
      knownDevices := stored;
      trustScore := InitialTrustScore;
    }

    /**
     * `calculateTrustScore`: the new record replaces the state; the stored
     * devices are untouched. The callback is memoised on the failed-attempt
     * count, which never leaves 0, and on three callbacks that are never
     * recreated, so it keeps reading the record of the first render: every
     * call starts from the initial record and reports one login.
     */
    method CalculateTrustScore(probe: Probe, hourOf: int -> int, distance: (Coordinates, Coordinates) -> real)
      returns (t: TrustScore)
      modifies this
      ensures t == NextTrustScore(InitialTrustScore, knownDevices, probe, hourOf, distance)
      ensures t.metadata.loginCount == 1
      ensures trustScore == t && knownDevices == old(knownDevices)
    {
      t := NextTrustScore(InitialTrustScore, knownDevices, probe, hourOf, distance);
      trustScore := t;
    }

    /** `registerDevice`, with the parsed browser fields and the geolocation result as inputs. */
    method RegisterDevice(id: string, browserName: Option<string>, osName: Option<string>, vendor: Option<string>,
                          now: int, position: Option<Coordinates>) returns (d: DeviceInfo)
      modifies this
      ensures d == NewDevice(id, browserName, osName, vendor, now, position)
      ensures knownDevices == Registered(old(knownDevices), d) && trustScore == old(trustScore)
    {
      d := NewDevice(id, browserName, osName, vendor, now, position);
      knownDevices := WithoutDevice(knownDevices, id) + [d];
    }
  }

  /** A registered device never has login times, so its time pattern always matches. */
  lemma RegisteredTimePatternMatches(devices: seq<DeviceInfo>, d: DeviceInfo, currentHour: int, hourOf: int -> int)
    requires d.loginTimes == []
    ensures CheckTimePattern(Registered(devices, d)[|Registered(devices, d)| - 1].loginTimes, currentHour, hourOf)
  {
  }
}
