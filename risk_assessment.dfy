// The login risk scorer of src/services/riskAssessment.ts: five weighted
// factors fused into a 0-100 score, a level, recommendations, and a bounded
// per-user history with an aggregate (average and regression trend).

module RiskAssessment {
  import opened Common
  import OrderedMaps

  // -------------------------------------------------------------------
  // Data model

  datatype Level = Low | Medium | High | Critical

  datatype FactorName = Location | TimePattern | DeviceSecurity | BehavioralPattern | HistoricalPattern

  datatype RiskFactor = RiskFactor(name: FactorName, weight: real, score: real, explanation: string)

  datatype Assessment = Assessment(
    score: int,
    level: Level,
    factors: seq<RiskFactor>,
    recommendations: seq<string>,
    timestamp: int)

  datatype Coordinates = Coordinates(latitude: real, longitude: real, accuracy: real)

  datatype KnownLocation = KnownLocation(lat: real, lng: real)

  datatype DeviceInfo = DeviceInfo(
    platform: string,
    browser: string,
    os: string,
    screenResolution: string,
    deviceMemory: Option<real>,
    hardwareConcurrency: int,
    touchSupport: bool)

  datatype BehavioralMetrics = BehavioralMetrics(
    typingSpeed: Option<real>,
    typingConsistency: Option<real>,
    mouseMovementPattern: Option<string>,
    interactionFrequency: Option<real>)

  datatype HistoricalData = HistoricalData(
    lastLoginTime: Option<int>,
    failedAttempts: nat,
    successfulLogins: nat,
    averageSessionDuration: Option<real>,
    commonLoginTimes: seq<int>,
    knownLocations: seq<KnownLocation>)

  datatype UserContext = UserContext(
    ipAddress: Option<string>,
    userAgent: string,
    timestamp: int,
    location: Option<Coordinates>,
    deviceInfo: DeviceInfo,
    behavioralMetrics: BehavioralMetrics,
    historicalData: HistoricalData)

  /**
   * What the service reads from its surroundings: the clock (milliseconds),
   * the local hour of a timestamp, whether the page runs in a secure
   * context, and the great-circle distance in kilometres.
   */
  datatype Env = Env(
    now: int,
    hourOf: int -> int,
    secureContext: bool,
    distance: (Coordinates, KnownLocation) -> real)

  const MaxHistoryLength := 50
  const LowThreshold := 30
  const MediumThreshold := 60
  const HighThreshold := 80

  /** A JavaScript number used as a condition: `0` is falsy. */
  predicate Truthy(x: Option<real>) { x.Some? && x.value != 0.0 }

  // -------------------------------------------------------------------
  // Levels

  function DetermineRiskLevel(score: real): (l: Level)
    ensures l == Critical <==> score >= HighThreshold as real
    ensures l == High <==> MediumThreshold as real <= score < HighThreshold as real
    ensures l == Medium <==> LowThreshold as real <= score < MediumThreshold as real
    ensures l == Low <==> score < LowThreshold as real
  {
    if score >= HighThreshold as real then Critical
    else if score >= MediumThreshold as real then High
    else if score >= LowThreshold as real then Medium
    else Low
  }

  function LevelRank(l: Level): nat
  {
    match l
    case Low => 0
    case Medium => 1
    case High => 2
    case Critical => 3
  }

  lemma LevelMonotone(a: real, b: real)
    requires a <= b
    ensures LevelRank(DetermineRiskLevel(a)) <= LevelRank(DetermineRiskLevel(b))
  {
  }

  // -------------------------------------------------------------------
  // Location factor

  /** `Math.min(...ds)` over a non-empty list. */
  function MinOf(ds: seq<real>): (m: real)
    requires |ds| > 0
    ensures m in ds
    ensures forall i :: 0 <= i < |ds| ==> m <= ds[i]
  {
    if |ds| == 1 then ds[0] else MinReal(ds[0], MinOf(ds[1..]))
  }

  function DistancesTo(loc: Coordinates, known: seq<KnownLocation>, distance: (Coordinates, KnownLocation) -> real): (ds: seq<real>)
    ensures |ds| == |known|
    ensures forall i :: 0 <= i < |known| ==> ds[i] == distance(loc, known[i])
  {
    if known == [] then [] else [distance(loc, known[0])] + DistancesTo(loc, known[1..], distance)
  }

  /** The distance bands of the location factor, in kilometres. */
  function DistanceScore(d: real): real
  {
    if d < 1.0 then 0.1
    else if d < 10.0 then 0.3
    else if d < 100.0 then 0.6
    else if d < 1000.0 then 0.8
    else 1.0
  }

  lemma DistanceScoreMonotone(d1: real, d2: real)
    requires d1 <= d2
    ensures DistanceScore(d1) <= DistanceScore(d2)
  {
  }

  function AssessLocationRisk(ctx: UserContext, env: Env): (f: RiskFactor)
    ensures f.name == Location && f.weight == 0.25
    ensures 0.1 <= f.score <= 1.0
    ensures Bounded(f)
  {
    var known := ctx.historicalData.knownLocations;
    if ctx.location.None? || known == [] then
      RiskFactor(Location, 0.25, 0.5, "Location data unavailable or no historical locations")
    else
      var minDistance := MinOf(DistancesTo(ctx.location.value, known, env.distance));
      RiskFactor(Location, 0.25, DistanceScore(minDistance),
        "Login location is " + IntToString(Round(minDistance)) + "km from nearest known location")
  }

  /**
   * The location factor is neutral (0.5) exactly when there is nothing to
   * compare; otherwise it is the band of the nearest known location.
   */
  lemma LocationScoreIsNearestBand(ctx: UserContext, env: Env)
    ensures var f := AssessLocationRisk(ctx, env);
      (f.score == 0.5 <==> ctx.location.None? || ctx.historicalData.knownLocations == []) &&
      (ctx.location.Some? && ctx.historicalData.knownLocations != [] ==>
        exists i :: 0 <= i < |ctx.historicalData.knownLocations| &&
          f.score == DistanceScore(env.distance(ctx.location.value, ctx.historicalData.knownLocations[i])) &&
          forall j :: 0 <= j < |ctx.historicalData.knownLocations| ==>
            f.score <= DistanceScore(env.distance(ctx.location.value, ctx.historicalData.knownLocations[j])))
  {
    var known := ctx.historicalData.knownLocations;
    if ctx.location.Some? && known != [] {
      var ds := DistancesTo(ctx.location.value, known, env.distance);
      var minDistance := MinOf(ds);
      forall j | 0 <= j < |known| ensures DistanceScore(minDistance) <= DistanceScore(ds[j]) {
        DistanceScoreMonotone(minDistance, ds[j]);
      }
      var i :| 0 <= i < |ds| && ds[i] == minDistance;
    }
  }

  // -------------------------------------------------------------------
  // Time factor

  predicate NearHour(times: seq<int>, hour: int)
  {
    exists i :: 0 <= i < |times| && -1 <= times[i] - hour <= 1
  }

  function AssessTimeRisk(ctx: UserContext, env: Env): (f: RiskFactor)
    ensures f.name == TimePattern && f.weight == 0.15
    ensures 0.1 <= f.score <= 0.8
    ensures Bounded(f)
  {
    var times := ctx.historicalData.commonLoginTimes;
    var hour := env.hourOf(ctx.timestamp);
    if |times| == 0 then
      RiskFactor(TimePattern, 0.15, 0.5, "No historical login time data available")
    else if hour in times then
      RiskFactor(TimePattern, 0.15, 0.1, "Login during common hours")
    else if NearHour(times, hour) then
      RiskFactor(TimePattern, 0.15, 0.3, "Login near common hours")
    else
      RiskFactor(TimePattern, 0.15, 0.8, "Login during unusual hours")
  }

  /** The time factor's four outcomes, each with its exact condition. */
  lemma TimeScoreCases(ctx: UserContext, env: Env)
    ensures var f := AssessTimeRisk(ctx, env);
      var times := ctx.historicalData.commonLoginTimes;
      var hour := env.hourOf(ctx.timestamp);
      (f.score == 0.5 <==> times == []) &&
      (f.score == 0.1 <==> hour in times) &&
      (f.score == 0.3 <==> hour !in times && NearHour(times, hour)) &&
      (f.score == 0.8 <==> times != [] && !NearHour(times, hour))
  {
    var times := ctx.historicalData.commonLoginTimes;
    var hour := env.hourOf(ctx.timestamp);
    if hour in times {
      var i :| 0 <= i < |times| && times[i] == hour;
      assert NearHour(times, hour);
    }
  }

  // -------------------------------------------------------------------
  // Device factor

  datatype Consistency = Consistent | Inconsistent(reason: string)

  /** Platform, operating system and touch support must tell the same story. */
  function CheckPlatformConsistency(d: DeviceInfo): (c: Consistency)
    ensures c.Consistent? <==>
      (Includes(Lower(d.platform), "win") ==> Includes(Lower(d.os), "windows")) &&
      (Includes(Lower(d.platform), "mac") ==> Includes(Lower(d.os), "mac")) &&
      (Includes(Lower(d.platform), "linux") ==> Includes(Lower(d.os), "linux")) &&
      (Includes(Lower(d.platform), "mobile") <==> d.touchSupport)
  {
    var platform := Lower(d.platform);
    var os := Lower(d.os);
    if Includes(platform, "win") && !Includes(os, "windows") then Inconsistent("Platform/OS mismatch")
    else if Includes(platform, "mac") && !Includes(os, "mac") then Inconsistent("Platform/OS mismatch")
    else if Includes(platform, "linux") && !Includes(os, "linux") then Inconsistent("Platform/OS mismatch")
    else if Includes(platform, "mobile") != d.touchSupport then Inconsistent("Touch support inconsistency")
    else Consistent
  }

  /** The device concerns, in the order the source lists them. */
  function DeviceConcerns(d: DeviceInfo, secureContext: bool): seq<(real, string)>
  {
    (if !secureContext then [(0.3, "Non-secure context")] else [])
    + (if d.hardwareConcurrency < 2 then [(0.2, "Low hardware concurrency (possible VM)")] else [])
    + (if Truthy(d.deviceMemory) && d.deviceMemory.value < 4.0 then [(0.1, "Low device memory")] else [])
    + (match CheckPlatformConsistency(d)
       case Consistent => []
       case Inconsistent(reason) => [(0.3, reason)])
  }

  function Increments(cs: seq<(real, string)>): real
  {
    if cs == [] then 0.0 else cs[0].0 + Increments(cs[1..])
  }

  /** A factor whose score is the capped sum of its concerns' increments. */
  function Summed(name: FactorName, weight: real, cs: seq<(real, string)>, none: string): RiskFactor
  {
    RiskFactor(name, weight, MinReal(1.0, Increments(cs)),
      if cs == [] then none else Join(OrderedMaps.Values(cs), "; "))
  }

  lemma {:induction false} IncrementsBounds(cs: seq<(real, string)>)
    requires forall i :: 0 <= i < |cs| ==> 0.0 < cs[i].0
    ensures Increments(cs) >= 0.0
    ensures Increments(cs) == 0.0 <==> cs == []
  {
    if cs != [] { IncrementsBounds(cs[1..]); }
  }

  function AssessDeviceRisk(ctx: UserContext, env: Env): (f: RiskFactor)
    ensures f.name == DeviceSecurity && f.weight == 0.2
    ensures 0.0 <= f.score <= 1.0
    ensures Bounded(f)
  {
    var cs := DeviceConcerns(ctx.deviceInfo, env.secureContext);
    IncrementsBounds(cs);
    Summed(DeviceSecurity, 0.2, cs, "No device security concerns")
  }

  /** The device factor is zero exactly when none of its four concerns applies. */
  lemma DeviceScoreZeroIffNoConcern(ctx: UserContext, env: Env)
    ensures AssessDeviceRisk(ctx, env).score == 0.0 <==>
      env.secureContext && ctx.deviceInfo.hardwareConcurrency >= 2 &&
      !(Truthy(ctx.deviceInfo.deviceMemory) && ctx.deviceInfo.deviceMemory.value < 4.0) &&
      CheckPlatformConsistency(ctx.deviceInfo).Consistent?
  {
    var d := ctx.deviceInfo;
    var cs := DeviceConcerns(d, env.secureContext);
    IncrementsBounds(cs);
    assert |cs| == (if !env.secureContext then 1 else 0) + (if d.hardwareConcurrency < 2 then 1 else 0)
      + (if Truthy(d.deviceMemory) && d.deviceMemory.value < 4.0 then 1 else 0)
      + (if CheckPlatformConsistency(d).Consistent? then 0 else 1);
  }

  // -------------------------------------------------------------------
  // Behavioural factor

  function BehavioralConcerns(b: BehavioralMetrics): seq<(real, string)>
  {
    (if Truthy(b.typingConsistency) && b.typingConsistency.value < 0.6 then [(0.3, "Inconsistent typing pattern")] else [])
    + (if b.mouseMovementPattern == Some("erratic") then [(0.2, "Erratic mouse movement")] else [])
    + (if Truthy(b.interactionFrequency) && b.interactionFrequency.value < 0.3 then [(0.2, "Low interaction frequency")] else [])
  }

  function AssessBehavioralRisk(ctx: UserContext): (f: RiskFactor)
    ensures f.name == BehavioralPattern && f.weight == 0.25
    ensures 0.0 <= f.score <= 1.0
    ensures Bounded(f)
  {
    var cs := BehavioralConcerns(ctx.behavioralMetrics);
    IncrementsBounds(cs);
    Summed(BehavioralPattern, 0.25, cs, "Normal behavioral patterns")
  }

  /** The behavioural factor is zero exactly when none of its three concerns applies. */
  lemma BehavioralScoreZeroIffNoConcern(ctx: UserContext)
    ensures var b := ctx.behavioralMetrics;
      AssessBehavioralRisk(ctx).score == 0.0 <==>
        !(Truthy(b.typingConsistency) && b.typingConsistency.value < 0.6) &&
        b.mouseMovementPattern != Some("erratic") &&
        !(Truthy(b.interactionFrequency) && b.interactionFrequency.value < 0.3)
  {
    IncrementsBounds(BehavioralConcerns(ctx.behavioralMetrics));
  }

  // -------------------------------------------------------------------
  // Historical factor

  /** One week in milliseconds: 168 hours of 3 600 000 ms. */
  const WeekMillis := 168 * 3600000

  /**
   * `successful / (failed + successful) < 0.7`; with no attempts at all the
   * quotient is NaN and the comparison is false.
   */
  predicate LowSuccessRate(h: HistoricalData)
  {
    var total := h.failedAttempts + h.successfulLogins;
    total > 0 && (h.successfulLogins as real) / (total as real) < 0.7
  }

  predicate StaleLogin(h: HistoricalData, now: int)
  {
    h.lastLoginTime.Some? && h.lastLoginTime.value != 0 &&
    ((now - h.lastLoginTime.value) as real) / 3600000.0 > 168.0
  }

  function HistoricalConcerns(h: HistoricalData, now: int): seq<(real, string)>
  {
    (if h.failedAttempts > 3 then [(0.3, NatToString(h.failedAttempts) + " recent failed attempts")] else [])
    + (if StaleLogin(h, now) then [(0.2, "First login in over a week")] else [])
    + (if LowSuccessRate(h) then [(0.2, "Low login success rate")] else [])
  }

  function AssessHistoricalRisk(ctx: UserContext, env: Env): (f: RiskFactor)
    ensures f.name == HistoricalPattern && f.weight == 0.15
    ensures 0.0 <= f.score <= 1.0
    ensures Bounded(f)
  {
    var cs := HistoricalConcerns(ctx.historicalData, env.now);
    IncrementsBounds(cs);
    Summed(HistoricalPattern, 0.15, cs, "Normal historical patterns")
  }

  /** The historical factor is zero exactly when none of its three concerns applies. */
  lemma HistoricalScoreZeroIffNoConcern(ctx: UserContext, env: Env)
    ensures var h := ctx.historicalData;
      AssessHistoricalRisk(ctx, env).score == 0.0 <==>
        h.failedAttempts <= 3 && !StaleLogin(h, env.now) && !LowSuccessRate(h)
  {
    IncrementsBounds(HistoricalConcerns(ctx.historicalData, env.now));
  }

  lemma StaleLoginMeansOverAWeek(h: HistoricalData, now: int)
    requires h.lastLoginTime.Some? && h.lastLoginTime.value != 0
    ensures StaleLogin(h, now) <==> now - h.lastLoginTime.value > WeekMillis
  {
    var d := (now - h.lastLoginTime.value) as real;
    assert d / 3600000.0 > 168.0 <==> d > 168.0 * 3600000.0;
  }

  // -------------------------------------------------------------------
  // Fusion

  /**
   * The factors in the order the source pushes them. The behavioural factor
   * is always present: its guard tests an object, which is always truthy.
   */
  function Factors(ctx: UserContext, env: Env): (fs: seq<RiskFactor>)
    ensures |fs| == if ctx.location.Some? then 5 else 4
    ensures WellScored(fs)
  {
    FactorsOf(if ctx.location.Some? then Some(AssessLocationRisk(ctx, env)) else None,
              AssessTimeRisk(ctx, env), AssessDeviceRisk(ctx, env),
              AssessBehavioralRisk(ctx), AssessHistoricalRisk(ctx, env))
  }

  /** The list the source pushes: the location factor first when there is one, then the other four. */
  function FactorsOf(location: Option<RiskFactor>, t: RiskFactor, d: RiskFactor, b: RiskFactor, h: RiskFactor)
    : (fs: seq<RiskFactor>)
    ensures |fs| == if location.Some? then 5 else 4
    ensures Bounded(t) && Bounded(d) && Bounded(b) && Bounded(h) && (location.Some? ==> Bounded(location.value)) ==>
      WellScored(fs)
  {
    var rest := [t, d, b, h];
    if location.Some? then
      assert forall i | 1 <= i < 5 :: ([location.value] + rest)[i] == rest[i - 1];
      [location.value] + rest
    else rest
  }

  function Contribution(f: RiskFactor): real { f.score * f.weight }

  function WeightedSum(fs: seq<RiskFactor>): real
  {
    if fs == [] then 0.0 else WeightedSum(fs[..|fs| - 1]) + Contribution(fs[|fs| - 1])
  }

  function TotalWeight(fs: seq<RiskFactor>): real
  {
    if fs == [] then 0.0 else TotalWeight(fs[..|fs| - 1]) + fs[|fs| - 1].weight
  }

  /** A score in [0, 1] under a positive weight. */
  predicate Bounded(f: RiskFactor)
  {
    0.0 <= f.score <= 1.0 && f.weight > 0.0
  }

  predicate WellScored(fs: seq<RiskFactor>)
  {
    forall i :: 0 <= i < |fs| ==> Bounded(fs[i])
  }

  lemma {:induction false} WeightedSumBounds(fs: seq<RiskFactor>)
    requires WellScored(fs)
    ensures 0.0 <= WeightedSum(fs) <= TotalWeight(fs)
    ensures fs != [] ==> TotalWeight(fs) > 0.0
  {
    if fs != [] {
      var init := fs[..|fs| - 1];
      assert WellScored(init) by {
        forall i | 0 <= i < |init| ensures 0.0 <= init[i].score <= 1.0 && init[i].weight > 0.0 {
          assert init[i] == fs[i];
        }
      }
      WeightedSumBounds(init);
      var last := fs[|fs| - 1];
      ScaledByWeight(last);
      assert WeightedSum(fs) == WeightedSum(init) + Contribution(last);
      assert TotalWeight(fs) == TotalWeight(init) + last.weight;
    }
  }

  lemma ScaledByWeight(f: RiskFactor)
    requires 0.0 <= f.score <= 1.0 && f.weight > 0.0
    ensures 0.0 <= Contribution(f) <= f.weight
  {
    var slack := 1.0 - f.score;
    assert slack * f.weight >= 0.0;
    assert f.weight - Contribution(f) == slack * f.weight;
  }

  /** `Math.round((totalScore / totalWeight) * 100)`. */
  function FinalScore(fs: seq<RiskFactor>): (s: int)
    requires WellScored(fs) && fs != []
    ensures 0 <= s <= 100
  {
    WeightedSumBounds(fs);
    var mean := WeightedSum(fs) / TotalWeight(fs);
    assert 0.0 <= mean <= 1.0;
    Round(mean * 100.0)
  }

  // -------------------------------------------------------------------
  // Recommendations

  const TwoFactorAdvice := "Enable two-factor authentication"
  const ActivityAdvice := "Review recent account activity"
  const PasswordAdvice := "Update password"
  const GeneralRecommendations: seq<string> := [TwoFactorAdvice, ActivityAdvice, PasswordAdvice]

  const LocationAdvice := "Verify your location through additional authentication"
  const TimeAdvice := "Login attempt outside normal hours - additional verification recommended"
  const DeviceUpdateAdvice := "Ensure your device and browser are up to date"
  const ConnectionAdvice := "Use a secure connection"
  const BehaviorAdvice := "Unusual behavior detected - additional verification may be required"
  const HistoryAdvice := "Review and verify recent account activity"

  function FactorRecommendations(name: FactorName): seq<string>
  {
    match name
    case Location => [LocationAdvice]
    case TimePattern => [TimeAdvice]
    case DeviceSecurity => [DeviceUpdateAdvice, ConnectionAdvice]
    case BehavioralPattern => [BehaviorAdvice]
    case HistoricalPattern => [HistoryAdvice]
  }

  /** The advice texts have pairwise different lengths. */
  lemma AdviceLengths()
    ensures |TwoFactorAdvice| == 32 && |ActivityAdvice| == 30 && |PasswordAdvice| == 15
    ensures |LocationAdvice| == 54 && |TimeAdvice| == 72 && |DeviceUpdateAdvice| == 45
    ensures |ConnectionAdvice| == 23 && |BehaviorAdvice| == 67 && |HistoryAdvice| == 41
  {
  }

  function SpecificRecommendations(fs: seq<RiskFactor>): seq<string>
  {
    if fs == [] then []
    else
      (if fs[0].score > 0.6 then FactorRecommendations(fs[0].name) else [])
      + SpecificRecommendations(fs[1..])
  }

  function GenerateRecommendations(fs: seq<RiskFactor>, level: Level): (r: seq<string>)
    ensures NoDuplicates(r)
  {
    Dedup((if level == Critical || level == High then GeneralRecommendations else []) + SpecificRecommendations(fs))
  }

  /**
   * The recommendations keep the order in which they are first pushed: at a
   * high or critical level the three general items come first, in their
   * order, and every item stands where it first occurs in the pushed list.
   */
  lemma RecommendationOrder(fs: seq<RiskFactor>, level: Level)
    ensures var pushed := (if level == Critical || level == High then GeneralRecommendations else []) + SpecificRecommendations(fs);
      var r := GenerateRecommendations(fs, level);
      (forall i, j :: 0 <= i < j < |r| ==> FirstIndex(pushed, r[i]) < FirstIndex(pushed, r[j])) &&
      (level == Critical || level == High ==> |r| >= 3 && r[..3] == GeneralRecommendations)
  {
    var pushed := (if level == Critical || level == High then GeneralRecommendations else []) + SpecificRecommendations(fs);
    DedupFirstOccurrences(pushed);
    if level == Critical || level == High {
      AdviceLengths();
      assert NoDuplicates(GeneralRecommendations);
      DedupKeepsDistinctPrefix(GeneralRecommendations, SpecificRecommendations(fs));
    }
  }

  lemma {:induction false} SpecificRecommendationsMembers(fs: seq<RiskFactor>, msg: string)
    ensures msg in SpecificRecommendations(fs) <==>
      exists i :: 0 <= i < |fs| && fs[i].score > 0.6 && msg in FactorRecommendations(fs[i].name)
  {
    if fs != [] {
      SpecificRecommendationsMembers(fs[1..], msg);
      if exists i :: 0 <= i < |fs| - 1 && fs[1..][i].score > 0.6 && msg in FactorRecommendations(fs[1..][i].name) {
        var i :| 0 <= i < |fs| - 1 && fs[1..][i].score > 0.6 && msg in FactorRecommendations(fs[1..][i].name);
        assert fs[i + 1] == fs[1..][i];
      }
      if exists i :: 0 <= i < |fs| && fs[i].score > 0.6 && msg in FactorRecommendations(fs[i].name) {
        var i :| 0 <= i < |fs| && fs[i].score > 0.6 && msg in FactorRecommendations(fs[i].name);
        if i > 0 { assert fs[1..][i - 1] == fs[i]; }
      }
    }
  }

  lemma RecommendationMembers(fs: seq<RiskFactor>, level: Level, msg: string)
    ensures msg in GenerateRecommendations(fs, level) <==>
      (msg in GeneralRecommendations && (level == Critical || level == High)) ||
      msg in SpecificRecommendations(fs)
  {
    var general: seq<string> := if level == Critical || level == High then GeneralRecommendations else [];
    assert msg in general + SpecificRecommendations(fs) <==> msg in general || msg in SpecificRecommendations(fs);
  }

  lemma AdviceIsDistinct(name: FactorName, msg: string)
    requires msg in GeneralRecommendations
    ensures msg !in FactorRecommendations(name)
  {
    AdviceLengths();
    assert |msg| == 32 || |msg| == 30 || |msg| == 15;
  }

  /** Tells the factors' advice texts apart by their lengths, which all differ. */
  function AdviceOwner(length: int): FactorName
  {
    if length == 54 then Location
    else if length == 72 then TimePattern
    else if length == 67 then BehavioralPattern
    else if length == 41 then HistoricalPattern
    else DeviceSecurity
  }

  lemma AdviceLength(name: FactorName, msg: string)
    requires msg in FactorRecommendations(name)
    ensures AdviceOwner(|msg|) == name
  {
    AdviceLengths();
  }

  lemma AdviceHasOneOwner(name: FactorName, other: FactorName, msg: string)
    requires msg in FactorRecommendations(name) && msg in FactorRecommendations(other)
    ensures name == other
  {
    AdviceLength(name, msg);
    AdviceLength(other, msg);
  }

  /** The general advice is given exactly at the high and critical levels. */
  lemma GeneralAdviceExactlyWhenHigh(fs: seq<RiskFactor>, level: Level, msg: string)
    requires msg in GeneralRecommendations
    ensures msg in GenerateRecommendations(fs, level) <==> level == High || level == Critical
  {
    RecommendationMembers(fs, level, msg);
    SpecificRecommendationsMembers(fs, msg);
    if msg in SpecificRecommendations(fs) {
      var i :| 0 <= i < |fs| && fs[i].score > 0.6 && msg in FactorRecommendations(fs[i].name);
      AdviceIsDistinct(fs[i].name, msg);
    }
  }

  /** A factor's own advice is given exactly when some factor of that name scores above 0.6. */
  lemma FactorAdviceExactlyWhenAbove(fs: seq<RiskFactor>, level: Level, name: FactorName, msg: string)
    requires msg in FactorRecommendations(name)
    ensures msg in GenerateRecommendations(fs, level) <==>
      exists i :: 0 <= i < |fs| && fs[i].score > 0.6 && fs[i].name == name
  {
    RecommendationMembers(fs, level, msg);
    SpecificRecommendationsMembers(fs, msg);
    if msg in GeneralRecommendations { AdviceIsDistinct(name, msg); }
    if msg in SpecificRecommendations(fs) {
      var i :| 0 <= i < |fs| && fs[i].score > 0.6 && msg in FactorRecommendations(fs[i].name);
      AdviceHasOneOwner(name, fs[i].name, msg);
    }
  }

  // -------------------------------------------------------------------
  // History and aggregate

  datatype Trend = Improving | Stable | Worsening

  datatype AggregateRisk = AggregateRisk(averageScore: real, trend: Trend, riskLevel: Level)

  function Scores(h: seq<Assessment>): (s: seq<int>)
    ensures |s| == |h|
    ensures forall i :: 0 <= i < |h| ==> s[i] == h[i].score
  {
    if h == [] then [] else Scores(h[..|h| - 1]) + [h[|h| - 1].score]
  }

  function SumY(ys: seq<int>): int
  {
    if ys == [] then 0 else SumY(ys[..|ys| - 1]) + ys[|ys| - 1]
  }

  function SumXY(ys: seq<int>): int
  {
    if ys == [] then 0 else SumXY(ys[..|ys| - 1]) + (|ys| - 1) * ys[|ys| - 1]
  }

  function SumX(n: nat): int
  {
    if n == 0 then 0 else SumX(n - 1) + (n - 1)
  }

  function SumXX(n: nat): int
  {
    if n == 0 then 0 else SumXX(n - 1) + (n - 1) * (n - 1)
  }

  lemma {:induction false} SumXClosed(n: nat)
    ensures 2 * SumX(n) == n * (n - 1)
  {
    if n > 0 { SumXClosed(n - 1); }
  }

  lemma {:induction false} SumXXClosed(n: nat)
    ensures 6 * SumXX(n) == (n - 1) * n * (2 * n - 1)
  {
    if n > 0 {
      SumXXClosed(n - 1);
      SquaresStep(n - 1);
    }
  }

  /** The induction step of the sum of squares, with `m = n - 1`. */
  lemma SquaresStep(m: int)
    ensures (m - 1) * m * (2 * m - 1) + 6 * m * m == m * (m + 1) * (2 * m + 1)
  {
    var u, v := (m - 1) * (2 * m - 1), (m + 1) * (2 * m + 1);
    assert u + 6 * m == v;
    assert (m - 1) * m * (2 * m - 1) == m * u;
    assert m * (m + 1) * (2 * m + 1) == m * v;
    assert m * u + 6 * m * m == m * (u + 6 * m);
  }

  /** The regression's denominator `n*sumXX - sumX^2`, which is `n^2 (n^2 - 1) / 12`. */
  lemma RegressionDenominatorPositive(n: nat)
    requires n >= 2
    ensures n * SumXX(n) - SumX(n) * SumX(n) > 0
  {
    SumXClosed(n);
    SumXXClosed(n);
    DenominatorAlgebra(n, SumX(n), SumXX(n));
  }

  lemma DenominatorAlgebra(n: int, a: int, b: int)
    requires n >= 2 && 2 * a == n * (n - 1) && 6 * b == (n - 1) * n * (2 * n - 1)
    ensures n * b - a * a > 0
  {
    var p := n * (n - 1);
    assert 2 * a == p;
    assert 6 * b == p * (2 * n - 1);
    var d := n * b - a * a;
    assert 12 * d == 2 * n * (6 * b) - 3 * (2 * a) * (2 * a);
    assert 12 * d == 2 * n * (p * (2 * n - 1)) - 3 * p * p;
    assert 12 * d == p * (2 * n * (2 * n - 1) - 3 * p);
    var q := 2 * n * (2 * n - 1) - 3 * p;
    assert q == n * n + n;
    assert p > 0 && q > 0;
    assert p * q > 0;
  }

  function SlopeNumerator(ys: seq<int>): int
  {
    |ys| * SumXY(ys) - SumX(|ys|) * SumY(ys)
  }

  function SlopeDenominator(n: nat): int
  {
    n * SumXX(n) - SumX(n) * SumX(n)
  }

  /** The least-squares slope of the scores against their positions 0..n-1. */
  function Slope(ys: seq<int>): real
    requires |ys| >= 2
  {
    RegressionDenominatorPositive(|ys|);
    SlopeNumerator(ys) as real / SlopeDenominator(|ys|) as real
  }

  function CalculateTrend(ys: seq<int>): (t: Trend)
    ensures |ys| < 2 ==> t == Stable
    ensures |ys| >= 2 ==>
      (t == Stable <==> -0.1 < Slope(ys) < 0.1) &&
      (t == Improving <==> Slope(ys) <= -0.1) &&
      (t == Worsening <==> Slope(ys) >= 0.1)
  {
    if |ys| < 2 then Stable
    else
      var slope := Slope(ys);
      var magnitude := if slope < 0.0 then -slope else slope;
      if magnitude < 0.1 then Stable
      else if slope < 0.0 then Improving
      else Worsening
  }

  lemma {:induction false} ConstantSums(ys: seq<int>, c: int)
    requires forall i :: 0 <= i < |ys| ==> ys[i] == c
    ensures SumY(ys) == |ys| * c
    ensures SumXY(ys) == c * SumX(|ys|)
  {
    if ys != [] {
      ConstantSums(ys[..|ys| - 1], c);
    }
  }

  /** A flat series of scores has no trend. */
  lemma ConstantScoresAreStable(ys: seq<int>, c: int)
    requires forall i :: 0 <= i < |ys| ==> ys[i] == c
    ensures CalculateTrend(ys) == Stable
  {
    ConstantSums(ys, c);
    assert SlopeNumerator(ys) == |ys| * (c * SumX(|ys|)) - SumX(|ys|) * (|ys| * c);
    assert SlopeNumerator(ys) == 0;
    if |ys| >= 2 {
      RegressionDenominatorPositive(|ys|);
      assert Slope(ys) == 0.0;
    }
  }

  /** Each score is above the one before it. */
  predicate StrictlyIncreasing(ys: seq<int>)
  {
    forall i :: 0 < i < |ys| ==> ys[i - 1] < ys[i]
  }

  /** Each score is below the one before it. */
  predicate StrictlyDecreasing(ys: seq<int>)
  {
    forall i :: 0 < i < |ys| ==> ys[i - 1] > ys[i]
  }

  predicate Ascending(zs: seq<int>)
  {
    forall i, j :: 0 <= i <= j < |zs| ==> zs[i] <= zs[j]
  }

  lemma {:induction false} StepsAscend(zs: seq<int>)
    requires forall i :: 0 < i < |zs| ==> zs[i - 1] <= zs[i]
    ensures Ascending(zs)
  {
    if zs != [] {
      var init := zs[..|zs| - 1];
      StepsAscend(init);
      forall i, j | 0 <= i <= j < |zs| ensures zs[i] <= zs[j] {
        if j == |zs| - 1 && i < j {
          assert init[i] <= init[j - 1];
        } else if j < |zs| - 1 {
          assert init[i] <= init[j];
        }
      }
    }
  }

  /** The sums of scores `a*z_i + c*i` in terms of the sums of the `z_i`. */
  lemma {:induction false} AffineSums(ys: seq<int>, zs: seq<int>, a: int, c: int)
    requires |ys| == |zs| && forall i :: 0 <= i < |ys| ==> ys[i] == a * zs[i] + c * i
    ensures SumY(ys) == a * SumY(zs) + c * SumX(|ys|)
    ensures SumXY(ys) == a * SumXY(zs) + c * SumXX(|ys|)
  {
    if ys != [] {
      var m := |ys| - 1;
      AffineSums(ys[..m], zs[..m], a, c);
      var z := zs[m];
      assert SumY(ys) == SumY(ys[..m]) + (a * z + c * m);
      assert SumXY(ys) == SumXY(ys[..m]) + m * (a * z + c * m);
      AffineStep(a, c, m, z, SumY(zs[..m]), SumXY(zs[..m]), SumX(m), SumXX(m));
    }
  }

  lemma AffineStep(a: int, c: int, m: int, z: int, sy: int, sxy: int, sx: int, sxx: int)
    ensures a * sy + c * sx + (a * z + c * m) == a * (sy + z) + c * (sx + m)
    ensures a * sxy + c * sxx + m * (a * z + c * m) == a * (sxy + m * z) + c * (sxx + m * m)
  {
    assert m * (a * z + c * m) == a * (m * z) + c * (m * m);
  }

  /** The numerator is linear in the scores. */
  lemma NumeratorAffine(n: int, sxy: int, sy: int, sxx: int, sx: int, a: int, c: int)
    ensures n * (a * sxy + c * sxx) - sx * (a * sy + c * sx) == a * (n * sxy - sx * sy) + c * (n * sxx - sx * sx)
  {
    assert n * (a * sxy + c * sxx) == a * (n * sxy) + c * (n * sxx);
    assert sx * (a * sy + c * sx) == a * (sx * sy) + c * (sx * sx);
  }

  lemma {:induction false} SumYAtMost(ws: seq<int>, z: int)
    requires forall i :: 0 <= i < |ws| ==> ws[i] <= z
    ensures SumY(ws) <= |ws| * z
  {
    if ws != [] {
      SumYAtMost(ws[..|ws| - 1], z);
    }
  }

  /**
   * What the numerator gains when a score `z` no lower than any before it is
   * appended: the sum over earlier positions `i` of `(n - i) * (z - ws[i])`.
   */
  lemma {:induction false} AppendGain(ws: seq<int>, z: int)
    requires forall i :: 0 <= i < |ws| ==> ws[i] <= z
    ensures SumXY(ws) - |ws| * SumY(ws) + z * SumX(|ws| + 1) >= 0
  {
    if ws != [] {
      var m := |ws|;
      var init, a := ws[..m - 1], ws[m - 1];
      AppendGain(init, z);
      SumYAtMost(init, z);
      assert SumXY(ws) == SumXY(init) + (m - 1) * a;
      assert SumY(ws) == SumY(init) + a;
      assert SumX(m + 1) == SumX(m) + m;
      GainStep(m, z, a, SumXY(init), SumY(init), SumX(m));
    }
  }

  lemma GainStep(m: int, z: int, a: int, sxy: int, sy: int, sx: int)
    requires sxy - (m - 1) * sy + z * sx >= 0
    requires sy <= (m - 1) * z && a <= z
    ensures (sxy + (m - 1) * a) - m * (sy + a) + z * (sx + m) >= 0
  {
    assert m * (sy + a) == (m - 1) * sy + sy + (m - 1) * a + a;
    assert z * (sx + m) == z * sx + (m - 1) * z + z;
  }

  lemma NumeratorStep(m: int, sxy: int, sy: int, sx: int, z: int)
    requires 2 * sx == m * (m - 1)
    ensures (m + 1) * (sxy + m * z) - (sx + m) * (sy + z) == (m * sxy - sx * sy) + (sxy - m * sy + z * (sx + m))
  {
    assert (m + 1) * (sxy + m * z) == m * sxy + sxy + (m + 1) * (m * z);
    assert (sx + m) * (sy + z) == sx * sy + sx * z + m * sy + m * z;
    assert (m + 1) * (m * z) == m * (m * z) + m * z;
    assert m * (m * z) == (m * m) * z;
    assert z * (sx + m) == sx * z + m * z;
    assert (m * m) * z == 2 * sx * z + m * z;
  }

  /** Scores that never fall have a numerator of at least 0. */
  lemma {:induction false} AscendingNumerator(zs: seq<int>)
    requires Ascending(zs)
    ensures SlopeNumerator(zs) >= 0
  {
    if zs != [] {
      var m := |zs| - 1;
      var init, z := zs[..m], zs[m];
      assert Ascending(init);
      AscendingNumerator(init);
      AppendGain(init, z);
      SumXClosed(m);
      NumeratorStep(m, SumXY(init), SumY(init), SumX(m), z);
    }
  }

  /** A strictly increasing history of integer scores has a slope of at least 1, and so worsens. */
  lemma IncreasingScoresWorsen(ys: seq<int>)
    requires |ys| >= 2 && StrictlyIncreasing(ys)
    ensures Slope(ys) >= 1.0
    ensures CalculateTrend(ys) == Worsening
  {
    var n := |ys|;
    var zs := seq(n, i requires 0 <= i < n => ys[i] - i);
    StepsAscend(zs);
    AscendingNumerator(zs);
    AffineSums(ys, zs, 1, 1);
    NumeratorAffine(n, SumXY(zs), SumY(zs), SumXX(n), SumX(n), 1, 1);
    RegressionDenominatorPositive(n);
    assert SlopeNumerator(ys) == SlopeNumerator(zs) + SlopeDenominator(n);
    RatioAtLeastOne(SlopeNumerator(ys) as real, SlopeDenominator(n) as real);
  }

  /** A strictly decreasing history of integer scores has a slope of at most -1, and so improves. */
  lemma DecreasingScoresImprove(ys: seq<int>)
    requires |ys| >= 2 && StrictlyDecreasing(ys)
    ensures Slope(ys) <= -1.0
    ensures CalculateTrend(ys) == Improving
  {
    var n := |ys|;
    var zs := seq(n, i requires 0 <= i < n => -ys[i] - i);
    StepsAscend(zs);
    AscendingNumerator(zs);
    AffineSums(ys, zs, -1, -1);
    NumeratorAffine(n, SumXY(zs), SumY(zs), SumXX(n), SumX(n), -1, -1);
    RegressionDenominatorPositive(n);
    assert SlopeNumerator(ys) == -SlopeNumerator(zs) - SlopeDenominator(n);
    RatioAtMostMinusOne(SlopeNumerator(ys) as real, SlopeDenominator(n) as real);
  }

  lemma RatioAtMostMinusOne(p: real, d: real)
    requires 0.0 < d && p <= -d
    ensures p / d <= -1.0
  {
    var q := p / d;
    assert q * d == p;
    assert (q + 1.0) * d <= 0.0;
  }

  lemma RatioAtLeastOne(p: real, d: real)
    requires 0.0 < d <= p
    ensures p / d >= 1.0
  {
    var q := p / d;
    assert q * d == p;
    assert (q - 1.0) * d >= 0.0;
  }

  function Aggregate(h: seq<Assessment>): (r: AggregateRisk)
    ensures h == [] ==> r == AggregateRisk(0.0, Stable, Medium)
    ensures h != [] ==>
      r.averageScore == SumY(Scores(h)) as real / |h| as real &&
      r.trend == CalculateTrend(Scores(h)) &&
      r.riskLevel == DetermineRiskLevel(r.averageScore)
  {
    if h == [] then AggregateRisk(0.0, Stable, Medium)
    else
      var scores := Scores(h);
      var average := SumY(scores) as real / |scores| as real;
      AggregateRisk(average, CalculateTrend(scores), DetermineRiskLevel(average))
  }

  predicate ScoresInRange(h: seq<Assessment>)
  {
    forall i :: 0 <= i < |h| ==> 0 <= h[i].score <= 100
  }

  lemma {:induction false} SumYBounds(ys: seq<int>)
    requires forall i :: 0 <= i < |ys| ==> 0 <= ys[i] <= 100
    ensures 0 <= SumY(ys) <= 100 * |ys|
  {
    if ys != [] { SumYBounds(ys[..|ys| - 1]); }
  }

  /** The average of a history of 0-100 scores is itself a 0-100 score. */
  lemma AverageInRange(h: seq<Assessment>)
    ensures ScoresInRange(h) ==> 0.0 <= Aggregate(h).averageScore <= 100.0
  {
    if h != [] && ScoresInRange(h) {
      SumYBounds(Scores(h));
      var n := |h| as real;
      var s := SumY(Scores(h)) as real;
      assert 0.0 <= s <= 100.0 * n;
      assert Aggregate(h).averageScore == s / n;
      QuotientBound(s, n, 100.0);
    }
  }

  lemma QuotientBound(s: real, n: real, b: real)
    requires n > 0.0 && 0.0 <= s <= b * n
    ensures 0.0 <= s / n <= b
  {
    var q := s / n;
    assert q * n == s;
    if q > b {
      assert q * n > b * n;
    }
  }

  // -------------------------------------------------------------------
  // The service

  /** The running totals of the fusion agree with the factors pushed so far. */
  ghost predicate Totals(fs: seq<RiskFactor>, totalScore: real, totalWeight: real)
  {
    totalScore == WeightedSum(fs) && totalWeight == TotalWeight(fs)
  }

  lemma Accumulated(fs: seq<RiskFactor>, totalScore: real, totalWeight: real)
    requires |fs| <= 1 && (fs == [] ==> totalScore == 0.0 && totalWeight == 0.0)
    requires |fs| == 1 ==> totalScore == 0.0 + fs[0].score * fs[0].weight && totalWeight == 0.0 + fs[0].weight
    ensures Totals(fs, totalScore, totalWeight)
  {
    if |fs| == 1 { assert fs[..0] == []; }
  }

  /** One step of the fusion: push the factor and add its weighted score and its weight. */
  method Accumulate(fs: seq<RiskFactor>, totalScore: real, totalWeight: real, f: RiskFactor)
    returns (fs': seq<RiskFactor>, totalScore': real, totalWeight': real)
    requires Totals(fs, totalScore, totalWeight)
    ensures fs' == fs + [f]
    ensures Totals(fs', totalScore', totalWeight')
  {
    fs' := fs + [f];
    totalScore' := totalScore + f.score * f.weight;
    totalWeight' := totalWeight + f.weight;
    assert fs'[..|fs'| - 1] == fs;
  }

  /** The assessment built from a list of factors at time `now`. */
  function Assessed(fs: seq<RiskFactor>, now: int): (a: Assessment)
    requires WellScored(fs) && fs != []
    ensures a.factors == fs && 0 <= a.score <= 100 && a.score == FinalScore(fs)
    ensures a.level == DetermineRiskLevel(a.score as real)
    ensures a.recommendations == GenerateRecommendations(fs, a.level)
    ensures a.timestamp == now
  {
    var score := FinalScore(fs);
    var level := DetermineRiskLevel(score as real);
    Assessment(score, level, fs, GenerateRecommendations(fs, level), now)
  }

  /** The assessment `assessRisk` builds, before it is stored. */
  function Evaluate(ctx: UserContext, env: Env): (a: Assessment)
    ensures a.factors == Factors(ctx, env) && WellScored(a.factors) && a.factors != []
    ensures 0 <= a.score <= 100 && a.score == FinalScore(a.factors)
    ensures a.level == DetermineRiskLevel(a.score as real)
    ensures a.recommendations == GenerateRecommendations(a.factors, a.level)
    ensures a.timestamp == env.now
  {
    Assessed(Factors(ctx, env), env.now)
  }

  /**
   * The fusion as the source runs it. The factors are pure, so computing
   * them before the pushes changes nothing.
   */
  method Fuse(ctx: UserContext, env: Env) returns (a: Assessment)
    ensures a == Evaluate(ctx, env)
  {
    var locationRisk: Option<RiskFactor> := None;
    if ctx.location.Some? {
      locationRisk := Some(AssessLocationRisk(ctx, env));
    }
    a := FuseFactors(locationRisk, AssessTimeRisk(ctx, env), AssessDeviceRisk(ctx, env),
                     AssessBehavioralRisk(ctx), AssessHistoricalRisk(ctx, env), env.now);
  }

  /**
   * Push each factor and keep running totals of weighted score and weight,
   * then round the weighted mean to a percentage.
   */
  method FuseFactors(locationRisk: Option<RiskFactor>, timeRisk: RiskFactor, deviceRisk: RiskFactor,
                     behavioralRisk: RiskFactor, historicalRisk: RiskFactor, now: int) returns (a: Assessment)
    requires Bounded(timeRisk) && Bounded(deviceRisk) && Bounded(behavioralRisk) && Bounded(historicalRisk)
    requires locationRisk.Some? ==> Bounded(locationRisk.value)
    ensures a == Assessed(FactorsOf(locationRisk, timeRisk, deviceRisk, behavioralRisk, historicalRisk), now)
  {
    var factors: seq<RiskFactor> := [];
    var totalScore := 0.0;
    var totalWeight := 0.0;
    if locationRisk.Some? {
      factors := factors + [locationRisk.value];
      totalScore := totalScore + locationRisk.value.score * locationRisk.value.weight;
      totalWeight := totalWeight + locationRisk.value.weight;
    }
    Accumulated(factors, totalScore, totalWeight);
    factors, totalScore, totalWeight := Accumulate(factors, totalScore, totalWeight, timeRisk);
    factors, totalScore, totalWeight := Accumulate(factors, totalScore, totalWeight, deviceRisk);
    factors, totalScore, totalWeight := Accumulate(factors, totalScore, totalWeight, behavioralRisk);
    factors, totalScore, totalWeight := Accumulate(factors, totalScore, totalWeight, historicalRisk);
    assert factors == FactorsOf(locationRisk, timeRisk, deviceRisk, behavioralRisk, historicalRisk);
    a := Conclude(factors, totalScore, totalWeight, now);
  }

  /** The end of `assessRisk`: the rounded weighted mean, its level and the advice. */
  method Conclude(factors: seq<RiskFactor>, totalScore: real, totalWeight: real, now: int) returns (a: Assessment)
    requires WellScored(factors) && factors != [] && Totals(factors, totalScore, totalWeight)
    ensures a == Assessed(factors, now)
  {
    WeightedSumBounds(factors);
    var mean := totalScore / totalWeight;
    assert mean == WeightedSum(factors) / TotalWeight(factors);
    var finalScore := Round(mean * 100.0);
    assert finalScore == FinalScore(factors);
    var riskLevel := DetermineRiskLevel(finalScore as real);
    var recommendations := GenerateRecommendations(factors, riskLevel);
    a := Assessment(finalScore, riskLevel, factors, recommendations, now);
  }

  class RiskAssessmentService {
    var riskHistory: map<string, seq<Assessment>>

    ghost predicate Valid()
      reads this
    {
      forall u :: u in riskHistory ==> |riskHistory[u]| <= MaxHistoryLength && ScoresInRange(riskHistory[u])
    }

    constructor ()
      ensures Valid() && riskHistory == map[]
    {
      riskHistory := map[];
    }

    function GetAssessmentHistory(userId: string): (h: seq<Assessment>)
      reads this
      ensures Valid() ==> |h| <= MaxHistoryLength && ScoresInRange(h)
      ensures userId !in riskHistory ==> h == []
    {
      if userId in riskHistory then riskHistory[userId] else []
    }

    /** Records an assessment; only the newest fifty are kept. */
    method StoreAssessment(userId: string, a: Assessment)
      requires Valid() && 0 <= a.score <= 100
      modifies this
      ensures Valid()
      ensures riskHistory == old(riskHistory)[userId := Appended(old(GetAssessmentHistory(userId)), a, MaxHistoryLength)]
    {
      var userHistory := GetAssessmentHistory(userId);
      userHistory := userHistory + [a];
      if |userHistory| > MaxHistoryLength {
        userHistory := userHistory[1..];
      }
      riskHistory := riskHistory[userId := userHistory];
    }

    method AssessRisk(userId: string, ctx: UserContext, env: Env) returns (a: Assessment)
      requires Valid()
      modifies this
      ensures Valid()
      ensures a == Evaluate(ctx, env)
      ensures riskHistory == old(riskHistory)[userId := Appended(old(GetAssessmentHistory(userId)), a, MaxHistoryLength)]
    {
      a := Fuse(ctx, env);
      StoreAssessment(userId, a);
    }

    function GetAggregateRisk(userId: string): (r: AggregateRisk)
      reads this
      ensures Valid() ==> 0.0 <= r.averageScore <= 100.0
    {
      var h := GetAssessmentHistory(userId);
      AverageInRange(h);
      Aggregate(h)
    }
  }
}
