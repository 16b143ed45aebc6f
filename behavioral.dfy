// The behavioural profile store of src/services/behavioralBiometrics.ts: the
// capture buffers its event handlers fill, the typing and mouse summaries
// computed over them, and the per-user profiles they feed. Event times
// (`performance.now()`), the ISO time of an update, the distance of a mouse
// move and the test for a sharp turn are inputs.

module Behavioral {
  import opened Common
  import opened OrderedMaps

  datatype KeyTiming = KeyTiming(key: string, pressTime: real, releaseTime: real, holdTime: real, flightTime: Option<real>)

  datatype Movement = Movement(x: real, y: real, timestamp: real, velocity: real)

  datatype ClickKind = SingleClick | DoubleClick | RightClick

  datatype Click = Click(x: real, y: real, timestamp: real, kind: ClickKind)

  /** A summary of the key timings; `None` stands for the `NaN` an empty list of hold times gives. */
  datatype TypingPattern = TypingPattern(
    keyTimings: seq<KeyTiming>,
    averageHoldTime: Option<real>,
    averageFlightTime: real,
    variance: Option<real>,
    consistency: Option<real>)

  datatype MovementPattern = Direct | Curved | Erratic

  /** A summary of the mouse buffers; `None` stands for the `NaN` of an average over no movement. */
  datatype MousePattern = MousePattern(
    movements: seq<Movement>,
    clicks: seq<Click>,
    averageVelocity: Option<real>,
    movementPattern: MovementPattern)

  datatype DeviceCharacteristics = DeviceCharacteristics(
    screenResolution: string,
    touchPoints: int,
    colorDepth: int,
    devicePixelRatio: real,
    hardwareConcurrency: int)

  /** A profile; `typingPatterns` is an object keyed by ISO time. */
  datatype BehavioralProfile = BehavioralProfile(
    typingPatterns: OMap<string, TypingPattern>,
    mousePatterns: seq<MousePattern>,
    deviceCharacteristics: DeviceCharacteristics,
    confidenceScore: Option<real>)

  const MinimumSamples := 10
  const MaxMovements := 100
  const MaxClicks := 50
  const MaxPatterns := 10
  const MaxVariance := 10000.0

  // ---------------------------------------------------------------------
  // Variance and consistency

  /** The mean of a list, `None` (`NaN`) for the empty list. */
  function Mean(xs: seq<real>): (m: Option<real>)
    ensures m.Some? <==> xs != []
  {
    if xs == [] then None else Some(SumReals(xs) / |xs| as real)
  }

  function SumSquares(xs: seq<real>, mean: real): (r: real)
    ensures r >= 0.0
  {
    if xs == [] then 0.0
    else
      var d := xs[|xs| - 1] - mean;
      SquareNonNegative(d);
      SumSquares(xs[..|xs| - 1], mean) + d * d
  }

  lemma SquareNonNegative(d: real)
    ensures d * d >= 0.0
  {
    if d < 0.0 {
      assert d * d == (-d) * (-d);
    }
  }

  /** `calculateVariance`: the population variance, never negative, and `NaN` for no numbers. */
  function Variance(xs: seq<real>): (v: Option<real>)
    ensures v.Some? <==> xs != []
    ensures v.Some? ==> v.value >= 0.0
  {
    if xs == [] then None else Some(SumSquares(xs, Mean(xs).value) / |xs| as real)
  }

  /** `Math.max(0, 1 - variance / 10000)`. */
  function VarianceConsistency(v: real): (c: real)
    requires v >= 0.0
    ensures 0.0 <= c <= 1.0
    ensures c == 1.0 <==> v == 0.0
    ensures c == 0.0 <==> v >= MaxVariance
  {
    MaxReal(0.0, 1.0 - v / MaxVariance)
  }

  /**
   * `calculateConsistency`: the hold term, averaged with the flight term
   * when there are flight times. With no hold times the hold variance is
   * `NaN`, and so is the result.
   */
  function Consistency(holdTimes: seq<real>, flightTimes: seq<real>): (c: Option<real>)
    ensures c.Some? <==> holdTimes != []
    ensures c.Some? ==> 0.0 <= c.value <= 1.0
    ensures c.Some? && flightTimes == [] ==> c.value == VarianceConsistency(Variance(holdTimes).value)
  {
    if holdTimes == [] then None
    else
      var hold := VarianceConsistency(Variance(holdTimes).value);
      if flightTimes == [] then Some(hold)
      else Some((hold + VarianceConsistency(Variance(flightTimes).value)) / 2.0)
  }

  /** Perfect consistency is reached exactly when neither the hold times nor the flight times vary. */
  lemma PerfectConsistency(holdTimes: seq<real>, flightTimes: seq<real>)
    requires holdTimes != [] && flightTimes != []
    ensures Consistency(holdTimes, flightTimes) == Some(1.0) <==>
      Variance(holdTimes) == Some(0.0) && Variance(flightTimes) == Some(0.0)
  {
  }

  // ---------------------------------------------------------------------
  // analyzeTypingPattern

  /** The timings already released. */
  function ReleasedTimings(ts: seq<KeyTiming>): (r: seq<KeyTiming>)
    ensures |r| <= |ts|
    ensures forall i :: 0 <= i < |r| ==> r[i].releaseTime > 0.0 && r[i] in ts
    ensures forall i :: 0 <= i < |ts| && ts[i].releaseTime > 0.0 ==> ts[i] in r
  {
    if ts == [] then []
    else
      var rest := ReleasedTimings(ts[..|ts| - 1]);
      assert forall i :: 0 <= i < |ts| - 1 ==> ts[..|ts| - 1][i] == ts[i];
      if ts[|ts| - 1].releaseTime > 0.0 then rest + [ts[|ts| - 1]] else rest
  }

  function HoldTimes(ts: seq<KeyTiming>): (r: seq<real>)
    ensures |r| == |ts|
    ensures forall i :: 0 <= i < |ts| ==> r[i] == ts[i].holdTime
  {
    if ts == [] then [] else HoldTimes(ts[..|ts| - 1]) + [ts[|ts| - 1].holdTime]
  }

  /** The flight times that are defined, in order. */
  function FlightTimes(ts: seq<KeyTiming>): (r: seq<real>)
    ensures |r| <= |ts|
  {
    if ts == [] then []
    else
      var rest := FlightTimes(ts[..|ts| - 1]);
      var last := ts[|ts| - 1];
      if last.flightTime.Some? then rest + [last.flightTime.value] else rest
  }

  /** `analyzeTypingPattern` over a list of key timings. */
  function AnalyzeTyping(ts: seq<KeyTiming>): (p: TypingPattern)
    ensures p.keyTimings == ReleasedTimings(ts)
    ensures p.consistency.Some? <==> p.keyTimings != []
    ensures p.consistency.Some? ==> 0.0 <= p.consistency.value <= 1.0
  {
    var valid := ReleasedTimings(ts);
    var holds := HoldTimes(valid);
    var flights := FlightTimes(valid);
    TypingPattern(valid, Mean(holds), if flights != [] then Mean(flights).value else 0.0,
                  Variance(holds), Consistency(holds, flights))
  }

  // ---------------------------------------------------------------------
  // Key handlers

  /** The timing `handleKeyDown` appends: unreleased, with a flight time only after a released key. */
  function Pressed(ts: seq<KeyTiming>, key: string, now: real): (t: KeyTiming)
    ensures t.key == key && t.pressTime == now && t.releaseTime == 0.0 && t.holdTime == 0.0
    ensures t.flightTime.Some? <==> ts != [] && ts[|ts| - 1].releaseTime > 0.0
    ensures t.flightTime.Some? ==> t.flightTime.value == now - ts[|ts| - 1].releaseTime
  {
    var flight := if ts != [] && ts[|ts| - 1].releaseTime > 0.0 then Some(now - ts[|ts| - 1].releaseTime) else None;
    KeyTiming(key, now, 0.0, 0.0, flight)
  }

  predicate Pending(t: KeyTiming, key: string)
  {
    t.key == key && t.releaseTime == 0.0
  }

  /** The position `find` stops at: the first unreleased timing of the key. */
  function FirstPending(ts: seq<KeyTiming>, key: string): (r: Option<nat>)
    ensures r.Some? ==>
      r.value < |ts| && Pending(ts[r.value], key) && forall j :: 0 <= j < r.value ==> !Pending(ts[j], key)
    ensures r.None? ==> forall j :: 0 <= j < |ts| ==> !Pending(ts[j], key)
  {
    if ts == [] then None
    else if Pending(ts[0], key) then Some(0)
    else
      var r := FirstPending(ts[1..], key);
      assert forall j :: 1 <= j < |ts| ==> ts[j] == ts[1..][j - 1];
      if r.None? then None else Some(r.value + 1)
  }

  /** What `handleKeyUp` makes of the timings: at most one is released, the first pending one of the key. */
  function Released(ts: seq<KeyTiming>, key: string, now: real): (r: seq<KeyTiming>)
    ensures |r| == |ts|
  {
    match FirstPending(ts, key)
    case None => ts
    case Some(i) => ts[i := ts[i].(releaseTime := now, holdTime := now - ts[i].pressTime)]
  }

  /** A key release touches one timing at most, and only its release and hold times. */
  lemma ReleasedChangesOne(ts: seq<KeyTiming>, key: string, now: real)
    ensures var r := Released(ts, key, now);
      forall j :: 0 <= j < |ts| && r[j] != ts[j] ==>
        FirstPending(ts, key) == Some(j) && r[j].key == key && r[j].pressTime == ts[j].pressTime &&
        r[j].releaseTime == now && r[j].holdTime == now - ts[j].pressTime && r[j].flightTime == ts[j].flightTime
  {
  }

  // ---------------------------------------------------------------------
  // Mouse handlers and analyzeMousePattern

  /** `calculateVelocity`, with the distance to the previous movement as an input. */
  function Velocity(ms: seq<Movement>, now: real, distance: real): (v: real)
    ensures ms == [] ==> v == 0.0
  {
    if ms == [] then 0.0
    else
      var timeDiff := now - ms[|ms| - 1].timestamp;
      if timeDiff > 0.0 then distance / timeDiff else 0.0
  }

  function Velocities(ms: seq<Movement>): (r: seq<real>)
    ensures |r| == |ms|
  {
    if ms == [] then [] else Velocities(ms[..|ms| - 1]) + [ms[|ms| - 1].velocity]
  }

  /** How many of the consecutive triples of points make a sharp turn. */
  function TurnCount(ms: seq<Movement>, isTurn: (Movement, Movement, Movement) -> bool): (n: nat)
    ensures n <= if |ms| < 3 then 0 else |ms| - 2
  {
    if |ms| < 3 then 0
    else TurnCount(ms[..|ms| - 1], isTurn) + (if isTurn(ms[|ms| - 3], ms[|ms| - 2], ms[|ms| - 1]) then 1 else 0)
  }

  lemma TurnCountSnoc(ms: seq<Movement>, isTurn: (Movement, Movement, Movement) -> bool, i: nat)
    requires 2 <= i < |ms|
    ensures TurnCount(ms[..i + 1], isTurn) == TurnCount(ms[..i], isTurn) + (if isTurn(ms[i - 2], ms[i - 1], ms[i]) then 1 else 0)
  {
    assert ms[..i + 1][..i] == ms[..i];
  }

  /** The movement pattern the turn ratio gives. */
  function MovementPatternOf(ms: seq<Movement>, isTurn: (Movement, Movement, Movement) -> bool): MovementPattern
  {
    if |ms| < 3 then Direct
    else
      var ratio := TurnCount(ms, isTurn) as real / (|ms| - 2) as real;
      if ratio > 0.5 then Erratic else if ratio > 0.2 then Curved else Direct
  }

  /**
   * In whole numbers: with t turns over s segments, erratic exactly when
   * 2t > s, curved exactly when 5t > s but not 2t > s, direct otherwise.
   */
  lemma MovementPatternByCounts(ms: seq<Movement>, isTurn: (Movement, Movement, Movement) -> bool)
    requires |ms| >= 3
    ensures var t, s := TurnCount(ms, isTurn), |ms| - 2;
      (MovementPatternOf(ms, isTurn) == Erratic <==> 2 * t > s) &&
      (MovementPatternOf(ms, isTurn) == Curved <==> 2 * t <= s && 5 * t > s)
  {
    var t := TurnCount(ms, isTurn);
    RatioAbove(t, |ms| - 2, 0.5, 2);
    RatioAbove(t, |ms| - 2, 0.2, 5);
  }

  /** For a positive count s and a threshold c = 1/k: t / s > c exactly when k t > s. */
  lemma RatioAbove(t: int, s: int, c: real, k: int)
    requires s > 0 && k > 0 && c * k as real == 1.0
    ensures t as real / s as real > c <==> k * t > s
  {
    var r := t as real / s as real;
    assert t as real == r * s as real;
    if r > c {
      assert (r - c) * s as real > 0.0;
      assert k as real * t as real == k as real * r * s as real;
    } else {
      assert (c - r) * s as real >= 0.0;
    }
  }

  /** `determineMovementPattern`: counts the sharp turns over each triple of consecutive points. */
  method DetermineMovementPattern(ms: seq<Movement>, isTurn: (Movement, Movement, Movement) -> bool)
    returns (p: MovementPattern)
    ensures p == MovementPatternOf(ms, isTurn)
  {
    if |ms| < 3 {
      return Direct;
    }
    var angleChanges := 0;
    var totalSegments := 0;
    var i := 2;
    while i < |ms|
      invariant 2 <= i <= |ms|
      invariant angleChanges == TurnCount(ms[..i], isTurn) && totalSegments == i - 2
    {
      TurnCountSnoc(ms, isTurn, i);
      if isTurn(ms[i - 2], ms[i - 1], ms[i]) {
        angleChanges := angleChanges + 1;
      }
      totalSegments := totalSegments + 1;
      i := i + 1;
    }
    assert ms[..i] == ms;
    var changeRatio := angleChanges as real / totalSegments as real;
    if changeRatio > 0.5 {
      p := Erratic;
    } else if changeRatio > 0.2 {
      p := Curved;
    } else {
      p := Direct;
    }
  }

  /** `analyzeMousePattern` over the buffers. */
  function AnalyzeMouse(ms: seq<Movement>, clicks: seq<Click>, isTurn: (Movement, Movement, Movement) -> bool): (p: MousePattern)
    ensures p.movements == ms && p.clicks == clicks
    ensures p.averageVelocity.Some? <==> ms != []
  {
    MousePattern(ms, clicks, Mean(Velocities(ms)), MovementPatternOf(ms, isTurn))
  }

  // ---------------------------------------------------------------------
  // calculateConfidenceScore

  function MouseConsistencyScore(p: MovementPattern): real
  {
    match p
    case Erratic => 0.3
    case Curved => 0.7
    case Direct => 1.0
  }

  /**
   * `calculateConfidenceScore`: 0.4 of the typing consistency with at least
   * ten released keys, 0.3 of the movement score, 0.3 of the capped
   * complexity, capped at 1. A `NaN` consistency, which needs an empty list
   * of timings, makes the score `NaN` only when it is counted.
   */
  function ConfidenceScore(tp: TypingPattern, mp: MousePattern): (r: Option<real>)
    ensures r.None? <==> |tp.keyTimings| >= MinimumSamples && tp.consistency.None?
    ensures r.Some? && (tp.consistency.Some? ==> 0.0 <= tp.consistency.value <= 1.0) ==> 0.0 <= r.value <= 1.0
  {
    var complexity := (|tp.keyTimings| as real / 50.0 + |mp.movements| as real / 100.0) / 2.0;
    var rest := MouseConsistencyScore(mp.movementPattern) * 0.3 + MinReal(1.0, complexity) * 0.3;
    if |tp.keyTimings| >= MinimumSamples then
      if tp.consistency.None? then None else Some(MinReal(1.0, tp.consistency.value * 0.4 + rest))
    else Some(MinReal(1.0, rest))
  }

  /** Over the summaries the service computes, the score is a number in [0, 1] and the final cap never binds. */
  lemma ConfidenceOfAnalyzed(ts: seq<KeyTiming>, mp: MousePattern)
    ensures var tp := AnalyzeTyping(ts);
      var r := ConfidenceScore(tp, mp);
      r.Some? && 0.0 <= r.value <= 1.0 &&
      r.value == (if |tp.keyTimings| >= MinimumSamples then tp.consistency.value * 0.4 else 0.0) +
        MouseConsistencyScore(mp.movementPattern) * 0.3 +
        MinReal(1.0, (|tp.keyTimings| as real / 50.0 + |mp.movements| as real / 100.0) / 2.0) * 0.3
  {
  }

  // ---------------------------------------------------------------------
  // Comparisons used by verifyUser

  function MaxOf(xs: seq<real>): (m: real)
    requires xs != []
    ensures m in xs && forall i :: 0 <= i < |xs| ==> xs[i] <= m
  {
    if |xs| == 1 then xs[0]
    else
      var rest := MaxOf(xs[1..]);
      assert forall i :: 1 <= i < |xs| ==> xs[i] == xs[1..][i - 1];
      MaxReal(xs[0], rest)
  }

  function MapScores<P>(stored: seq<P>, score: P -> real): (r: seq<real>)
    ensures |r| == |stored|
    ensures forall i :: 0 <= i < |stored| ==> r[i] == score(stored[i])
  {
    if stored == [] then [] else [score(stored[0])] + MapScores(stored[1..], score)
  }

  /**
   * `compareTypingPatterns`, with the score of one stored pattern as an
   * input: 0 without stored patterns or with fewer than ten released keys,
   * otherwise the best score.
   */
  function CompareTyping(current: TypingPattern, stored: seq<TypingPattern>,
                         score: (TypingPattern, TypingPattern) -> real): (r: real)
    ensures stored == [] || |current.keyTimings| < MinimumSamples ==> r == 0.0
    ensures stored != [] && |current.keyTimings| >= MinimumSamples ==>
      (exists i :: 0 <= i < |stored| && r == score(current, stored[i])) &&
      forall i :: 0 <= i < |stored| ==> score(current, stored[i]) <= r
  {
    if stored == [] || |current.keyTimings| < MinimumSamples then 0.0
    else MaxOf(MapScores(stored, (p: TypingPattern) => score(current, p)))
  }

  /** `compareMousePatterns`, with the score of one stored pattern as an input: 0 without stored patterns. */
  function CompareMouse(current: MousePattern, stored: seq<MousePattern>, score: (MousePattern, MousePattern) -> real): (r: real)
    ensures stored == [] ==> r == 0.0
    ensures stored != [] ==>
      (exists i :: 0 <= i < |stored| && r == score(current, stored[i])) &&
      forall i :: 0 <= i < |stored| ==> score(current, stored[i]) <= r
  {
    if stored == [] then 0.0 else MaxOf(MapScores(stored, (p: MousePattern) => score(current, p)))
  }

  // ---------------------------------------------------------------------
  // The key order `Object.keys(...).sort()` uses

  /** Lexicographic order on code units, a prefix first, as JavaScript's default `sort` compares strings. */
  predicate LexLe(a: string, b: string)
  {
    a == [] || (b != [] && (a[0] < b[0] || (a[0] == b[0] && LexLe(a[1..], b[1..]))))
  }

  lemma {:induction false} LexLeTotal(a: string, b: string)
    ensures LexLe(a, b) || LexLe(b, a)
  {
    if a != [] && b != [] && a[0] == b[0] {
      LexLeTotal(a[1..], b[1..]);
    }
  }

  lemma {:induction false} LexLeTransitive(a: string, b: string, c: string)
    requires LexLe(a, b) && LexLe(b, c)
    ensures LexLe(a, c)
  {
    if a != [] && b != [] && c != [] && a[0] == b[0] && b[0] == c[0] {
      LexLeTransitive(a[1..], b[1..], c[1..]);
    }
  }

  lemma {:induction false} LexLeReflexive(a: string)
    ensures LexLe(a, a)
  {
    if a != [] {
      LexLeReflexive(a[1..]);
    }
  }

  /** The key `sort()` puts first. */
  function SmallestKey(keys: seq<string>): (k: string)
    requires keys != []
    ensures k in keys
  {
    if |keys| == 1 then keys[0]
    else
      var rest := SmallestKey(keys[1..]);
      if LexLe(keys[0], rest) then keys[0] else rest
  }

  /** No key sorts before the smallest one. */
  lemma {:induction false} SmallestKeyIsSmallest(keys: seq<string>, i: nat)
    requires i < |keys|
    ensures LexLe(SmallestKey(keys), keys[i])
  {
    if |keys| == 1 {
      LexLeReflexive(keys[0]);
    } else {
      var rest := SmallestKey(keys[1..]);
      LexLeTotal(keys[0], rest);
      if i == 0 {
        LexLeReflexive(keys[0]);
      } else {
        assert keys[i] == keys[1..][i - 1];
        SmallestKeyIsSmallest(keys[1..], i - 1);
        if LexLe(keys[0], rest) {
          LexLeTransitive(keys[0], rest, keys[i]);
        }
      }
    }
  }

  // ---------------------------------------------------------------------
  // Profiles

  /** What every stored profile keeps: distinct keys and at most ten patterns of each kind. */
  predicate Bounded(p: BehavioralProfile)
  {
    Keyed(p.typingPatterns) && |p.typingPatterns| <= MaxPatterns && |p.mousePatterns| <= MaxPatterns
  }

  /** The profile `createProfile` builds. */
  function NewProfile(tp: TypingPattern, mp: MousePattern, isoNow: string, device: DeviceCharacteristics): (p: BehavioralProfile)
    ensures Bounded(p)
    ensures Get(p.typingPatterns, isoNow) == Some(tp) && p.mousePatterns == [mp]
  {
    var typing: OMap<string, TypingPattern> := [(isoNow, tp)];
    assert Keys(typing) == [isoNow];
    BehavioralProfile(typing, [mp], device, ConfidenceScore(tp, mp))
  }

  /** The typing patterns after `updateProfile`: the new one stored, and the smallest key dropped past ten. */
  function AddTypingPattern(m: OMap<string, TypingPattern>, isoNow: string, tp: TypingPattern): (r: OMap<string, TypingPattern>)
    requires Keyed(m) && |m| <= MaxPatterns
    ensures Keyed(r) && |r| <= MaxPatterns
  {
    PutKeyed(m, isoNow, tp);
    PutShape(m, isoNow, tp);
    var put := Put(m, isoNow, tp);
    if |put| > MaxPatterns then
      var oldest := SmallestKey(Keys(put));
      RemoveKeyed(put, oldest);
      Remove(put, oldest)
    else put
  }

  /** The profile after `updateProfile`. */
  function UpdatedProfile(p: BehavioralProfile, tp: TypingPattern, mp: MousePattern, isoNow: string): (r: BehavioralProfile)
    requires Bounded(p)
    ensures Bounded(r)
    ensures r.mousePatterns == Appended(p.mousePatterns, mp, MaxPatterns)
    ensures r.deviceCharacteristics == p.deviceCharacteristics && r.confidenceScore == ConfidenceScore(tp, mp)
  {
    BehavioralProfile(AddTypingPattern(p.typingPatterns, isoNow, tp), Appended(p.mousePatterns, mp, MaxPatterns),
                      p.deviceCharacteristics, ConfidenceScore(tp, mp))
  }

  /**
   * After an update the new typing pattern is stored under its time unless
   * that time is the smallest of eleven, and the key dropped, if any, is the
   * smallest; every other key keeps its pattern.
   */
  lemma AddTypingPatternKeeps(m: OMap<string, TypingPattern>, isoNow: string, tp: TypingPattern, j: string)
    requires Keyed(m) && |m| <= MaxPatterns
    ensures var put := Put(m, isoNow, tp);
      var r := AddTypingPattern(m, isoNow, tp);
      if |put| <= MaxPatterns then Get(r, j) == Get(put, j)
      else Get(r, j) == (if j == SmallestKey(Keys(put)) then None else Get(put, j))
    ensures Get(Put(m, isoNow, tp), j) == if j == isoNow then Some(tp) else Get(m, j)
  {
    PutGet(m, isoNow, tp, j);
    var put := Put(m, isoNow, tp);
    if |put| > MaxPatterns {
      RemoveGet(put, SmallestKey(Keys(put)), j);
    }
  }

  class BehavioralBiometrics {
    var profiles: map<string, BehavioralProfile>
    var currentTypingPattern: seq<KeyTiming>
    var mouseMovements: seq<Movement>
    var mouseClicks: seq<Click>

    ghost predicate Valid()
      reads this
    {
      |mouseMovements| <= MaxMovements && forall u :: u in profiles ==> Bounded(profiles[u])
    }

    /** The listeners are not modelled; every buffer and the profile map start empty. */
    constructor ()
      ensures Valid()
      ensures profiles == map[] && currentTypingPattern == [] && mouseMovements == [] && mouseClicks == []
    {
      profiles := map[];
      currentTypingPattern := [];
      mouseMovements := [];
      mouseClicks := [];
    }

    /** `handleKeyDown`. */
    method HandleKeyDown(key: string, now: real)
      requires Valid()
      modifies this
      ensures Valid()
      ensures currentTypingPattern == old(currentTypingPattern) + [Pressed(old(currentTypingPattern), key, now)]
      ensures profiles == old(profiles) && mouseMovements == old(mouseMovements) && mouseClicks == old(mouseClicks)
    {
      var flight: Option<real> := None;
      if |currentTypingPattern| > 0 {
        var lastTiming := currentTypingPattern[|currentTypingPattern| - 1];
        if lastTiming.releaseTime > 0.0 {
          flight := Some(now - lastTiming.releaseTime);
        }
      }
      currentTypingPattern := currentTypingPattern + [KeyTiming(key, now, 0.0, 0.0, flight)];
    }

    /** `handleKeyUp`: releases the first pending timing of the key, if there is one. */
    method HandleKeyUp(key: string, now: real)
      requires Valid()
      modifies this
      ensures Valid()
      ensures currentTypingPattern == Released(old(currentTypingPattern), key, now)
      ensures profiles == old(profiles) && mouseMovements == old(mouseMovements) && mouseClicks == old(mouseClicks)
    {
      var i := 0;
      while i < |currentTypingPattern| && !Pending(currentTypingPattern[i], key)
        invariant 0 <= i <= |currentTypingPattern|
        invariant forall j :: 0 <= j < i ==> !Pending(currentTypingPattern[j], key)
      {
        i := i + 1;
      }
      if i < |currentTypingPattern| {
        var timing := currentTypingPattern[i];
        currentTypingPattern := currentTypingPattern[i := timing.(releaseTime := now, holdTime := now - timing.pressTime)];
      }
    }

    /** `handleMouseMove`, with the distance to the previous movement as an input: keeps the newest 100. */
    method HandleMouseMove(x: real, y: real, now: real, distance: real)
      requires Valid()
      modifies this
      ensures Valid()
      ensures mouseMovements == Appended(old(mouseMovements), Movement(x, y, now, Velocity(old(mouseMovements), now, distance)), MaxMovements)
      ensures profiles == old(profiles) && currentTypingPattern == old(currentTypingPattern) && mouseClicks == old(mouseClicks)
    {
      var velocity := Velocity(mouseMovements, now, distance);
      mouseMovements := mouseMovements + [Movement(x, y, now, velocity)];
      if |mouseMovements| > MaxMovements {
        mouseMovements := mouseMovements[1..];
      }
    }

    /** `handleMouseClick`: a double click has `detail` 2; keeps the newest 50 whenever it pushes. */
    method HandleMouseClick(x: real, y: real, now: real, detail: int)
      requires Valid()
      modifies this
      ensures Valid()
      ensures mouseClicks == Appended(old(mouseClicks), Click(x, y, now, if detail == 2 then DoubleClick else SingleClick), MaxClicks)
      ensures profiles == old(profiles) && currentTypingPattern == old(currentTypingPattern) && mouseMovements == old(mouseMovements)
    {
      mouseClicks := mouseClicks + [Click(x, y, now, if detail == 2 then DoubleClick else SingleClick)];
      if |mouseClicks| > MaxClicks {
        mouseClicks := mouseClicks[1..];
      }
    }

    /** `handleRightClick`: appends without any cap. */
    method HandleRightClick(x: real, y: real, now: real)
      requires Valid()
      modifies this
      ensures Valid()
      ensures mouseClicks == old(mouseClicks) + [Click(x, y, now, RightClick)]
      ensures profiles == old(profiles) && currentTypingPattern == old(currentTypingPattern) && mouseMovements == old(mouseMovements)
    {
      mouseClicks := mouseClicks + [Click(x, y, now, RightClick)];
    }

    /** `analyzeMousePattern`. */
    method AnalyzeMousePattern(isTurn: (Movement, Movement, Movement) -> bool) returns (p: MousePattern)
      ensures p == AnalyzeMouse(mouseMovements, mouseClicks, isTurn)
    {
      var pattern := DetermineMovementPattern(mouseMovements, isTurn);
      p := MousePattern(mouseMovements, mouseClicks, Mean(Velocities(mouseMovements)), pattern);
    }

    /** `createProfile`: a fresh profile from the current buffers replaces any stored one. */
    method CreateProfile(userId: string, isoNow: string, device: DeviceCharacteristics,
                         isTurn: (Movement, Movement, Movement) -> bool) returns (profile: BehavioralProfile)
      requires Valid()
      modifies this
      ensures Valid()
      ensures profile == NewProfile(AnalyzeTyping(currentTypingPattern), AnalyzeMouse(mouseMovements, mouseClicks, isTurn), isoNow, device)
      ensures profiles == old(profiles)[userId := profile]
      ensures currentTypingPattern == old(currentTypingPattern) && mouseMovements == old(mouseMovements) && mouseClicks == old(mouseClicks)
    {
      var typingPattern := AnalyzeTyping(currentTypingPattern);
      var mousePattern := AnalyzeMousePattern(isTurn);
      profile := NewProfile(typingPattern, mousePattern, isoNow, device);
      profiles := profiles[userId := profile];
    }

    /** `updateProfile`: nothing for an unknown user; otherwise one more pattern of each kind, at most ten kept. */
    method UpdateProfile(userId: string, isoNow: string, isTurn: (Movement, Movement, Movement) -> bool)
      requires Valid()
      modifies this
      ensures Valid()
      ensures userId !in old(profiles) ==> profiles == old(profiles)
      ensures userId in old(profiles) ==> profiles == old(profiles)[userId :=
        UpdatedProfile(old(profiles[userId]), AnalyzeTyping(currentTypingPattern), AnalyzeMouse(mouseMovements, mouseClicks, isTurn), isoNow)]
      ensures currentTypingPattern == old(currentTypingPattern) && mouseMovements == old(mouseMovements) && mouseClicks == old(mouseClicks)
    {
      if userId !in profiles {
        return;
      }
      var existing := profiles[userId];
      var newTypingPattern := AnalyzeTyping(currentTypingPattern);
      var newMousePattern := AnalyzeMousePattern(isTurn);
      var updated := UpdatedProfile(existing, newTypingPattern, newMousePattern, isoNow);
      assert Bounded(updated);
      profiles := profiles[userId := updated];
    }

    /**
     * `verifyUser`, with the per-pattern comparison scores as inputs: 0
     * without a profile, otherwise 0.7 of the best typing match and 0.3 of
     * the best mouse match.
     */
    method VerifyUser(userId: string, isTurn: (Movement, Movement, Movement) -> bool,
                      typingScore: (TypingPattern, TypingPattern) -> real,
                      mouseScore: (MousePattern, MousePattern) -> real) returns (score: real)
      ensures userId !in profiles ==> score == 0.0
      ensures userId in profiles ==>
        score == CompareTyping(AnalyzeTyping(currentTypingPattern), Values(profiles[userId].typingPatterns), typingScore) * 0.7 +
                 CompareMouse(AnalyzeMouse(mouseMovements, mouseClicks, isTurn), profiles[userId].mousePatterns, mouseScore) * 0.3
    {
      if userId !in profiles {
        return 0.0;
      }
      var profile := profiles[userId];
      var currentTyping := AnalyzeTyping(currentTypingPattern);
      var currentMouse := AnalyzeMousePattern(isTurn);
      var typingMatch := CompareTyping(currentTyping, Values(profile.typingPatterns), typingScore);
      var mouseMatch := CompareMouse(currentMouse, profile.mousePatterns, mouseScore);
      score := typingMatch * 0.7 + mouseMatch * 0.3;
    }

    /** `reset`: empties the capture buffers and keeps every profile. */
    method Reset()
      requires Valid()
      modifies this
      ensures Valid()
      ensures currentTypingPattern == [] && mouseMovements == [] && mouseClicks == []
      ensures profiles == old(profiles)
    {
      currentTypingPattern := [];
      mouseMovements := [];
      mouseClicks := [];
    }
  }

  /** A typing comparison counts only with at least ten released keys, whatever is stored. */
  lemma FewKeysNeverMatch(ts: seq<KeyTiming>, stored: seq<TypingPattern>, score: (TypingPattern, TypingPattern) -> real)
    requires |ReleasedTimings(ts)| < MinimumSamples
    ensures CompareTyping(AnalyzeTyping(ts), stored, score) == 0.0
  {
  }
}
