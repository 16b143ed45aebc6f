// The React hook of src/hooks/useRiskAssessment.ts: how it builds the
// context it hands to the risk service, and how it reacts to the score.

module RiskHook {
  import opened Common
  import opened RiskAssessment

  datatype Thresholds = Thresholds(requireAdditionalAuth: int, requireStepUpAuth: int, blockAccess: int)

  const DefaultThresholds := Thresholds(60, 80, 90)

  /** What the hook asks of the user after an assessment. */
  datatype Action = BlockAccess | StepUpAuth | AdditionalAuth | NoAction

  function ActionFor(score: int, t: Thresholds): (a: Action)
    ensures a == BlockAccess <==> score >= t.blockAccess
    ensures a == StepUpAuth <==> t.requireStepUpAuth <= score < t.blockAccess
    ensures a == AdditionalAuth <==> t.requireAdditionalAuth <= score < t.blockAccess && score < t.requireStepUpAuth
    ensures a == NoAction <==> score < t.requireAdditionalAuth && score < t.requireStepUpAuth && score < t.blockAccess
  {
    if score >= t.blockAccess then BlockAccess
    else if score >= t.requireStepUpAuth then StepUpAuth
    else if score >= t.requireAdditionalAuth then AdditionalAuth
    else NoAction
  }

  function ActionMessage(a: Action): Option<string>
  {
    match a
    case BlockAccess => Some("Access blocked due to high security risk. Please contact support.")
    case StepUpAuth => Some("Additional authentication required due to high risk activity.")
    case AdditionalAuth => Some("Please verify your identity.")
    case NoAction => None
  }

  /** With the default thresholds the action follows the service's risk level. */
  lemma DefaultActionsFollowLevels(score: int)
    requires 0 <= score <= 100
    ensures var a := ActionFor(score, DefaultThresholds);
      var l := DetermineRiskLevel(score as real);
      (a == NoAction <==> l == Low || l == Medium) &&
      (a == AdditionalAuth <==> l == High) &&
      (a == StepUpAuth || a == BlockAccess <==> l == Critical)
  {
  }

  /** What the browser reports about itself. */
  datatype Probe = Probe(
    userAgent: string,
    platform: string,
    browserName: Option<string>,
    osName: Option<string>,
    screenWidth: int,
    screenHeight: int,
    deviceMemory: Option<real>,
    hardwareConcurrency: int,
    touchSupport: bool)

  /**
   * The context `getUserContext` assembles. The behavioural metrics come from
   * the behavioural-authentication hook; the history is fixed placeholder data.
   */
  function GetUserContext(probe: Probe, env: Env, location: Option<Coordinates>,
                          confidenceScore: real, isCollectingData: bool): (ctx: UserContext)
    ensures ctx.timestamp == env.now && ctx.location == location
    ensures ctx.historicalData.commonLoginTimes == [env.hourOf(env.now)]
    ensures ctx.historicalData.knownLocations == []
    ensures ctx.historicalData.failedAttempts == 0 && ctx.historicalData.successfulLogins == 1
    ensures ctx.behavioralMetrics.typingConsistency == Some(confidenceScore)
  {
    UserContext(
      None,
      probe.userAgent,
      env.now,
      location,
      DeviceInfo(
        probe.platform,
        if probe.browserName.Some? && probe.browserName.value != "" then probe.browserName.value else "Unknown",
        if probe.osName.Some? && probe.osName.value != "" then probe.osName.value else "Unknown",
        IntToString(probe.screenWidth) + "x" + IntToString(probe.screenHeight),
        probe.deviceMemory,
        probe.hardwareConcurrency,
        probe.touchSupport),
      BehavioralMetrics(None, Some(confidenceScore), None, Some(if isCollectingData then 1.0 else 0.0)),
      HistoricalData(None, 0, 1, None, [env.hourOf(env.now)], []))
  }

  /**
   * Because of the placeholder history, the hook's contexts always log in at
   * a common hour, never raise a historical concern, get the neutral location
   * score, and never trip the interaction-frequency concern.
   */
  lemma HookContextFactorScores(probe: Probe, env: Env, location: Option<Coordinates>,
                                confidenceScore: real, isCollectingData: bool)
    ensures var ctx := GetUserContext(probe, env, location, confidenceScore, isCollectingData);
      AssessTimeRisk(ctx, env).score == 0.1 &&
      AssessHistoricalRisk(ctx, env).score == 0.0 &&
      AssessLocationRisk(ctx, env).score == 0.5 &&
      !(Truthy(ctx.behavioralMetrics.interactionFrequency) && ctx.behavioralMetrics.interactionFrequency.value < 0.3)
  {
    var ctx := GetUserContext(probe, env, location, confidenceScore, isCollectingData);
    TimeScoreCases(ctx, env);
    HistoricalScoreZeroIffNoConcern(ctx, env);
    LocationScoreIsNearestBand(ctx, env);
    assert !LowSuccessRate(ctx.historicalData) by {
      assert (1 as real) / (1 as real) == 1.0;
    }
  }

  /**
   * `performAssessment`: nothing happens without a signed-in user; otherwise
   * the service assesses and stores, and the hook picks its action.
   */
  method PerformAssessment(user: Option<string>, svc: RiskAssessmentService, ctx: UserContext,
                           env: Env, t: Thresholds) returns (r: Option<(Assessment, Action)>)
    requires svc.Valid()
    modifies svc
    ensures svc.Valid()
    ensures user.None? ==> r.None? && svc.riskHistory == old(svc.riskHistory)
    ensures user.Some? ==>
      r.Some? && r.value.0 == Evaluate(ctx, env) && r.value.1 == ActionFor(r.value.0.score, t) &&
      svc.riskHistory == old(svc.riskHistory)[user.value := Appended(old(svc.GetAssessmentHistory(user.value)), r.value.0, MaxHistoryLength)]
  {
    if user.None? {
      return None;
    }
    var assessment := svc.AssessRisk(user.value, ctx, env);
    r := Some((assessment, ActionFor(assessment.score, t)));
  }

  function GetRiskHistory(user: Option<string>, svc: RiskAssessmentService): (h: seq<Assessment>)
    reads svc
    ensures user.None? ==> h == []
    ensures user.Some? ==> h == svc.GetAssessmentHistory(user.value)
  {
    if user.None? then [] else svc.GetAssessmentHistory(user.value)
  }

  function GetAggregateRisk(user: Option<string>, svc: RiskAssessmentService): (r: Option<AggregateRisk>)
    reads svc
    ensures user.None? <==> r.None?
    ensures svc.Valid() && r.Some? ==> 0.0 <= r.value.averageScore <= 100.0
  {
    if user.None? then None else Some(svc.GetAggregateRisk(user.value))
  }
}
