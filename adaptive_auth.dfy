// The step-up component of src/components/AdaptiveAuth.tsx: a render decides
// from the trust score whether to let the user through, to ask for device
// registration or for biometric verification, and the two button handlers
// move between those steps. `onSuccess` is counted rather than called.

module AdaptiveAuth {
  import opened Common
  import opened DeviceTrust

  datatype Step = Check | Register | Verify

  /** The buttons a screen offers. */
  datatype Action = RegisterDeviceAction | BiometricAction | CancelAction

  /** What a render returns: nothing, or a screen with its buttons. */
  datatype Screen = NoScreen | RegisterScreen(actions: seq<Action>) | VerifyScreen(actions: seq<Action>)

  /** The step a render in `step` moves to: from `check`, by the ladder 80 / 60. */
  function NextStep(step: Step, score: int): (s: Step)
    ensures step != Check ==> s == step
    ensures step == Check ==> (s == Check <==> score >= 80)
    ensures step == Check ==> (s == Verify <==> 60 <= score < 80)
    ensures step == Check ==> (s == Register <==> score < 60)
  {
    if step != Check then step
    else if score >= 80 then Check
    else if score >= 60 then Verify
    else Register
  }

  /**
   * The screen rendered while the step is `step`. A render in `check` returns
   * nothing, since the step it sets shows only on the next render.
   */
  function ScreenOf(step: Step, biometricAvailable: bool): (sc: Screen)
    ensures sc.NoScreen? <==> step == Check
    ensures !sc.NoScreen? ==> CancelAction in sc.actions
    ensures !sc.NoScreen? ==> (BiometricAction in sc.actions <==> step == Verify && biometricAvailable)
    ensures !sc.NoScreen? ==> (RegisterDeviceAction in sc.actions <==> step == Register)
  {
    match step
    case Check => NoScreen
    case Register => RegisterScreen([RegisterDeviceAction, CancelAction])
    case Verify => VerifyScreen(if biometricAvailable then [BiometricAction, CancelAction] else [CancelAction])
  }

  /** The biometric path succeeds only when authentication resolves, after a registration that resolves when one is needed. */
  function BiometricSucceeds(enabled: bool, registrationResolves: bool, authenticationResolves: bool): (ok: bool)
    ensures ok ==> authenticationResolves
    ensures !enabled && !registrationResolves ==> !ok
  {
    (enabled || registrationResolves) && authenticationResolves
  }

  class AdaptiveAuthFlow {
    var step: Step
    /** How many times `onSuccess` has been called. */
    var successes: nat

    constructor ()
      ensures step == Check && successes == 0
    {
      step := Check;
      successes := 0;
    }

    /** A render with the current trust score; a score of 80 or more calls `onSuccess` on each render. */
    method Render(score: int, biometricAvailable: bool) returns (sc: Screen)
      modifies this
      ensures sc == ScreenOf(old(step), biometricAvailable)
      ensures step == NextStep(old(step), score)
      ensures successes == old(successes) + (if old(step) == Check && score >= 80 then 1 else 0)
    {
      sc := ScreenOf(step, biometricAvailable);
      if step == Check {
        if score >= 80 {
          successes := successes + 1;
        } else if score >= 60 {
          step := Verify;
        } else {
          step := Register;
        }
      }
    }

    /**
     * `handleRegisterDevice`: register the device, recompute the score, and
     * let the user through at 60 or more. `storageFails` stands for a write
     * to local storage that throws, which leaves the list unchanged and moves
     * to verification like a low score.
     */
    method HandleRegisterDevice(trust: DeviceTrustHook, browserName: Option<string>, osName: Option<string>,
                                vendor: Option<string>, registeredAt: int, registeredPosition: Option<Coordinates>,
                                probe: Probe, hourOf: int -> int, distance: (Coordinates, Coordinates) -> real,
                                storageFails: bool)
      modifies this, trust
      ensures storageFails ==>
        step == Verify && successes == old(successes) &&
        trust.knownDevices == old(trust.knownDevices) && trust.trustScore == old(trust.trustScore)
      ensures !storageFails ==>
        var d := NewDevice(probe.deviceId, browserName, osName, vendor, registeredAt, registeredPosition);
        var t := NextTrustScore(InitialTrustScore, Registered(old(trust.knownDevices), d), probe, hourOf, distance);
        trust.knownDevices == Registered(old(trust.knownDevices), d) && trust.trustScore == t &&
        (t.score >= 60 ==> step == old(step) && successes == old(successes) + 1) &&
        (t.score < 60 ==> step == Verify && successes == old(successes))
    {
      if storageFails {
        step := Verify;
      } else {
        var _ := trust.RegisterDevice(probe.deviceId, browserName, osName, vendor, registeredAt, registeredPosition);
        var t := trust.CalculateTrustScore(probe, hourOf, distance);
        if t.score >= 60 {
          successes := successes + 1;
        } else {
          step := Verify;
        }
      }
    }

    /** `handleBiometricAuth`: the step is unchanged, and `onSuccess` is called only on success. */
    method HandleBiometricAuth(enabled: bool, registrationResolves: bool, authenticationResolves: bool)
      modifies this
      ensures step == old(step)
      ensures successes == old(successes) + (if BiometricSucceeds(enabled, registrationResolves, authenticationResolves) then 1 else 0)
    {
      if !enabled && !registrationResolves {
        return;
      }
      if authenticationResolves {
        successes := successes + 1;
      }
    }
  }

  // ---------------------------------------------------------------------
  // Properties

  /** Nothing leads back to `check`: a render from another step keeps it, and the handlers reach only `verify`. */
  lemma NeverBackToCheck(step: Step, score: int)
    requires step != Check
    ensures NextStep(step, score) != Check
  {
  }

  /** The trust score starts at 0, so the first render asks for device registration. */
  lemma FirstRenderRegisters()
    ensures NextStep(Check, InitialTrustScore.score) == Register
    ensures ScreenOf(NextStep(Check, InitialTrustScore.score), false) == RegisterScreen([RegisterDeviceAction, CancelAction])
  {
  }

  /**
   * Once a device is registered, the recomputed score counts it as known and
   * its time pattern as matching: at least 30 points, and the risk is no
   * longer high for that reason alone.
   */
  lemma RegisteredDeviceIsKnown(previous: TrustScore, devices: seq<DeviceInfo>, probe: Probe,
                                browserName: Option<string>, osName: Option<string>, vendor: Option<string>,
                                registeredAt: int, registeredPosition: Option<Coordinates>,
                                hourOf: int -> int, distance: (Coordinates, Coordinates) -> real)
    ensures var d := NewDevice(probe.deviceId, browserName, osName, vendor, registeredAt, registeredPosition);
      var t := NextTrustScore(previous, Registered(devices, d), probe, hourOf, distance);
      t.factors.knownDevice && t.factors.timePatternMatch && t.score >= 30 &&
      (t.factors.recentActivity <==> probe.now - registeredAt < WeekMs)
  {
    var d := NewDevice(probe.deviceId, browserName, osName, vendor, registeredAt, registeredPosition);
    RegisteredOnce(devices, d);
  }
}
