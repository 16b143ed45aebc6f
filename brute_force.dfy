// The per-identifier login throttle of src/hooks/useBruteForceProtection.ts:
// a counter of failed attempts kept in local storage, reset when the attempt
// window has passed, and a lockout with progressive duration.

module BruteForce {
  import opened Common

  datatype Complexity = Normal | Enhanced | Maximum

  datatype BruteForceState = BruteForceState(
    attempts: int,
    lastAttemptTime: int,
    blockUntil: Option<int>,
    complexity: Complexity)

  /** Durations are in minutes. */
  datatype Config = Config(
    maxAttempts: int,
    blockDuration: int,
    attemptWindow: int,
    progressiveBlocking: bool,
    enhancedThreshold: int,
    maximumThreshold: int)

  const DefaultConfig := Config(5, 15, 60, true, 3, 5)

  const InitialState := BruteForceState(0, 0, None, Normal)

  predicate ValidConfig(cfg: Config) { cfg.maxAttempts > 0 }

  function Pow2(k: nat): (r: int)
    ensures r >= 1
  {
    if k == 0 then 1 else 2 * Pow2(k - 1)
  }

  /** The lockout length in minutes: doubled per multiple of `maxAttempts`, at most 2^6 times. */
  function CalculateBlockDuration(cfg: Config, attempts: nat): (m: int)
    requires ValidConfig(cfg)
    ensures !cfg.progressiveBlocking ==> m == cfg.blockDuration
    ensures cfg.progressiveBlocking ==>
      m == cfg.blockDuration * Pow2(MinInt(attempts / cfg.maxAttempts, 6))
  {
    if !cfg.progressiveBlocking then cfg.blockDuration
    else cfg.blockDuration * Pow2(MinInt(attempts / cfg.maxAttempts, 6))
  }

  lemma {:induction false} Pow2Monotone(i: nat, j: nat)
    requires i <= j
    ensures Pow2(i) <= Pow2(j)
  {
    if i < j { Pow2Monotone(i, j - 1); }
  }

  /** More attempts never shorten the lockout, and it never exceeds 64 times the base. */
  lemma BlockDurationMonotoneAndCapped(cfg: Config, a: nat, b: nat)
    requires ValidConfig(cfg) && cfg.blockDuration >= 0 && a <= b
    ensures CalculateBlockDuration(cfg, a) <= CalculateBlockDuration(cfg, b)
    ensures CalculateBlockDuration(cfg, b) <= 64 * cfg.blockDuration
  {
    if cfg.progressiveBlocking {
      var fa, fb := MinInt(a / cfg.maxAttempts, 6), MinInt(b / cfg.maxAttempts, 6);
      DivMonotone(a, b, cfg.maxAttempts);
      Pow2Monotone(fa, fb);
      Pow2Monotone(fb, 6);
      assert Pow2(6) == 64;
      MulMonotone(cfg.blockDuration, Pow2(fa), Pow2(fb));
      MulMonotone(cfg.blockDuration, Pow2(fb), 64);
    }
  }

  lemma DivMonotone(a: nat, b: nat, d: int)
    requires a <= b && d > 0
    ensures a / d <= b / d
  {
    var qa, qb := a / d, b / d;
    if qa > qb {
      MulMonotone(d, qb + 1, qa);
    }
  }

  lemma MulMonotone(k: int, x: int, y: int)
    requires k >= 0 && x <= y
    ensures k * x <= k * y
  {
  }

  /** The default schedule: 30 minutes from the 5th attempt, 60 from the 10th, up to 960. */
  lemma DefaultSchedule()
    ensures CalculateBlockDuration(DefaultConfig, 5) == 30
    ensures CalculateBlockDuration(DefaultConfig, 10) == 60
    ensures CalculateBlockDuration(DefaultConfig, 30) == 960
    ensures CalculateBlockDuration(DefaultConfig, 1000) == 960
  {
    assert Pow2(6) == 64;
  }

  datatype AttemptOutcome =
    | Locked(remainingMinutes: int)
    | TooManyAttempts(lockMinutes: int, unsaved: BruteForceState)
    | Recorded(state: BruteForceState)

  function OutcomeMessage(o: AttemptOutcome): Option<string>
  {
    match o
    case Locked(m) => Some("Account is temporarily locked. Please try again in " + IntToString(m) + " minutes.")
    case TooManyAttempts(m, _) => Some("Too many failed attempts. Account is locked for " + IntToString(m) + " minutes.")
    case Recorded(_) => None
  }

  predicate IsLocked(s: BruteForceState, now: int)
  {
    s.blockUntil.Some? && s.blockUntil.value != 0 && now < s.blockUntil.value
  }

  function ComplexityFor(cfg: Config, attempts: int): Complexity
  {
    if attempts >= cfg.maximumThreshold then Maximum
    else if attempts >= cfg.enhancedThreshold then Enhanced
    else Normal
  }

  /** `recordAttempt` as a function of the record it reads and the clock. */
  function Attempt(cfg: Config, stored: BruteForceState, now: int): (o: AttemptOutcome)
    requires ValidConfig(cfg) && stored.attempts >= 0
    ensures o.Locked? <==> IsLocked(stored, now)
    ensures o.Locked? ==>
      o.remainingMinutes >= 1 &&
      (o.remainingMinutes - 1) * 60000 < stored.blockUntil.value - now <= o.remainingMinutes * 60000
    ensures !o.Locked? ==>
      var resets := now - stored.lastAttemptTime > cfg.attemptWindow * 60000;
      var count := if resets then 1 else stored.attempts + 1;
      (o.TooManyAttempts? <==> count >= cfg.maxAttempts) &&
      (o.Recorded? ==> o.state == BruteForceState(count, now, None, ComplexityFor(cfg, count))) &&
      (o.TooManyAttempts? ==>
         o.lockMinutes == CalculateBlockDuration(cfg, count) &&
         o.unsaved.blockUntil == Some(now + o.lockMinutes * 60000))
  {
    if IsLocked(stored, now) then
      Locked(CeilDiv(stored.blockUntil.value - now, 60000))
    else
      var resets := now - stored.lastAttemptTime > cfg.attemptWindow * 60000;
      var count := if resets then 1 else stored.attempts + 1;
      var next := BruteForceState(count, now, None, ComplexityFor(cfg, count));
      if count >= cfg.maxAttempts then
        var minutes := CalculateBlockDuration(cfg, count);
        TooManyAttempts(minutes, next.(blockUntil := Some(now + minutes * 60000)))
      else Recorded(next)
  }

  /** A record that the hook itself could have written: no lock, fewer than `maxAttempts`. */
  predicate Unlocked(cfg: Config, s: BruteForceState)
  {
    s.blockUntil.None? && 0 <= s.attempts < cfg.maxAttempts
  }

  /** Whatever the hook saves is unlocked: the lockout is thrown before anything is saved. */
  lemma RecordedStatesAreUnlocked(cfg: Config, stored: BruteForceState, now: int)
    requires ValidConfig(cfg) && stored.attempts >= 0
    ensures var o := Attempt(cfg, stored, now);
      o.Recorded? ==> Unlocked(cfg, o.state)
  {
  }

  /**
   * From a record the hook wrote, the lock branch is never taken, and every
   * lockout announces exactly twice the base duration: the count that
   * triggers it is always `maxAttempts` itself.
   */
  lemma LockoutFromUnlockedRecord(cfg: Config, stored: BruteForceState, now: int)
    requires ValidConfig(cfg) && Unlocked(cfg, stored)
    ensures var o := Attempt(cfg, stored, now);
      !o.Locked? &&
      (o.TooManyAttempts? ==> o.lockMinutes == CalculateBlockDuration(cfg, cfg.maxAttempts)) &&
      (o.TooManyAttempts? && cfg.progressiveBlocking ==> o.lockMinutes == 2 * cfg.blockDuration)
  {
    var o := Attempt(cfg, stored, now);
    if o.TooManyAttempts? {
      var resets := now - stored.lastAttemptTime > cfg.attemptWindow * 60000;
      var count := if resets then 1 else stored.attempts + 1;
      assert count == cfg.maxAttempts;
      assert cfg.maxAttempts / cfg.maxAttempts == 1;
    }
  }

  /**
   * Once the record holds `maxAttempts - 1` attempts, every further attempt
   * inside the window is refused and changes nothing; the first attempt after
   * the window starts a fresh count.
   */
  lemma LockoutLastsOneWindow(cfg: Config, stored: BruteForceState, now: int)
    requires ValidConfig(cfg) && cfg.maxAttempts >= 2 && Unlocked(cfg, stored)
    requires stored.attempts == cfg.maxAttempts - 1
    ensures now - stored.lastAttemptTime <= cfg.attemptWindow * 60000 ==>
      Attempt(cfg, stored, now).TooManyAttempts?
    ensures now - stored.lastAttemptTime > cfg.attemptWindow * 60000 ==>
      Attempt(cfg, stored, now) == Recorded(BruteForceState(1, now, None, ComplexityFor(cfg, 1)))
  {
  }

  /** The hook: in-memory state plus the records in local storage, keyed by identifier. */
  class BruteForceGuard {
    const cfg: Config
    var state: BruteForceState
    var storage: map<string, BruteForceState>

    ghost predicate Valid()
      reads this
    {
      ValidConfig(cfg) && state.attempts >= 0 &&
      forall id :: id in storage ==> storage[id].attempts >= 0
    }

    /** Every record in memory and in storage is one the hook could have written. */
    ghost predicate NothingLocked()
      reads this
    {
      Unlocked(cfg, state) && forall id :: id in storage ==> Unlocked(cfg, storage[id])
    }

    constructor (cfg: Config, storage: map<string, BruteForceState>)
      requires ValidConfig(cfg)
      requires forall id :: id in storage ==> storage[id].attempts >= 0
      ensures Valid()
      ensures this.cfg == cfg && this.storage == storage && state == InitialState
    {
      this.cfg := cfg;
      this.storage := storage;
      state := InitialState;
    }

    /** `getStoredState(identifier) || state`. */
    function Current(id: string): BruteForceState
      reads this
    {
      if id in storage then storage[id] else state
    }

    method RecordAttempt(id: string, now: int) returns (o: AttemptOutcome)
      requires Valid()
      modifies this
      ensures Valid()
      ensures o == Attempt(cfg, old(Current(id)), now)
      ensures o.Recorded? ==> state == o.state && storage == old(storage)[id := o.state]
      ensures !o.Recorded? ==> state == old(state) && storage == old(storage)
      ensures old(NothingLocked()) ==> NothingLocked()
    {
      var stored := Current(id);
      o := Attempt(cfg, stored, now);
      if o.Recorded? {
        state := o.state;
        storage := storage[id := o.state];
      }
    }

    method ResetAttempts(id: string)
      requires Valid()
      modifies this
      ensures Valid()
      ensures state == InitialState && storage == old(storage)[id := InitialState]
      ensures old(NothingLocked()) ==> NothingLocked()
    {
      state := InitialState;
      storage := storage[id := InitialState];
    }

    function GetRequiredComplexity(id: string): (c: Complexity)
      reads this
      ensures c == Current(id).complexity
    {
      Current(id).complexity
    }
  }
}
