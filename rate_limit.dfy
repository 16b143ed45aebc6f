// The sliding-window limiter of src/hooks/useRateLimit.ts: a list of attempt
// timestamps and a deadline until which every attempt is refused.

module RateLimit {
  import opened Common

  /** `timeWindow` and `blockDuration` are in seconds. */
  datatype Config = Config(maxAttempts: int, timeWindow: int, blockDuration: int)

  const DefaultConfig := Config(5, 300, 900)

  datatype Attempt = Attempt(timestamp: int, ip: Option<string>)

  datatype LimiterState = LimiterState(attempts: seq<Attempt>, blockedUntil: Option<int>)

  const InitialState := LimiterState([], None)

  datatype RecordOutcome =
    | Accepted
    | StillBlocked(remainingSeconds: int)
    | LimitReached(blockSeconds: int)

  function OutcomeMessage(o: RecordOutcome): Option<string>
  {
    match o
    case Accepted => None
    case StillBlocked(s) => Some("Too many attempts. Please try again in " + IntToString(s) + " seconds.")
    case LimitReached(s) => Some("Too many attempts. Please try again in " + IntToString(s) + " seconds.")
  }

  /** `isBlocked`: a deadline is set (and is not 0) and lies in the future. */
  predicate IsBlocked(s: LimiterState, now: int)
  {
    s.blockedUntil.Some? && s.blockedUntil.value != 0 && now < s.blockedUntil.value
  }

  /** `getRemainingBlockTime`, in whole seconds rounded up. */
  function RemainingBlockTime(s: LimiterState, now: int): (r: int)
    ensures r >= 0
    ensures (s.blockedUntil.None? || s.blockedUntil.value == 0) ==> r == 0
    ensures s.blockedUntil.Some? && s.blockedUntil.value != 0 ==>
      (r - 1) * 1000 < MaxInt(0, s.blockedUntil.value - now) <= r * 1000
  {
    if s.blockedUntil.None? || s.blockedUntil.value == 0 then 0
    else CeilDiv(MaxInt(0, s.blockedUntil.value - now), 1000)
  }

  /** A positive remaining time exactly while the limiter is blocked. */
  lemma RemainingTimePositiveIffBlocked(s: LimiterState, now: int)
    ensures RemainingBlockTime(s, now) > 0 <==> IsBlocked(s, now)
  {
  }

  /** The attempts newer than `windowStart`, in their order. */
  function Recent(attempts: seq<Attempt>, windowStart: int): (r: seq<Attempt>)
    ensures |r| <= |attempts|
  {
    if attempts == [] then []
    else
      var rest := Recent(attempts[1..], windowStart);
      if attempts[0].timestamp > windowStart then [attempts[0]] + rest else rest
  }

  /** The filter keeps exactly the attempts newer than the window start. */
  lemma {:induction false} RecentMembers(attempts: seq<Attempt>, windowStart: int, a: Attempt)
    ensures a in Recent(attempts, windowStart) <==> a in attempts && a.timestamp > windowStart
  {
    if attempts != [] {
      RecentMembers(attempts[1..], windowStart, a);
      assert a in attempts <==> a == attempts[0] || a in attempts[1..];
    }
  }

  lemma {:induction false} RecentOfRecent(attempts: seq<Attempt>, a: int, b: int)
    requires a <= b
    ensures Recent(Recent(attempts, a), b) == Recent(attempts, b)
  {
    if attempts != [] {
      RecentOfRecent(attempts[1..], a, b);
    }
  }

  /** `recordAttempt` as a function of the limiter state and the clock. */
  function Record(cfg: Config, s: LimiterState, now: int, ip: Option<string>): (r: (RecordOutcome, LimiterState))
    ensures IsBlocked(s, now) ==> r == (StillBlocked(RemainingBlockTime(s, now)), s)
    ensures !IsBlocked(s, now) ==>
      r.1.attempts == Recent(s.attempts, now - cfg.timeWindow * 1000) + [Attempt(now, ip)]
    ensures !IsBlocked(s, now) && |s.attempts| + 1 >= cfg.maxAttempts ==>
      r.0 == LimitReached(cfg.blockDuration) && r.1.blockedUntil == Some(now + cfg.blockDuration * 1000)
    ensures !IsBlocked(s, now) && |s.attempts| + 1 < cfg.maxAttempts ==>
      r.0 == Accepted && r.1.blockedUntil == s.blockedUntil
  {
    if IsBlocked(s, now) then (StillBlocked(RemainingBlockTime(s, now)), s)
    else
      var kept := Recent(s.attempts, now - cfg.timeWindow * 1000) + [Attempt(now, ip)];
      if |s.attempts| + 1 >= cfg.maxAttempts then
        (LimitReached(cfg.blockDuration), LimiterState(kept, Some(now + cfg.blockDuration * 1000)))
      else (Accepted, LimiterState(kept, s.blockedUntil))
  }

  /**
   * The limit test counts the attempts from before this call's clean-up:
   * four attempts long past the window still make the fifth one trip the
   * limit, although only the new attempt is kept.
   */
  lemma ExpiredAttemptsStillCount()
    ensures var s := LimiterState([Attempt(0, None), Attempt(0, None), Attempt(0, None), Attempt(0, None)], None);
      var r := Record(DefaultConfig, s, 1000000000, None);
      r.0 == LimitReached(900) && r.1.attempts == [Attempt(1000000000, None)]
  {
    var s := LimiterState([Attempt(0, None), Attempt(0, None), Attempt(0, None), Attempt(0, None)], None);
    assert Recent(s.attempts, 1000000000 - 300000) == [];
  }

  /**
   * After the limit trips at a positive time, every attempt before the
   * deadline is refused and changes nothing.
   */
  lemma BlockHoldsUntilDeadline(cfg: Config, s: LimiterState, now: int, ip: Option<string>, later: int, ip2: Option<string>)
    requires now > 0 && cfg.blockDuration > 0
    requires Record(cfg, s, now, ip).0.LimitReached?
    requires now <= later < now + cfg.blockDuration * 1000
    ensures var s' := Record(cfg, s, now, ip).1;
      IsBlocked(s', later) && Record(cfg, s', later, ip2) == (StillBlocked(RemainingBlockTime(s', later)), s')
  {
  }

  /** The hook, with its two pieces of React state as fields. */
  class RateLimiter {
    const cfg: Config
    var attempts: seq<Attempt>
    var blockedUntil: Option<int>

    constructor (cfg: Config)
      ensures this.cfg == cfg && attempts == [] && blockedUntil == None
    {
      this.cfg := cfg;
      attempts := [];
      blockedUntil := None;
    }

    function State(): LimiterState
      reads this
    {
      LimiterState(attempts, blockedUntil)
    }

    /** `cleanOldAttempts`. */
    method CleanOldAttempts(now: int)
      modifies this
      ensures attempts == Recent(old(attempts), now - cfg.timeWindow * 1000)
      ensures blockedUntil == old(blockedUntil)
      ensures forall i :: 0 <= i < |attempts| ==> attempts[i].timestamp > now - cfg.timeWindow * 1000
    {
      attempts := Recent(attempts, now - cfg.timeWindow * 1000);
      forall i | 0 <= i < |attempts| ensures attempts[i].timestamp > now - cfg.timeWindow * 1000 {
        RecentMembers(old(attempts), now - cfg.timeWindow * 1000, attempts[i]);
      }
    }

    method RecordAttempt(now: int, ip: Option<string>) returns (o: RecordOutcome)
      modifies this
      ensures (o, State()) == Record(cfg, old(State()), now, ip)
    {
      var s0 := LimiterState(attempts, blockedUntil);
      if IsBlocked(s0, now) {
        return StillBlocked(RemainingBlockTime(s0, now));
      }
      var count := |attempts|;
      CleanOldAttempts(now);
      attempts := attempts + [Attempt(now, ip)];
      ghost var r := Record(cfg, s0, now, ip);
      assert attempts == r.1.attempts;
      if count + 1 >= cfg.maxAttempts {
        blockedUntil := Some(now + cfg.blockDuration * 1000);
        return LimitReached(cfg.blockDuration);
      }
      o := Accepted;
    }

    method Reset()
      modifies this
      ensures State() == InitialState
    {
      attempts := [];
      blockedUntil := None;
    }

    /** The `attempts` value the hook exposes. */
    function AttemptCount(): (n: nat)
      reads this
      ensures n == |attempts|
    {
      |attempts|
    }
  }
}
