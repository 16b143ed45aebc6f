# Risk, trust and throttling core of TradeHaven Express, in Dafny

This project models the security scoring and guarding core of the
TradeHaven Express storefront. That core decides whether a login or a
session may go on. Each source file of the core is one Dafny module:

- **Login risk scorer** (`RiskAssessment`, `RiskHook`). It fuses five
  weighted factors (location, time of day, device, behaviour, history)
  into a 0–100 score. It then derives a risk level and recommendations,
  keeps a bounded per-user history, and aggregates the history into an
  average and a regression trend. The hook adds a ladder of actions
  (additional authentication, step-up, block).
- **Device trust** (`DeviceTrust`, `AdaptiveAuth`). It computes a 0–100
  trust score from eight boolean factors, a risk level from risk points,
  and the unusual-activity messages. It also keeps a list of registered
  devices. The adaptive-authentication component moves between
  check, register and verify.
- **Behavioural biometrics** (`Behavioral`). Capture buffers hold key
  and mouse events, and the model computes typing consistency, the
  movement pattern and a confidence score. Per-user profiles keep at most
  ten patterns of each kind.
- **Attempt guards** (`BruteForce`, `RateLimit`). The first is a
  per-identifier failure counter with progressive lockout and complexity
  escalation. The second is a sliding-window limiter with a block
  deadline.
- **DNS monitoring**:
  - `DnsAnomaly` and `DnsAnomalyTwin`: the per-domain baseline (hourly
    histogram, record and response counts, failure rate), the anomaly
    detectors and the bounded anomaly store;
  - `DnsAnomalyHook`: the hook that reads the store;
  - `DnsCache`: the DNS cache, with time-to-live expiry and size-bounded
    eviction;
  - `DnsSecurity` and `DnsSecurityHook`: the resolver client with its
    cache-then-retry query, metrics history, health ladder and security
    score.
- **Network risk** (`NetworkSecurity`, `NetworkHook`). Flag weights and
  connection surcharges give a 0–100 score, and recommendations and
  toasts follow from it.
- **Passwords and forms**:
  - `PasswordPolicy`: the level-dependent requirement table, score,
    feedback and verdict;
  - `PasswordStrength`: the strength meter;
  - `PasswordBreachCheck`: the k-anonymity breach lookup and the
    composition suggestions;
  - `FormValidation` and `AuthPage`: the form hook and the sign-in page
    that drives it;
  - `SecurityQuestions` and `Base64`: answer normalisation, the `btoa`
    encoding and set-up / verify / load.

Some modules are shared:

- `Common`: options, `Math.round`, string helpers and `split`.
- `OrderedMaps`: JavaScript `Map`s and objects whose key order matters.
- `TextPatterns`: the regular expressions the core uses, written as
  predicates. `.` stops at line terminators and `/i` folds ASCII.
- `DnsTypes`: the DNS record shapes.

## Modelling conventions

- **State and loops.** Code that updates state is a class. Its methods
  carry `modifies` clauses and state the whole new state, in terms of
  functions that the lemmas are about. The source's loops are `while`
  or `for` loops with invariants.
- **Inputs instead of the environment.** Clocks (`Date.now()`,
  `performance.now()`, `getHours()`) are parameters. So are network
  answers, the database's answers and the browser's probes.
- **Arithmetic on numbers.** Counts and timestamps are integers. Weights,
  scores and averages are exact reals. `NaN` is an absent `Option`
  value.
- **JavaScript semantics written out.** JavaScript truthiness,
  `Math.round` and `Math.ceil` are spelled out in the model.

## Where the code departs from its description

The model follows the code in each of these cases:

- **The anomaly detector learns before it evaluates.** `analyzeQuery`
  updates the domain's pattern before it runs the detectors, so they
  see the current query already counted:
  - the timing detector can never fire (`DnsAnomaly.TimingNeverFires`);
  - the volume detector fires on every analysed query
    (`DnsAnomaly.VolumeFiresIffBucketPositive`);
  - the poisoning detector never fires on an analysed response
    (`DnsAnomaly.PoisoningNeverFiresAfterUpdate`).
- **The rate limiter counts expired attempts.** The limit test reads the
  attempt list from before the clean-up, so attempts older than the
  window still count (`RateLimit.ExpiredAttemptsStillCount`).
- **The brute-force lock branch is unreachable.** Its lockout is thrown
  before the state is saved, so a stored record is never locked
  (`BruteForce.RecordedStatesAreUnlocked`,
  `BruteForce.LockoutFromUnlockedRecord`).
- **The progressive lockout stops at 64 times the base.** The comment at `src/hooks/useBruteForceProtection.ts:53` announces a ladder up to 24 hours. The code caps the factor at 2^6, so with the default 15 minutes the longest lockout is 960 minutes, 16 hours (`BruteForce.DefaultSchedule`).
- **Clearing the DNS cache does nothing.** `clearCache` with no domain
  invalidates every domain of an empty list
  (`DnsSecurity.ClearAllIsNoOp`).

## Model

| member | source | states |
|---|---|---|
| RiskAssessment.DetermineRiskLevel | src/services/riskAssessment.ts:361-366 | critical from 80, high from 60, medium from 30, low below, each as an exact score interval |
| RiskAssessment.LevelMonotone | src/services/riskAssessment.ts:361-366 | a higher score never gets a lower level |
| RiskAssessment.AssessLocationRisk | src/services/riskAssessment.ts:131-175 | the location factor has weight 0.25 and a score in [0.1, 1] |
| RiskAssessment.DistanceScoreMonotone | src/services/riskAssessment.ts:156-167 | the distance bands (strict breaks at 1, 10, 100, 1000 km) never score a nearer place higher |
| RiskAssessment.LocationScoreIsNearestBand | src/services/riskAssessment.ts:134-167 | 0.5 exactly when there is no location or no known location, otherwise the band of the nearest known location |
| RiskAssessment.AssessTimeRisk | src/services/riskAssessment.ts:177-216 | the time factor has weight 0.15 and a score in [0.1, 0.8] |
| RiskAssessment.TimeScoreCases | src/services/riskAssessment.ts:181-208 | 0.5 with no common hours, 0.1 for a listed hour, 0.3 for a listed hour one away (no wrap at midnight), otherwise 0.8, each with its exact condition |
| RiskAssessment.CheckPlatformConsistency | src/services/riskAssessment.ts:319-347 | inconsistent exactly on a Windows/Mac/Linux platform-OS mismatch or a mobile-versus-touch mismatch |
| RiskAssessment.AssessDeviceRisk | src/services/riskAssessment.ts:218-253 | the device factor has weight 0.2 and a score in [0, 1] |
| RiskAssessment.DeviceScoreZeroIffNoConcern | src/services/riskAssessment.ts:218-253 | the device score is 0 exactly when none of its four increments applies |
| RiskAssessment.AssessBehavioralRisk | src/services/riskAssessment.ts:255-281 | the behavioural factor has weight 0.25 and a score in [0, 1] |
| RiskAssessment.BehavioralScoreZeroIffNoConcern | src/services/riskAssessment.ts:255-281 | the behavioural score is 0 exactly when none of its three increments applies; a 0 value is skipped by the truthiness guard |
| RiskAssessment.AssessHistoricalRisk | src/services/riskAssessment.ts:283-317 | the historical factor has weight 0.15 and a score in [0, 1] |
| RiskAssessment.HistoricalScoreZeroIffNoConcern | src/services/riskAssessment.ts:283-317 | the historical score is 0 exactly when none of its three increments applies; a 0/0 success rate adds nothing |
| RiskAssessment.StaleLoginMeansOverAWeek | src/services/riskAssessment.ts:294-301 | the stale-login increment applies exactly when the last login is more than a week old |
| RiskAssessment.Factors | src/services/riskAssessment.ts:69-105 | five factors with a location, four without, every score in [0, 1] |
| RiskAssessment.FactorsOf | src/services/riskAssessment.ts:74-105 | the pushed list is the location factor (when present) followed by time, device, behavioural and historical |
| RiskAssessment.WeightedSumBounds | src/services/riskAssessment.ts:74-109 | the weighted sum lies between 0 and the total weight, which is positive for a non-empty list |
| RiskAssessment.FinalScore | src/services/riskAssessment.ts:108-109 | the rounded weighted mean lies in [0, 100] |
| RiskAssessment.GenerateRecommendations | src/services/riskAssessment.ts:368-406 | the recommendation list has no duplicates |
| RiskAssessment.RecommendationOrder | src/services/riskAssessment.ts:368-406 | each item stands where it is first pushed; at a high or critical level the three general items come first, in order |
| RiskAssessment.RecommendationMembers | src/services/riskAssessment.ts:368-406 | a message is recommended exactly when it is general advice at a high or critical level or the advice of a factor scoring above 0.6 |
| RiskAssessment.GeneralAdviceExactlyWhenHigh | src/services/riskAssessment.ts:374-379 | the three general items appear exactly at the high and critical levels |
| RiskAssessment.FactorAdviceExactlyWhenAbove | src/services/riskAssessment.ts:381-403 | a factor's own items appear exactly when some factor of that name scores above 0.6 |
| RiskAssessment.RegressionDenominatorPositive | src/services/riskAssessment.ts:455-464 | the least-squares denominator is positive for two or more scores |
| RiskAssessment.CalculateTrend | src/services/riskAssessment.ts:451-469 | stable for fewer than two scores or a slope of magnitude below 0.1, improving for a slope at most -0.1, worsening for one at least 0.1 |
| RiskAssessment.ConstantScoresAreStable | src/services/riskAssessment.ts:451-469 | a flat history has a stable trend |
| RiskAssessment.IncreasingScoresWorsen | src/services/riskAssessment.ts:451-469 | a strictly increasing history of two or more integer scores has a slope of at least 1 and is worsening |
| RiskAssessment.DecreasingScoresImprove | src/services/riskAssessment.ts:451-469 | a strictly decreasing history of two or more integer scores has a slope of at most -1 and is improving |
| RiskAssessment.Aggregate | src/services/riskAssessment.ts:424-449 | an empty history gives {0, stable, medium}; otherwise the mean score, its trend and its level |
| RiskAssessment.AverageInRange | src/services/riskAssessment.ts:438-439 | the mean of 0-100 scores is a 0-100 score |
| RiskAssessment.Accumulate | src/services/riskAssessment.ts:74-105 | one push adds the factor and keeps the running totals equal to the weighted sum and total weight of the pushed list |
| RiskAssessment.Assessed | src/services/riskAssessment.ts:108-122 | the assessment's score is the rounded mean in [0, 100], its level that score's level, its advice that level's recommendations |
| RiskAssessment.Evaluate | src/services/riskAssessment.ts:69-128 | the assessment assessRisk builds from the context: its factors, score in [0, 100], level and recommendations |
| RiskAssessment.Fuse | src/services/riskAssessment.ts:69-128 | the imperative fusion produces exactly Evaluate's assessment |
| RiskAssessment.FuseFactors | src/services/riskAssessment.ts:70-122 | pushing the factors with running totals gives the assessment of the pushed list |
| RiskAssessment.Conclude | src/services/riskAssessment.ts:108-122 | the end of assessRisk yields the assessment of the factor list |
| RiskAssessment.RiskAssessmentService.constructor | src/services/riskAssessment.ts:50-60 | an empty history map |
| RiskAssessment.RiskAssessmentService.GetAssessmentHistory | src/services/riskAssessment.ts:420-422 | at most 50 entries, all scores in range, and [] for an unknown user |
| RiskAssessment.RiskAssessmentService.StoreAssessment | src/services/riskAssessment.ts:408-418 | the user's history gains the assessment last and drops the oldest beyond 50; other users are untouched |
| RiskAssessment.RiskAssessmentService.AssessRisk | src/services/riskAssessment.ts:69-129 | returns Evaluate's assessment and stores it in the user's bounded history |
| RiskAssessment.RiskAssessmentService.GetAggregateRisk | src/services/riskAssessment.ts:424-449 | the aggregate of the user's history, with a mean in [0, 100] |
| BruteForce.CalculateBlockDuration | src/hooks/useBruteForceProtection.ts:49-56 | the base duration without progressive blocking; otherwise the base times 2 to the number of whole `maxAttempts` multiples, capped at 6 |
| BruteForce.BlockDurationMonotoneAndCapped | src/hooks/useBruteForceProtection.ts:49-56 | more attempts never shorten the lockout, which never exceeds 64 times the base |
| BruteForce.DefaultSchedule | src/hooks/useBruteForceProtection.ts:21-56 | with the defaults (5 attempts, 15 minutes) the lockout is 30 minutes at 5 attempts, 60 at 10 and 960 at 30 |
| BruteForce.Attempt | src/hooks/useBruteForceProtection.ts:58-97 | refused as locked exactly while a stored deadline lies ahead, with the minutes rounded up; otherwise the count restarts at 1 after the window or grows by one, and reaching `maxAttempts` throws with the progressive duration, else the new record with its complexity tier is returned |
| BruteForce.RecordedStatesAreUnlocked | src/hooks/useBruteForceProtection.ts:86-96 | every record the hook saves has no deadline and fewer than `maxAttempts` attempts |
| BruteForce.LockoutFromUnlockedRecord | src/hooks/useBruteForceProtection.ts:58-97 | from any record the hook saved the lock branch is never taken, and every lockout reports the duration for exactly `maxAttempts` attempts (twice the base when progressive) |
| BruteForce.LockoutLastsOneWindow | src/hooks/useBruteForceProtection.ts:68-91 | at `maxAttempts - 1` saved attempts every attempt inside the window throws, and the first one after it starts again at 1 |
| BruteForce.BruteForceGuard.constructor | src/hooks/useBruteForceProtection.ts:21-38 | the initial in-memory record over the given storage |
| BruteForce.BruteForceGuard.RecordAttempt | src/hooks/useBruteForceProtection.ts:58-97 | returns Attempt on the stored record (or the in-memory one), saves the new record to memory and storage only when it returns normally, and keeps every record unlocked |
| BruteForce.BruteForceGuard.ResetAttempts | src/hooks/useBruteForceProtection.ts:99-108 | memory and the identifier's stored record become the initial record; other identifiers are untouched |
| BruteForce.BruteForceGuard.GetRequiredComplexity | src/hooks/useBruteForceProtection.ts:110-113 | the complexity of the stored record, falling back to the in-memory one |
| RateLimit.RemainingBlockTime | src/hooks/useRateLimit.ts:35-39 | 0 without a deadline, else the time left clamped at 0 and rounded up to whole seconds |
| RateLimit.RemainingTimePositiveIffBlocked | src/hooks/useRateLimit.ts:30-39 | the remaining time is positive exactly while isBlocked holds |
| RateLimit.RecentMembers | src/hooks/useRateLimit.ts:24-28 | the filter keeps exactly the attempts newer than the window start |
| RateLimit.RecentOfRecent | src/hooks/useRateLimit.ts:24-28 | cleaning with an older window start and then a newer one equals cleaning with the newer one |
| RateLimit.Record | src/hooks/useRateLimit.ts:41-63 | while blocked the attempt is refused with the remaining seconds and nothing changes; otherwise the cleaned list gains the attempt, and the limit trips (deadline now plus the block duration) exactly when the count read before the call plus one reaches `maxAttempts` |
| RateLimit.ExpiredAttemptsStillCount | src/hooks/useRateLimit.ts:47-60 | four attempts far outside the window still make the fifth attempt trip the limit, because the test reads the length before the clean-up |
| RateLimit.BlockHoldsUntilDeadline | src/hooks/useRateLimit.ts:41-60 | after the limit trips, every attempt before the deadline is refused and changes nothing |
| RateLimit.RateLimiter.constructor | src/hooks/useRateLimit.ts:14-22 | no attempts and no deadline |
| RateLimit.RateLimiter.CleanOldAttempts | src/hooks/useRateLimit.ts:24-28 | the attempts become the recent ones, all newer than the window start; the deadline is kept |
| RateLimit.RateLimiter.RecordAttempt | src/hooks/useRateLimit.ts:41-63 | outcome and new state are Record's |
| RateLimit.RateLimiter.Reset | src/hooks/useRateLimit.ts:65-68 | back to no attempts and no deadline |
| RateLimit.RateLimiter.AttemptCount | src/hooks/useRateLimit.ts:75 | the exposed count is the length of the attempt list |
| DnsTypes.TypeNameInjective | src/types/dns.ts:1-13 | the record type names are pairwise different |
| DnsTypes.TypeNamesHaveNoColon | src/types/dns.ts:1-13 | no type name contains the `:` of a cache key |
| DnsTypes.RecordKeyInjective | src/services/dns/dnsCache.ts:154-156 | the key `type:value` determines both the type and the value |
| DnsCache.Cached | src/services/dns/dnsCache.ts:37-44 | an entry stamped now that expires after the record's TTL, but never sooner than 300 seconds |
| DnsCache.LastWithKey | src/services/dns/dnsCache.ts:37-44 | the last record with a key is one of the records with that key, and there is none exactly when no record has it |
| DnsCache.StoreAllLookup | src/services/dns/dnsCache.ts:37-44 | after the forEach each key holds the entry of the last record with that key and every other key is unchanged |
| DnsCache.LiveRecordsMembers | src/services/dns/dnsCache.ts:50-64 | `get` returns exactly the records of unexpired entries of the requested type (any type when none is given) |
| DnsCache.AnyMatchIffFound | src/services/dns/dnsCache.ts:66-74 | `isValid` holds exactly when `get` returns something |
| DnsCache.WithoutTypeAnswers | src/services/dns/dnsCache.ts:80-84 | after invalidating a type no record of it is found, and every other type's answer is unchanged |
| DnsCache.CleanedGet | src/services/dns/dnsCache.ts:91-108 | after the clean-up a domain holds exactly its unexpired entries, and is gone when it had none |
| DnsCache.CleanupKeepsAnswers | src/services/dns/dnsCache.ts:91-108 | a clean-up changes no answer of `get` at the instant it runs |
| DnsCache.CleanedIsClean | src/services/dns/dnsCache.ts:91-108 | after a clean-up every domain is non-empty and every entry unexpired |
| DnsCache.SortByPerm | src/services/dns/dnsCache.ts:125-129 | the domain sort only rearranges |
| DnsCache.SortBySorted | src/services/dns/dnsCache.ts:125-129 | the domain sort orders by the key (an empty domain's `Math.min()` is +Infinity, last) |
| DnsCache.Oldest | src/services/dns/dnsCache.ts:126-127 | the oldest timestamp is at most every entry's and is +Infinity exactly for an empty domain |
| DnsCache.EvictionOrder | src/services/dns/dnsCache.ts:124-145 | the eviction visits every domain exactly once, oldest first, and deletes each domain's entries oldest first |
| DnsCache.SumOverSort | src/services/dns/dnsCache.ts:111-129 | sorting the domains does not change the sum of their sizes |
| DnsCache.DomainOrderSum | src/services/dns/dnsCache.ts:111-129 | the sizes summed over the eviction order count every entry once |
| DnsCache.DropCount | src/services/dns/dnsCache.ts:141-145 | the inner loop deletes exactly the smaller of the domain's size and the shortfall |
| DnsCache.WalkTotal | src/services/dns/dnsCache.ts:131-150 | a walk that can still find the shortfall removes exactly it and keeps the cache well formed |
| DnsCache.EnforcedBound | src/services/dns/dnsCache.ts:110-152 | enforcement leaves min(total, 1000) entries and changes nothing when at most 1000 |
| DnsCache.SetFindsRecord | src/services/dns/dnsCache.ts:33-64 | a stored record that is last with its key and was not evicted is found at once by `get` under its own type |
| DnsCache.StatsBounds | src/services/dns/dnsCache.ts:158-178 | the counts are the numbers of domains and entries; the oldest stamp is at most now and every entry's, the newest at least 0 and every entry's, each attained |
| DnsCache.DnsCacheService.constructor | src/services/dns/dnsCache.ts:16-18 | an empty cache |
| DnsCache.DnsCacheService.Set | src/services/dns/dnsCache.ts:33-48 | the cache becomes the put-then-enforce result and holds at most 1000 entries |
| DnsCache.DnsCacheService.Get | src/services/dns/dnsCache.ts:50-64 | the unexpired records of the type, in insertion order |
| DnsCache.DnsCacheService.IsValid | src/services/dns/dnsCache.ts:66-74 | true exactly when `get` would return something |
| DnsCache.DnsCacheService.Invalidate | src/services/dns/dnsCache.ts:76-89 | with a type the domain loses that type's entries, without one the domain goes; other domains are untouched |
| DnsCache.DnsCacheService.CleanupExpiredRecords | src/services/dns/dnsCache.ts:91-108 | the cache becomes its cleaned form |
| DnsCache.DnsCacheService.EnforceMaxCacheSize | src/services/dns/dnsCache.ts:110-152 | the cache becomes its enforced form |
| DnsCache.DnsCacheService.CountRecords | src/services/dns/dnsCache.ts:111-117 | the first loop counts every entry |
| DnsCache.DnsCacheService.EvictOldest | src/services/dns/dnsCache.ts:131-150 | the second loop is the walk over the domains in eviction order |
| DnsCache.DnsCacheService.DropOldest | src/services/dns/dnsCache.ts:138-145 | the inner loop is Drop over the entries oldest first |
| DnsCache.DnsCacheService.ThinDomain | src/services/dns/dnsCache.ts:135-149 | one visit thins the domain oldest first, deletes it when emptied, and advances the count as Drop does |
| DnsCache.DnsCacheService.GetStats | src/services/dns/dnsCache.ts:158-178 | the statistics are Stats of the cache |
| DnsCache.CleanedKeys | src/services/dns/dnsCache.ts:91-108 | clean-up never adds a domain |
| DnsCache.CleanedWellFormed | src/services/dns/dnsCache.ts:91-108 | clean-up keeps every domain at most once |
| DnsCache.EnforcedOver | src/services/dns/dnsCache.ts:110-152 | above the limit, enforcement leaves a well-formed cache of exactly 1000 entries |
| DnsCache.MinAllBounds | src/services/dns/dnsCache.ts:158-178 | the oldest stamp is at most every entry's stamp and at most the starting value |
| DnsCache.MaxAllBounds | src/services/dns/dnsCache.ts:158-178 | the newest stamp is at least every entry's stamp and at least the starting value |
| Common.Split | src/services/dnsAnomalyDetection.ts:225 | `split` on one character yields at least one part and no part contains the separator |
| Common.SplitJoin | src/services/dnsAnomalyDetection.ts:225 | joining the parts with the separator gives back the string |
| DnsAnomaly.NewPatternIsEmpty | src/services/dnsAnomalyDetection.ts:97-108 | a new pattern is well formed with a zero histogram and no counts |
| DnsAnomaly.CountKeysCounts | src/services/dnsAnomalyDetection.ts:124-128 | each response key's count grows by exactly its number of occurrences, nothing else changes, and a key is present after exactly when it was before or occurs |
| DnsAnomaly.UpdatedShape | src/services/dnsAnomalyDetection.ts:110-135 | an update keeps the pattern well formed, adds one to the current hour only and never changes the average query rate |
| DnsAnomaly.UpdatedCounts | src/services/dnsAnomalyDetection.ts:119-128 | the query type's count grows by one and each response key's by its occurrences; all other counts are unchanged |
| DnsAnomaly.UpdatedFailureRate | src/services/dnsAnomalyDetection.ts:130-134 | below 100% success the query type's failure rate becomes the mean of the old rate and the failure percentage; otherwise no rate changes |
| DnsAnomaly.CountResponses | src/services/dnsAnomalyDetection.ts:124-128 | the response loop's counts are the counted keys |
| DnsAnomaly.UpdatePattern | src/services/dnsAnomalyDetection.ts:110-135 | the in-place update yields exactly the updated pattern |
| DnsAnomaly.TimingNeverFires | src/services/dnsAnomalyDetection.ts:137-143 | with the single-sample deviation the timing test is false for every response time and mean |
| DnsAnomaly.VolumeFiresIffBucketPositive | src/services/dnsAnomalyDetection.ts:145-150 | the volume test holds exactly when the current hour's bucket is positive |
| DnsAnomaly.RareCount | src/services/dnsAnomalyDetection.ts:155-168 | the number of rare records is at most the number of records |
| DnsAnomaly.ResolutionNeedsRareRecords | src/services/dnsAnomalyDetection.ts:152-171 | with no recorded responses, or no rare record, the resolution test is false |
| DnsAnomaly.SingleRareRecordIsAnomalous | src/services/dnsAnomalyDetection.ts:152-171 | a one-record response whose record is rare is anomalous |
| DnsAnomaly.Suspicious | src/services/dnsAnomalyDetection.ts:217-228 | the filter keeps exactly the records with a value over 200 characters, entropy over 4.5, or (type A) a label over 30 characters |
| DnsAnomaly.TunnelingIffSomeSuspicious | src/services/dnsAnomalyDetection.ts:215-231 | tunnelling is reported exactly when some record is suspicious |
| DnsAnomaly.AmplificationMonotone | src/services/dnsAnomalyDetection.ts:233-237 | adding records never clears the over-512-characters flag |
| DnsAnomaly.PoisoningNeverFiresAfterUpdate | src/services/dnsAnomalyDetection.ts:239-251 | once the response is counted into the pattern, no record key is missing from it, so poisoning is never detected |
| DnsAnomaly.SecurityAnomalies | src/services/dnsAnomalyDetection.ts:173-213 | every security finding is critical, of type security, for the domain at the current time; a poisoning finding only when poisoning was detected |
| DnsAnomaly.FindingsOfAnalyzedQuery | src/services/dnsAnomalyDetection.ts:38-95 | every analysed query reports a high volume anomaly first and never a timing or poisoning anomaly, all for the query's domain and time |
| DnsAnomaly.SortNewestFirst | src/services/dnsAnomalyDetection.ts:271-272 | the sort is a permutation ordered newest first |
| DnsAnomaly.Stored | src/services/dnsAnomalyDetection.ts:269-276 | at most 1000 anomalies, newest first, drawn from the old and new ones, all of them when they fit |
| DnsAnomaly.StoredKeepsTheNewest | src/services/dnsAnomalyDetection.ts:269-276 | an anomaly is dropped only from a full list whose every kept entry is at least as new |
| DnsAnomaly.KeptAfterMembers | src/services/dnsAnomalyDetection.ts:281 | exactly the anomalies newer than the cut-off are kept |
| DnsAnomaly.KeptAfterNewestFirst | src/services/dnsAnomalyDetection.ts:281 | filtering keeps a newest-first list newest first |
| DnsAnomaly.Cleaned | src/services/dnsAnomalyDetection.ts:278-288 | a domain stays exactly when some anomaly is newer than the cut-off, holding exactly those |
| DnsAnomaly.Sweep | src/services/dnsAnomalyDetection.ts:278-288 | the forEach over the map yields the cleaned map |
| DnsAnomaly.DnsAnomalyDetectionService.constructor | src/services/dnsAnomalyDetection.ts:8-23 | no patterns and no anomalies |
| DnsAnomaly.DnsAnomalyDetectionService.GetOrCreatePattern | src/services/dnsAnomalyDetection.ts:97-108 | the domain's pattern, a new empty one when absent, now stored; anomalies untouched |
| DnsAnomaly.DnsAnomalyDetectionService.StoreAnomalies | src/services/dnsAnomalyDetection.ts:269-276 | the domain's list becomes the stored merge; patterns untouched |
| DnsAnomaly.DnsAnomalyDetectionService.LearnQuery | src/services/dnsAnomalyDetection.ts:44-49 | the domain's pattern is replaced by its update |
| DnsAnomaly.DnsAnomalyDetectionService.AnalyzeQuery | src/services/dnsAnomalyDetection.ts:38-95 | updates the pattern, returns the findings on the updated pattern (a volume anomaly first, never timing or poisoning) and stores them |
| DnsAnomaly.DnsAnomalyDetectionService.CleanupOldAnomalies | src/services/dnsAnomalyDetection.ts:278-288 | the anomalies become the week-cleaned map; patterns untouched |
| DnsAnomaly.DnsAnomalyDetectionService.GetAnomalies | src/services/dnsAnomalyDetection.ts:290-292 | the stored list, or [] for an unknown domain |
| DnsAnomaly.DnsAnomalyDetectionService.GetPattern | src/services/dnsAnomalyDetection.ts:294-296 | the stored pattern, or none for an unknown domain |
| DnsAnomaly.DnsAnomalyDetectionService.ClearData | src/services/dnsAnomalyDetection.ts:298-306 | a non-empty domain name removes that domain from both maps; otherwise both are cleared |
| DnsAnomalyTwin.DnsAnomalyStore.constructor | src/services/dns/dnsAnomalyDetection.ts:8-23 | no patterns and no anomalies |
| DnsAnomalyTwin.DnsAnomalyStore.CleanupOldAnomalies | src/services/dns/dnsAnomalyDetection.ts:38-48 | each domain keeps its anomalies newer than a week, in order; a domain left with none is removed |
| DnsAnomalyTwin.DnsAnomalyStore.GetAnomalies | src/services/dns/dnsAnomalyDetection.ts:50-52 | the stored list, or [] for an unknown domain |
| DnsAnomalyTwin.DnsAnomalyStore.GetPattern | src/services/dns/dnsAnomalyDetection.ts:54-56 | the stored pattern, or none |
| DnsAnomalyTwin.DnsAnomalyStore.ClearData | src/services/dns/dnsAnomalyDetection.ts:58-66 | one domain for a non-empty name, otherwise everything |
| DnsAnomalyTwin.SweepAnswers | src/services/dns/dnsAnomalyDetection.ts:38-52 | after a sweep an anomaly is returned exactly when it was stored and is newer than a week |
| DnsAnomalyHook.FilterMembers | src/hooks/useDNSAnomalyDetection.ts:95-101 | the severity and type filters return exactly the matching anomalies |
| DnsAnomalyHook.FilterAllOrNothing | src/hooks/useDNSAnomalyDetection.ts:99-101 | a list of one severity filters to itself under that severity and to nothing under any other |
| DnsAnomalyHook.NewAnomaliesMembers | src/hooks/useDNSAnomalyDetection.ts:26-31 | an anomaly is new exactly when no held anomaly has its timestamp and type |
| DnsAnomalyHook.NothingNewTwice | src/hooks/useDNSAnomalyDetection.ts:26-31 | holding the same list again yields nothing new |
| DnsAnomalyHook.SeverityNotification | src/hooks/useDNSAnomalyDetection.ts:34-59 | at most one toast per severity, raised exactly when that severity is enabled and some new anomaly has it |
| DnsAnomalyHook.DefaultNotificationGating | src/hooks/useDNSAnomalyDetection.ts:10-59 | with the defaults, an error toast exactly for new critical anomalies, a warning exactly for new high ones, never an info toast |
| DnsAnomalyHook.LowNeverNotifies | src/hooks/useDNSAnomalyDetection.ts:33-60 | no configuration raises a toast for low-severity anomalies alone |
| DnsAnomalyHook.LatestTimestamp | src/hooks/useDNSAnomalyDetection.ts:119-121 | `Math.max` of the timestamps is at least each and equal to one |
| DnsAnomalyHook.StatsAddUp | src/hooks/useDNSAnomalyDetection.ts:103-130 | the severity counts and the type counts each add up to the total |
| DnsAnomalyHook.AnomalyMonitor.constructor | src/hooks/useDNSAnomalyDetection.ts:6-19 | no anomalies and no pattern held |
| DnsAnomalyHook.AnomalyMonitor.UpdateAnomalies | src/hooks/useDNSAnomalyDetection.ts:21-61 | the held list becomes the store's, and the toasts are those for the anomalies not held before |
| DnsAnomalyHook.AnomalyMonitor.UpdatePattern | src/hooks/useDNSAnomalyDetection.ts:63-66 | the held pattern becomes the store's |
| DnsAnomalyHook.AnomalyMonitor.GetAnomaliesByType | src/hooks/useDNSAnomalyDetection.ts:95-97 | the held anomalies of that type |
| DnsAnomalyHook.AnomalyMonitor.GetAnomaliesBySeverity | src/hooks/useDNSAnomalyDetection.ts:99-101 | the held anomalies of that severity |
| DnsAnomalyHook.AnomalyMonitor.GetAnomalyStats | src/hooks/useDNSAnomalyDetection.ts:103-130 | the counting loop yields the statistics of the held list |
| DnsAnomalyHook.AnomalyMonitor.ClearAnomalies | src/hooks/useDNSAnomalyDetection.ts:132-136 | the store forgets the domain (everything for an empty name) and the hook holds nothing |
| DnsSecurity.TypeTableComplete | src/services/dnsSecurityService.ts:15-28 | the code table lists every record type |
| DnsSecurity.TypeCodeInjective | src/services/dnsSecurityService.ts:15-28 | no two record types share a code |
| DnsSecurity.FindType | src/services/dnsSecurityService.ts:226-227 | `find` returns a listed type with the code, and nothing only when no listed type has it |
| DnsSecurity.GetRecordType | src/services/dnsSecurityService.ts:225-229 | a known code gives the type with that code, any other code gives `A` |
| DnsSecurity.GetRecordTypeOfCode | src/services/dnsSecurityService.ts:225-229 | decoding a type's own code gives the type back |
| DnsSecurity.UnknownCodesReadAsA | src/services/dnsSecurityService.ts:225-229 | the codes 0, 255 and 256, which have no entry, read as `A` |
| DnsSecurity.ParseDnsResponse | src/services/dnsSecurityService.ts:215-223 | [] without an Answer, else one record per answer, in order, with its decoded type, data and TTL |
| DnsSecurity.ParseEncoded | src/services/dnsSecurityService.ts:215-223 | parsing the answers that encode a list of records gives back exactly that list |
| DnsSecurity.HealthMonotone | src/services/dnsSecurityService.ts:98-103 | a higher success rate never gives a worse resolver health |
| DnsSecurity.MeasureDnsMetrics | src/services/dnsSecurityService.ts:94-110 | from the number of answering probes out of four: the success rate is 25% per answering probe; poor for at most one, degraded for two or three, good for four |
| DnsSecurity.LatestView | src/services/dnsSecurityService.ts:450-473 | the neutral defaults without a measurement, else the latest measurement's fields |
| DnsSecurity.GenerateRecommendations | src/services/dnsSecurityService.ts:404-448 | the list ends with one message per vulnerability, in order |
| DnsSecurity.FeatureAdvicesExactly | src/services/dnsSecurityService.ts:410-440 | each fixed message is present exactly when its condition holds |
| DnsSecurity.RecommendationsExactly | src/services/dnsSecurityService.ts:404-448 | the fixed messages whose conditions hold, each once, then `SEVERITY: description` per vulnerability |
| DnsSecurity.BuildRequest | src/services/dnsSecurityService.ts:136-143 | the resolver (Cloudflare when none or empty), `name` the domain, `type` the type or ANY, and `do` exactly for DNSKEY and DS |
| DnsSecurity.Fetched | src/services/dnsSecurityService.ts:146-200 | a fetched answer is never marked as from the cache and is labelled with the server the caller named |
| DnsSecurity.FirstAnswer | src/services/dnsSecurityService.ts:146-210 | the first attempt with an OK response, none exactly when every attempt fails |
| DnsSecurity.AllAttemptsFail | src/services/dnsSecurityService.ts:146-212 | when no attempt is OK the failure carries the last attempt's error, or the fixed message when no attempt is made |
| DnsSecurity.LaterAttemptsIrrelevant | src/services/dnsSecurityService.ts:146-210 | the outcomes of attempts after the first OK one change nothing |
| DnsSecurity.RetryLoop | src/services/dnsSecurityService.ts:146-212 | the loop stops at the first OK attempt and otherwise keeps the last error |
| DnsSecurity.AnalyzedStateFrame | src/services/dnsSecurityService.ts:174-187 | one analysed query changes the detector's patterns and anomaly lists only for its own domain |
| DnsSecurity.AnalyzedStateValid | src/services/dnsSecurityService.ts:174-187 | one analysed query keeps every pattern well formed |
| DnsSecurity.AnalyzedStateStores | src/services/dnsSecurityService.ts:174-187 | after an analysed query the domain holds a non-empty anomaly list |
| DnsSecurity.FindingsNonEmpty | src/services/dnsAnomalyDetection.ts:38-95 | an analysed query always yields at least one finding |
| DnsSecurity.StoredNonEmpty | src/services/dnsAnomalyDetection.ts:38-95 | storing at least one finding leaves a non-empty list |
| DnsSecurity.ProbeStepFrame | src/services/dnsSecurityService.ts:79-90 | one health-check probe changes the detector only for the probed domain |
| DnsSecurity.ProbeStepValid | src/services/dnsSecurityService.ts:79-90 | one health-check probe keeps every pattern well formed |
| DnsSecurity.ProbeStepStores | src/services/dnsSecurityService.ts:79-90 | an answering probe leaves the domain with stored anomalies; a failed probe changes nothing |
| DnsSecurity.ProbesTouchOnlyDomain | src/services/dnsSecurityService.ts:79-93 | the health-check probes change the detector's patterns and anomaly lists only for the probed domain |
| DnsSecurity.ProbesKeepPatternsValid | src/services/dnsSecurityService.ts:79-93 | the health-check probes keep every pattern well formed |
| DnsSecurity.ProbesCounted | src/services/dnsSecurityService.ts:79-93 | the domain's `ANY` count and its bucket for the current hour each grow by exactly the number of answering probes |
| DnsSecurity.ProbesStoreAnomalies | src/services/dnsSecurityService.ts:79-93 | when some probe answers, the domain holds a non-empty anomaly list afterwards; when none answers, the detector is unchanged |
| DnsSecurity.InvalidatedAllRemoves | src/services/dnsSecurityService.ts:484-486 | invalidating a list of domains removes exactly those domains |
| DnsSecurity.ClearAllIsNoOp | src/services/dnsSecurityService.ts:479-488 | clearing without a domain walks the service's own map, which is always empty, and so changes nothing |
| DnsSecurity.InvalidateDomains | src/services/dnsSecurityService.ts:484-486 | the loop invalidates each listed domain in turn |
| DnsSecurity.DnsSecurityService.constructor | src/services/dnsSecurityService.ts:37-51 | empty metrics and own cache map, over the shared cache and detector |
| DnsSecurity.DnsSecurityService.History | src/services/dnsSecurityService.ts:359 | [] for a domain never measured |
| DnsSecurity.DnsSecurityService.StoreDnsMetrics | src/services/dnsSecurityService.ts:358-367 | the domain's history gains the measurement last and drops the oldest beyond 100 |
| DnsSecurity.DnsSecurityService.GetDnsMetrics | src/services/dnsSecurityService.ts:450-473 | the latest view of the domain's history |
| DnsSecurity.DnsSecurityService.PerformDnsHealthCheck | src/services/dnsSecurityService.ts:67-71 | the domain's history gains the metrics of its four probes, the shared cache is unchanged, and the detector has analysed every answering probe |
| DnsSecurity.DnsSecurityService.MeasureDns | src/services/dnsSecurityService.ts:73-111 | one uncached, unretried `queryDNS` per check endpoint: the metrics follow from how many answered, the shared cache is unchanged, and the detector is the fold of the probes' analyses |
| DnsSecurity.DnsSecurityService.RunProbes | src/services/dnsSecurityService.ts:75-93 | the loop counts every probe and the answering ones, leaves the shared cache unchanged and feeds each answer to the detector |
| DnsSecurity.DnsSecurityService.ProbeNext | src/services/dnsSecurityService.ts:79-91 | one turn of the loop: the next probe, whether it answered, and the detector one step further |
| DnsSecurity.DnsSecurityService.Probe | src/services/dnsSecurityService.ts:79-86 | the probe's outcome is the fetch outcome for its endpoint, the cache is untouched and an answer is analysed |
| DnsSecurity.DnsSecurityService.QueryDns | src/services/dnsSecurityService.ts:113-213 | a cache hit returns the cached records with queryTime 0 and changes nothing; otherwise the outcome of the retry loop, which on success caches the records (when allowed and non-empty) and feeds the anomaly detector, and on failure changes nothing |
| DnsSecurity.DnsSecurityService.Deliver | src/services/dnsSecurityService.ts:165-201 | parse, cache when allowed and non-empty, analyse, and return the result |
| DnsSecurity.DnsSecurityService.CacheRecords | src/services/dnsSecurityService.ts:169-172 | the shared cache is set only when caching is on and there are records |
| DnsSecurity.DnsSecurityService.Analyze | src/services/dnsSecurityService.ts:174-187 | the detector's state becomes its analysis of the records: the domain's pattern updated and the findings on it stored |
| DnsSecurity.DnsSecurityService.GetCacheStats | src/services/dnsSecurityService.ts:475-477 | the shared cache's statistics |
| DnsSecurity.DnsSecurityService.ClearCache | src/services/dnsSecurityService.ts:479-488 | with a non-empty domain the shared cache invalidates it; otherwise each domain of the own map is invalidated |
| DnsSecurityHook.VulnerabilityPenalty | src/hooks/useDNSSecurity.ts:157-173 | each vulnerability costs at least 5 points |
| DnsSecurityHook.VulnerabilityPenaltyZero | src/hooks/useDNSSecurity.ts:157-173 | the vulnerabilities cost nothing exactly when there are none |
| DnsSecurityHook.CriticalCostsAtLeast25 | src/hooks/useDNSSecurity.ts:157-173 | a critical vulnerability costs at least 25 points |
| DnsSecurityHook.SecurityScoreOf | src/hooks/useDNSSecurity.ts:144-182 | 0 without an assessment, otherwise a score in [0, 100] |
| DnsSecurityHook.GetSecurityScore | src/hooks/useDNSSecurity.ts:144-182 | the deduction loop yields the clamped score |
| DnsSecurityHook.FullScoreIffSecureAndClean | src/hooks/useDNSSecurity.ts:81-182 | the score is 100 exactly when the status is secure and there is no vulnerability |
| DnsSecurityHook.CriticalStatusCapsScore | src/hooks/useDNSSecurity.ts:86-92 | a critical status leaves at most 80 points |
| DnsSecurityHook.LowRateCostsTwenty | src/hooks/useDNSSecurity.ts:178-179 | a success rate below 70% costs 20 points, both rate deductions applying |
| DnsSecurityHook.MxRecordsIgnored | src/hooks/useDNSSecurity.ts:81-182 | the MX flag changes neither the status nor the score |
| DnsSecurityHook.HealthOfMeasuredMetrics | src/hooks/useDNSSecurity.ts:124-142 | for metrics classified by the service, under the default thresholds, health is critical exactly below 50% and healthy exactly at 90% or more within 500 ms |
| Behavioral.Mean | src/services/behavioralBiometrics.ts:157-159 | the mean exists (is not NaN) exactly for a non-empty list |
| Behavioral.Variance | src/services/behavioralBiometrics.ts:190-194 | the variance is defined exactly for a non-empty list and never negative |
| Behavioral.VarianceConsistency | src/services/behavioralBiometrics.ts:203-207 | a term in [0, 1]: 1 exactly at variance 0, 0 exactly from variance 10000 on |
| Behavioral.Consistency | src/services/behavioralBiometrics.ts:196-210 | defined exactly when there are hold times, then in [0, 1]; the hold term alone without flight times |
| Behavioral.PerfectConsistency | src/services/behavioralBiometrics.ts:196-210 | consistency is 1 exactly when neither hold nor flight times vary |
| Behavioral.ReleasedTimings | src/services/behavioralBiometrics.ts:150 | keeps exactly the released timings |
| Behavioral.HoldTimes | src/services/behavioralBiometrics.ts:152 | one hold time per timing, in order |
| Behavioral.AnalyzeTyping | src/services/behavioralBiometrics.ts:149-173 | the summary keeps the released timings; its consistency is defined exactly when some key was released, and then in [0, 1] |
| Behavioral.Pressed | src/services/behavioralBiometrics.ts:71-87 | a key press is unreleased and has a flight time exactly when the previous timing was released, measured from that release |
| Behavioral.FirstPending | src/services/behavioralBiometrics.ts:90-92 | the first unreleased timing of the key, or none when there is none |
| Behavioral.Released | src/services/behavioralBiometrics.ts:89-97 | a key release keeps the number of timings |
| Behavioral.ReleasedChangesOne | src/services/behavioralBiometrics.ts:89-97 | a key release changes at most the first pending timing of that key, and only its release and hold times |
| Behavioral.Velocity | src/services/behavioralBiometrics.ts:136-147 | the first movement has velocity 0 |
| Behavioral.TurnCount | src/services/behavioralBiometrics.ts:218-229 | at most one sharp turn per triple of consecutive points |
| Behavioral.MovementPatternByCounts | src/services/behavioralBiometrics.ts:231-234 | with t turns over s segments: erratic exactly when 2t > s, curved exactly when 5t > s >= 2t, direct otherwise |
| Behavioral.DetermineMovementPattern | src/services/behavioralBiometrics.ts:212-235 | the counting loop returns the pattern of the turn ratio |
| Behavioral.AnalyzeMouse | src/services/behavioralBiometrics.ts:175-188 | the summary keeps both buffers; its average velocity is defined exactly when there are movements |
| Behavioral.ConfidenceScore | src/services/behavioralBiometrics.ts:287-316 | NaN exactly when ten keys were released without a consistency; otherwise a score in [0, 1] |
| Behavioral.ConfidenceOfAnalyzed | src/services/behavioralBiometrics.ts:287-316 | over computed summaries the score is in [0, 1] and the final cap never binds |
| Behavioral.CompareTyping | src/services/behavioralBiometrics.ts:340-371 | 0 without stored patterns or with fewer than ten released keys, otherwise the best per-pattern score |
| Behavioral.CompareMouse | src/services/behavioralBiometrics.ts:373-392 | 0 without stored patterns, otherwise the best per-pattern score |
| Behavioral.FewKeysNeverMatch | src/services/behavioralBiometrics.ts:344-346 | with fewer than ten released keys the typing comparison is 0 whatever is stored |
| Behavioral.SmallestKey | src/services/behavioralBiometrics.ts:271-274 | the key `sort()` puts first is a stored key |
| Behavioral.SmallestKeyIsSmallest | src/services/behavioralBiometrics.ts:271-274 | no stored key sorts before it |
| Behavioral.NewProfile | src/services/behavioralBiometrics.ts:237-258 | a new profile holds the typing pattern under the current time and the one mouse pattern |
| Behavioral.AddTypingPattern | src/services/behavioralBiometrics.ts:267-274 | the typing patterns stay keyed and at most ten |
| Behavioral.AddTypingPatternKeeps | src/services/behavioralBiometrics.ts:267-274 | the new pattern is stored unless its key is the smallest of eleven, and only the smallest key is dropped |
| Behavioral.UpdatedProfile | src/services/behavioralBiometrics.ts:260-285 | at most ten patterns of each kind, the newest mouse pattern appended, device data kept, confidence recomputed |
| Behavioral.BehavioralBiometrics.constructor | src/services/behavioralBiometrics.ts:47-56 | every buffer and the profile map start empty |
| Behavioral.BehavioralBiometrics.HandleKeyDown | src/services/behavioralBiometrics.ts:71-87 | appends the pressed timing and changes nothing else |
| Behavioral.BehavioralBiometrics.HandleKeyUp | src/services/behavioralBiometrics.ts:89-97 | releases the first pending timing of the key and changes nothing else |
| Behavioral.BehavioralBiometrics.HandleMouseMove | src/services/behavioralBiometrics.ts:99-111 | appends the movement, keeps the newest 100, changes nothing else |
| Behavioral.BehavioralBiometrics.HandleMouseClick | src/services/behavioralBiometrics.ts:113-125 | appends a double or single click, keeps the newest 50, changes nothing else |
| Behavioral.BehavioralBiometrics.HandleRightClick | src/services/behavioralBiometrics.ts:127-134 | appends a right click without any cap |
| Behavioral.BehavioralBiometrics.AnalyzeMousePattern | src/services/behavioralBiometrics.ts:175-188 | the mouse summary of the current buffers |
| Behavioral.BehavioralBiometrics.CreateProfile | src/services/behavioralBiometrics.ts:237-258 | a new profile from the current buffers replaces any stored one for the user |
| Behavioral.BehavioralBiometrics.UpdateProfile | src/services/behavioralBiometrics.ts:260-285 | nothing for an unknown user; otherwise the updated profile, other users untouched |
| Behavioral.BehavioralBiometrics.VerifyUser | src/services/behavioralBiometrics.ts:318-338 | 0 without a profile, otherwise 0.7 of the best typing match plus 0.3 of the best mouse match |
| Behavioral.BehavioralBiometrics.Reset | src/services/behavioralBiometrics.ts:394-398 | empties the capture buffers and keeps every profile |
| DeviceTrust.HourCount | src/hooks/useDeviceTrust.ts:170-175 | an hour is counted at most once per login time |
| DeviceTrust.HourCountPositive | src/hooks/useDeviceTrust.ts:170-177 | an hour has a positive count exactly when some login fell in it |
| DeviceTrust.TimePatternMatches | src/hooks/useDeviceTrust.ts:166-179 | with five logins or more, the time matches exactly when some login was in the current hour |
| DeviceTrust.LocationAnomalyIffTooFast | src/hooks/useDeviceTrust.ts:181-201 | only the last stored location counts; flagged exactly above 500 units per hour, a zero-time move exactly when it covers distance, a move back in time never |
| DeviceTrust.RiskPoints | src/hooks/useDeviceTrust.ts:203-213 | the risk points lie in [0, 14] |
| DeviceTrust.LevelOf | src/hooks/useDeviceTrust.ts:215-218 | high exactly from 6 points, medium exactly from 3 to 5 |
| DeviceTrust.LevelMonotone | src/hooks/useDeviceTrust.ts:215-218 | the level never falls when the points rise |
| DeviceTrust.TrustScoreRange | src/hooks/useDeviceTrust.ts:273-286 | the score is a multiple of 5 in [0, 100], and 100 exactly when every factor holds |
| DeviceTrust.ActivityFlagsDistinct | src/hooks/useDeviceTrust.ts:339-345 | the seven messages are pairwise different |
| DeviceTrust.FlagConditions | src/hooks/useDeviceTrust.ts:339-345 | one test per message |
| DeviceTrust.UnusualActivityFlagsExactly | src/hooks/useDeviceTrust.ts:333-348 | a message is emitted exactly when its test holds, never twice, and nothing else is emitted |
| DeviceTrust.FindDevice | src/hooks/useDeviceTrust.ts:224 | finds a stored device with the id, none exactly when no device has it |
| DeviceTrust.Locations | src/hooks/useDeviceTrust.ts:263 | at most one location per device |
| DeviceTrust.DetectVpn | src/hooks/useDeviceTrust.ts:155-164 | a VPN is never detected |
| DeviceTrust.BaseFactors | src/hooks/useDeviceTrust.ts:229-248 | known exactly when stored; recent exactly within a week; location match exactly within 100 km of the stored place; time match for an unknown device or by the login hours |
| DeviceTrust.NextTrustScore | src/hooks/useDeviceTrust.ts:221-301 | one more login, failed attempts kept, last login now |
| DeviceTrust.TrustScoreFactors | src/hooks/useDeviceTrust.ts:221-301 | the score is the weighted sum of the factors and the risk level their points' level |
| DeviceTrust.UnregisteredIsHighRisk | src/hooks/useDeviceTrust.ts:203-270 | a device not registered is always high risk with a score of at most 50 |
| DeviceTrust.LocationMismatchCostsFour | src/hooks/useDeviceTrust.ts:208-210 | a location mismatch costs four risk points, since it also sets the unusual-location flag |
| DeviceTrust.NoFailedAttemptsOrVpn | src/hooks/useDeviceTrust.ts:265-296 | from the initial state failed attempts stay 0 and neither their message nor the VPN one is ever emitted |
| DeviceTrust.WithoutDevice | src/hooks/useDeviceTrust.ts:387 | keeps exactly the entries of other ids |
| DeviceTrust.NewDevice | src/hooks/useDeviceTrust.ts:359-385 | a new entry is seen now, has no login times and no risk flags |
| DeviceTrust.WithoutDeviceDistinct | src/hooks/useDeviceTrust.ts:387 | removing an id keeps a list free of repeated ids |
| DeviceTrust.RegisteredOnce | src/hooks/useDeviceTrust.ts:387-388 | after registration the id occurs exactly once, last; other entries are kept; distinct ids stay distinct |
| DeviceTrust.RegisteredTimePatternMatches | src/hooks/useDeviceTrust.ts:166-167 | a freshly registered device always matches the time pattern |
| DeviceTrust.DeviceTrustHook.constructor | src/hooks/useDeviceTrust.ts:53-73 | the stored devices and the initial record |
| DeviceTrust.DeviceTrustHook.CalculateTrustScore | src/hooks/useDeviceTrust.ts:221-301 | the memoised callback keeps the first render's record, so each call computes from the initial record and reports one login; the new record replaces the state, the stored devices untouched |
| DeviceTrust.StaleLoginCount | src/hooks/useDeviceTrust.ts:291-301 | as written, two calls both report one login, where chaining the records reports two |
| DeviceTrust.ReplayedCountsLogins | src/hooks/useDeviceTrust.ts:291-301 | computing each record from the one before, the login count grows by one per call |
| DeviceTrust.DeviceTrustHook.RegisterDevice | src/hooks/useDeviceTrust.ts:350-421 | the new entry replaces any of the same id, last in the list |
| RiskHook.ActionFor | src/hooks/useRiskAssessment.ts:86-97 | block exactly from the block threshold, step-up exactly between its threshold and blocking, additional authentication exactly below both from its own threshold |
| RiskHook.DefaultActionsFollowLevels | src/hooks/useRiskAssessment.ts:19-27 | with the default thresholds 60, 80 and 90 the action follows the service's risk level |
| RiskHook.GetUserContext | src/hooks/useRiskAssessment.ts:34-76 | the context is stamped now, at the given location, with the current hour as the only common login hour and no known location |
| RiskHook.HookContextFactorScores | src/hooks/useRiskAssessment.ts:52-76 | the placeholder history fixes the time score at 0.1, the historical score at 0 and the location score at the neutral 0.5, and never trips the interaction-frequency concern |
| RiskHook.PerformAssessment | src/hooks/useRiskAssessment.ts:78-105 | nothing without a signed-in user; otherwise the service assesses and stores, and the action follows the score |
| RiskHook.GetRiskHistory | src/hooks/useRiskAssessment.ts:122-125 | empty without a user, otherwise the service's history for the user |
| RiskHook.GetAggregateRisk | src/hooks/useRiskAssessment.ts:127-130 | none exactly without a user; an average score in [0, 100] |
| NetworkSecurity.FlagScore | src/services/networkSecurity.ts:237-249 | the flag weights add up to a score in [0, 100] |
| NetworkSecurity.QualityScore | src/services/networkSecurity.ts:253-261 | the connection surcharges add up to at most 30 |
| NetworkSecurity.RiskScore | src/services/networkSecurity.ts:235-264 | a score in [0, 100]; without a history, the flag weights alone |
| NetworkSecurity.SlowConnectionSurcharge | src/services/networkSecurity.ts:257-258 | an average latency above 500 ms costs the full 15 points |
| NetworkSecurity.HighRiskNeedsThreatIntel | src/services/networkSecurity.ts:237-249 | without threat intelligence the flags reach at most 70, so 80 or more needs it |
| NetworkSecurity.NetworkAdvicesDistinct | src/services/networkSecurity.ts:266-304 | the recommendation messages are pairwise different |
| NetworkSecurity.AdviceConditions | src/services/networkSecurity.ts:266-304 | one test per message |
| NetworkSecurity.RecommendationsExactly | src/services/networkSecurity.ts:266-304 | a message is recommended exactly when its test holds, and none twice |
| NetworkSecurity.DatacenterHasNoAdvice | src/services/networkSecurity.ts:266-304 | a datacenter address adds no message of its own |
| NetworkSecurity.SlowCount | src/services/networkSecurity.ts:90 | at most one slow sample per sample |
| NetworkSecurity.PacketLoss | src/services/networkSecurity.ts:85-92 | a percentage in [0, 100], 0 with fewer than two samples |
| NetworkSecurity.MetricsOf | src/services/networkSecurity.ts:307-338 | zeros and good without samples; otherwise the averages, poor exactly above 500 ms or 15 % loss |
| NetworkSecurity.NetworkSecurityService.constructor | src/services/networkSecurity.ts:24-39 | no stored metrics |
| NetworkSecurity.NetworkSecurityService.HistoryOf | src/services/networkSecurity.ts:109-114 | empty without a user or for a user with nothing stored |
| NetworkSecurity.NetworkSecurityService.RecentConnectionMetrics | src/services/networkSecurity.ts:109-119 | always empty, since there is never a current user |
| NetworkSecurity.NetworkSecurityService.StoreForUser | src/services/networkSecurity.ts:94-107 | nothing without a user; otherwise the newest 100 samples, oldest first |
| NetworkSecurity.NetworkSecurityService.StoreConnectionMetrics | src/services/networkSecurity.ts:94-119 | nothing is ever stored |
| NetworkSecurity.NetworkSecurityService.HandleConnectionChange | src/services/networkSecurity.ts:54-67 | a connection change stores nothing |
| NetworkSecurity.NetworkSecurityService.MeasurePacketLoss | src/services/networkSecurity.ts:85-92 | always 0 |
| NetworkSecurity.NetworkSecurityService.CalculateNetworkRiskScore | src/services/networkSecurity.ts:235-264 | the surcharges never apply: the score is the flag weights |
| NetworkSecurity.NetworkSecurityService.GetNetworkMetrics | src/services/networkSecurity.ts:307-338 | zeros and a good connection |
| NetworkSecurity.NetworkSecurityService.PerformNetworkAssessment | src/services/networkSecurity.ts:121-140 | the gathered information, the flag score and its recommendations |
| NetworkHook.InitialState | src/hooks/useNetworkSecurity.ts:26-28 | no assessment and the service's metrics |
| NetworkHook.RiskAlerts | src/hooks/useNetworkSecurity.ts:40-45 | at most one risk toast: blocked exactly from the block threshold, additional authentication exactly between the two thresholds |
| NetworkHook.PerformAssessment | src/hooks/useNetworkSecurity.ts:30-60 | nothing without a user; otherwise the new assessment and metrics, and the poor-connection toast exactly when the held metrics are poor |
| NetworkHook.ConnectionStatusOfServiceMetrics | src/hooks/useNetworkSecurity.ts:76-94 | on metrics the service computes the status is never warning: critical exactly when poor, degraded exactly when fair |
| NetworkHook.AlertsFollowSecurityStatus | src/hooks/useNetworkSecurity.ts:40-113 | the risk toasts agree with the security status then reported |
| NetworkHook.NoPoorConnectionAlert | src/hooks/useNetworkSecurity.ts:47-51 | the held metrics come from the service, so the poor-connection toast is never raised |
| NetworkHook.DefaultBlockNeedsThreatIntel | src/hooks/useNetworkSecurity.ts:16-45 | under the default thresholds, blocking needs reported malicious activity and a flag score of at least 90 |
| NetworkHook.SecurityStatusMonotone | src/hooks/useNetworkSecurity.ts:96-114 | the security status rises with the score |
| PasswordPolicy.TableLevels | src/services/passwordPolicy.ts:18-79 | the table is the four normal, then the three enhanced, then the four maximum requirements, each row of its block's level |
| PasswordPolicy.ActiveIn | src/services/passwordPolicy.ts:92-96 | the filter keeps at most the requirements it is given |
| PasswordPolicy.ActiveInAppend | src/services/passwordPolicy.ts:92-96 | filtering a concatenation filters each part |
| PasswordPolicy.ActiveInUniform | src/services/passwordPolicy.ts:92-96 | a block of one level is kept whole or dropped whole |
| PasswordPolicy.ActiveByBlocks | src/services/passwordPolicy.ts:92-96 | the active requirements are the active parts of the three level blocks |
| PasswordPolicy.ActiveNormal | src/services/passwordPolicy.ts:92-93 | normal switches on the first four requirements |
| PasswordPolicy.ActiveEnhanced | src/services/passwordPolicy.ts:92-94 | enhanced switches on the first seven |
| PasswordPolicy.ActiveMaximum | src/services/passwordPolicy.ts:92-96 | maximum keeps the whole table |
| PasswordPolicy.ActiveRequirementsAreCumulative | src/services/passwordPolicy.ts:92-96 | the levels are cumulative, with four, seven and eleven requirements |
| PasswordPolicy.ActiveNonEmpty | src/services/passwordPolicy.ts:92-96 | every level has at least four requirements, so the score never divides by zero |
| PasswordPolicy.Results | src/services/passwordPolicy.ts:99-103 | one result per active requirement |
| PasswordPolicy.CountMet | src/services/passwordPolicy.ts:106 | at most one met per result |
| PasswordPolicy.AllMetIff | src/services/passwordPolicy.ts:106-146 | every result counts as met exactly when every requirement is met |
| PasswordPolicy.CountMetAll | src/services/passwordPolicy.ts:106 | the count reaches the number of results exactly when all are met |
| PasswordPolicy.Bonus | src/services/passwordPolicy.ts:109-113 | the bonus lies in [0, 20] |
| PasswordPolicy.Score | src/services/passwordPolicy.ts:106-115 | a score in [0, 100]: 100 when all are met, the met share when there is no bonus |
| PasswordPolicy.UnmetOf | src/services/passwordPolicy.ts:121 | only unmet-requirement messages, at most one per result |
| PasswordPolicy.UnmetOfMembers | src/services/passwordPolicy.ts:121 | a message is listed exactly when a result with it is unmet |
| PasswordPolicy.HintListMembers | src/services/passwordPolicy.ts:128-140 | each hint is in the list exactly when its flag is set |
| PasswordPolicy.HintsMembers | src/services/passwordPolicy.ts:128-140 | each pattern hint is listed exactly when its test holds |
| PasswordPolicy.ResultsFor | src/services/passwordPolicy.ts:92-103 | one result per active requirement, at least four |
| PasswordPolicy.ScoreFor | src/services/passwordPolicy.ts:105-115 | the score of a password lies in [0, 100] |
| PasswordPolicy.FeedbackHint | src/services/passwordPolicy.ts:117-140 | a hint is in the feedback exactly when it is among the hints |
| PasswordPolicy.FeedbackUnmet | src/services/passwordPolicy.ts:117-140 | an unmet item is in the feedback exactly when it is in the unmet part |
| PasswordPolicy.CollectUnmet | src/services/passwordPolicy.ts:121 | the loop pushes exactly the unmet messages, in table order |
| PasswordPolicy.PushFlags | src/services/passwordPolicy.ts:128-140 | appends the hints whose flags are set, in the source's order |
| PasswordPolicy.PushHints | src/services/passwordPolicy.ts:123-140 | appends the breach message when compromised, then the pattern hints |
| PasswordPolicy.ValidatePassword | src/services/passwordPolicy.ts:90-148 | the result of `validatePassword` for the password and complexity |
| PasswordPolicy.ValidIff | src/services/passwordPolicy.ts:146 | valid exactly when every active requirement is met and the lower-cased password is not a known breached one |
| PasswordPolicy.UnmetResultsIff | src/services/passwordPolicy.ts:99-121 | a message is reported unmet exactly when a requirement with it fails |
| PasswordPolicy.UnmetFeedbackIff | src/services/passwordPolicy.ts:92-121 | a requirement's message is fed back exactly when that active requirement is unmet |
| PasswordPolicy.RepeatHintIff | src/services/passwordPolicy.ts:129-131 | the repeat hint is fed back exactly when a character occurs three times in a row |
| PasswordPolicy.RepeatHintNegatesRule | src/services/passwordPolicy.ts:53-57 | on one line the repeat hint is the negation of the no-repeat rule; after a line break the rule misses repeats the hint sees |
| PasswordPolicy.IncludesSameLength | src/services/passwordPolicy.ts:138 | `includes` of an equally long string is equality |
| PasswordPolicy.PalindromeHintIff | src/services/passwordPolicy.ts:138-140 | the palindrome hint is fed back exactly when the lower-cased password reads the same backwards, the empty password included |
| PasswordPolicy.CompromisedIsInvalid | src/services/passwordPolicy.ts:123-146 | a breached password is invalid whatever its strength, and the feedback says so |
| PasswordPolicy.AllMetScoresFull | src/services/passwordPolicy.ts:106-115 | meeting every active requirement scores 100 |
| PasswordStrength.CountMet | src/components/ui/password-strength.tsx:30-34 | at most one per check |
| PasswordStrength.CountMetExtremes | src/components/ui/password-strength.tsx:30-34 | nothing is counted exactly when no check holds, everything exactly when all hold |
| PasswordStrength.MetRequirements | src/components/ui/password-strength.tsx:13-34 | at most five of the five requirements are met |
| PasswordStrength.StrengthLevelIsMetCapped | src/components/ui/password-strength.tsx:33-36 | the level is the met count with 5 folded onto 4: in 0..4 and never falling as more is met |
| PasswordStrength.Level | src/components/ui/password-strength.tsx:33-39 | the level indexes the five strength labels |
| PasswordStrength.VeryWeakIffNothingMet | src/components/ui/password-strength.tsx:21-39 | "Very Weak" exactly when none of the five requirements is met |
| PasswordStrength.Bars | src/components/ui/password-strength.tsx:43-53 | five bars |
| PasswordStrength.CountColoured | src/components/ui/password-strength.tsx:43-53 | at most one coloured per bar |
| PasswordStrength.ColouredBars | src/components/ui/password-strength.tsx:43-53 | exactly level + 1 bars take the level's colour, and they are the first ones |
| PasswordStrength.Counter | src/components/ui/password-strength.tsx:56-59 | met out of five, never more than five |
| FormValidation.Capitalized | src/hooks/useFormValidation.ts:34 | capitalising keeps the length of the name |
| FormValidation.NoRulesNoError | src/hooks/useFormValidation.ts:30-31 | a field without rules never fails |
| FormValidation.BuiltInMessagesNameTheField | src/hooks/useFormValidation.ts:33-47 | every built-in message begins with the capitalised field name |
| FormValidation.ZeroLimitsIgnored | src/hooks/useFormValidation.ts:37-43 | a zero length limit is skipped as if absent |
| FormValidation.MinLengthRejectsEmpty | src/hooks/useFormValidation.ts:33-39 | a positive minimum length rejects the empty value of a field that is not required |
| FormValidation.RequiredComesFirst | src/hooks/useFormValidation.ts:33-35 | a required empty value is reported as required whatever else the rules say |
| FormValidation.FormErrorsExact | src/hooks/useFormValidation.ts:58-68 | the errors name exactly the failing fields with their own messages; the form is valid exactly when there are none |
| FormValidation.Form.constructor | src/hooks/useFormValidation.ts:19-26 | the initial values, no errors, nothing touched, not valid |
| FormValidation.Form.ValidateForm | src/hooks/useFormValidation.ts:58-73 | the loop returns and stores the form's validity and its errors, leaving values and touched alone |
| FormValidation.Form.HandleChange | src/hooks/useFormValidation.ts:75-83 | stores the value, marks the field touched, re-checks that field only |
| FormValidation.Form.HandleBlur | src/hooks/useFormValidation.ts:85-92 | marks the field touched and re-checks its current value only |
| FormValidation.Form.ResetForm | src/hooks/useFormValidation.ts:94-99 | back to the initial values with no errors, nothing touched, not valid |
| FormValidation.FormErrorsKeys | src/hooks/useFormValidation.ts:58-68 | a field name is a key of the errors exactly when some submitted field of that name fails its rules |
| FormValidation.FormErrorsValues | src/hooks/useFormValidation.ts:58-68 | every recorded error is the message the field's own rules give for a submitted value of that field |
| FormValidation.FormValidIff | src/hooks/useFormValidation.ts:58-68 | the form is valid exactly when the error map is empty |
| AuthPage.EmailRule | src/pages/Auth.tsx:17-27 | an email is accepted exactly when it is non-empty and matches the address pattern; the custom dot check never decides |
| AuthPage.PasswordRule | src/pages/Auth.tsx:28-43 | a password is accepted exactly with six characters, a digit, a lower-case and an upper-case letter, reported in that order |
| AuthPage.UsernameRule | src/pages/Auth.tsx:44-49 | a user name is accepted exactly with 3 to 20 letters, digits and underscores |
| AuthPage.FullNameRule | src/pages/Auth.tsx:50-54 | a full name is accepted exactly with 2 to 50 characters |
| AuthPage.Page.constructor | src/pages/Auth.tsx:57-96 | login mode, the initial form and an empty rate limiter |
| AuthPage.Page.HandleSubmit | src/pages/Auth.tsx:114-122 | an invalid form stops before the rate limiter; a valid one records an attempt and submits exactly when it is accepted |
| AuthPage.Page.HandleModeChange | src/pages/Auth.tsx:178-182 | the new mode, a reset form and an empty rate limiter |
| AuthPage.LoginFormNeverValid | src/pages/Auth.tsx:116 | while the user name is empty no form validates |
| AuthPage.CorrectCredentialsRefused | src/pages/Auth.tsx:116 | a login with only email and password typed in never validates |
| AuthPage.ModeFormValidAcceptsLogin | src/pages/Auth.tsx:116 | under a check of the fields each mode shows, a good login validates while sign-up still demands its own fields |
| PasswordBreachCheck.Prefix | src/services/passwordBreachCheck.ts:18 | the prefix is at most five characters |
| PasswordBreachCheck.Suffix | src/services/passwordBreachCheck.ts:19 | the suffix is everything after the first five characters |
| PasswordBreachCheck.PrefixSuffixSplit | src/services/passwordBreachCheck.ts:17-26 | a 40-character digest splits into 5 and 35 characters that rejoin to it; two digests make the same request exactly when their first five characters agree |
| PasswordBreachCheck.FindIndex | src/services/passwordBreachCheck.ts:36 | the first line starting with the suffix, none exactly when no line does |
| Common.TrimStart | src/services/passwordBreachCheck.ts:45 | the white space `parseInt` skips: the result is a suffix that does not start with white space |
| PasswordBreachCheck.DigitPrefix | src/services/passwordBreachCheck.ts:45 | `parseInt` reads the longest run of leading digits |
| PasswordBreachCheck.ParseIntOfCount | src/services/passwordBreachCheck.ts:45 | a decimal count followed by non-digit text reads back as itself |
| PasswordBreachCheck.OccurrencesOfLine | src/services/passwordBreachCheck.ts:45 | a `SUFFIX:COUNT` line gives back its count |
| PasswordBreachCheck.CompromisedIff | src/services/passwordBreachCheck.ts:14-69 | compromised exactly when the request failed or some line starts with the suffix; a clean report is false with 0; a failure is the fail-safe record |
| PasswordBreachCheck.CheckLines | src/services/passwordBreachCheck.ts:32-43 | a body of newline-free lines is checked line by line |
| PasswordBreachCheck.HexSuffix | src/services/passwordBreachCheck.ts:17-19 | an upper-case hex digest's suffix holds no colon or newline |
| PasswordBreachCheck.CountLineShape | src/services/passwordBreachCheck.ts:32-45 | a count line starts with the suffix, has no newline and reads back its count |
| PasswordBreachCheck.MatchedLineCount | src/services/passwordBreachCheck.ts:36-55 | the first matching line decides the count; a match with count 0 is still compromised |
| PasswordBreachCheck.FindIndexAt | src/services/passwordBreachCheck.ts:36 | the first matching line is found at its position |
| PasswordBreachCheck.EstimateCrackTime | src/services/passwordBreachCheck.ts:82-93 | instantly exactly below one second; otherwise the largest unit reached, up to years, with a rounded count of at least 1 and at most one of the next unit |
| PasswordBreachCheck.CrackTimeUnitMonotone | src/services/passwordBreachCheck.ts:82-93 | a longer time is never reported in a smaller unit |
| PasswordBreachCheck.CrackSeconds | src/services/passwordBreachCheck.ts:76-85 | the seconds are never negative |
| PasswordBreachCheck.SingleCharacterCrackedInstantly | src/services/passwordBreachCheck.ts:76-95 | a password of one repeated character, or the empty one, is cracked instantly |
| PasswordBreachCheck.SuggestionFlags | src/services/passwordBreachCheck.ts:99-105 | one test per suggestion |
| PasswordBreachCheck.CheckPasswordStrength | src/services/passwordBreachCheck.ts:96-105 | the loop makes exactly the suggestions whose tests hold, in order |
| PasswordBreachCheck.SuggestionsExact | src/services/passwordBreachCheck.ts:96-105 | each suggestion is made exactly when its test holds, none twice, and none exactly for 16+ characters of all four classes without repeats or a common start |
| PasswordBreachCheck.CommonStartIgnoresCase | src/services/passwordBreachCheck.ts:105 | the common-start test ignores ASCII case |
| Base64.SextetChar | src/hooks/useSecurityQuestions.ts:117 | no alphabet character is the padding character |
| Base64.SextetCharInjective | src/hooks/useSecurityQuestions.ts:117 | different sextets get different characters |
| Base64.Quad | src/hooks/useSecurityQuestions.ts:117 | a 24-bit group becomes four non-padding characters |
| Base64.Encode | src/hooks/useSecurityQuestions.ts:117 | the encoding has four characters per started group of three bytes |
| Base64.TestVectors | src/hooks/useSecurityQuestions.ts:117 | the encoding gives the section 10 test vectors of RFC 4648 for "f", "fo" and "foo" |
| Base64.QuadInjective | src/hooks/useSecurityQuestions.ts:117 | different 24-bit groups give different four-character blocks |
| Base64.EncodeInjective | src/hooks/useSecurityQuestions.ts:117 | different byte strings never share an encoding |
| Common.DroppedAreSpaces | src/hooks/useSecurityQuestions.ts:115 | only white space is dropped, so exactly the leading white space goes |
| SecurityQuestions.DropTrailingSpaces | src/hooks/useSecurityQuestions.ts:115 | the result is a prefix of the text that does not end with white space |
| SecurityQuestions.Trim | src/hooks/useSecurityQuestions.ts:115 | the result neither starts nor ends with white space and keeps only characters of the text |
| SecurityQuestions.Collapse | src/hooks/useSecurityQuestions.ts:115 | empty exactly for the empty text, and never longer than it |
| SecurityQuestions.CollapseSingleSpaced | src/hooks/useSecurityQuestions.ts:115 | every run of white space becomes one space, so the result has no white space but single spaces; a leading run becomes a space, any other first character stays |
| SecurityQuestions.CollapseLast | src/hooks/useSecurityQuestions.ts:115 | a text that ends in a non-space character keeps it as its last character |
| SecurityQuestions.CollapseNoUpper | src/hooks/useSecurityQuestions.ts:115 | collapsing introduces no upper-case letter |
| SecurityQuestions.LowerTrimmedNoUpper | src/hooks/useSecurityQuestions.ts:115 | lower-casing then trimming leaves no upper-case letter |
| SecurityQuestions.CollapseNormal | src/hooks/useSecurityQuestions.ts:115 | collapsing a trimmed text without upper case gives a normal text |
| SecurityQuestions.CollapseFixed | src/hooks/useSecurityQuestions.ts:115 | a single-spaced text is left as it is |
| SecurityQuestions.NormalizeIsNormal | src/hooks/useSecurityQuestions.ts:113-115 | a normalised answer is lower-case, trimmed and single-spaced |
| SecurityQuestions.NormalFixed | src/hooks/useSecurityQuestions.ts:113-115 | a normal text is left as it is |
| SecurityQuestions.NormalizeIdempotent | src/hooks/useSecurityQuestions.ts:113-115 | normalising twice is normalising once |
| SecurityQuestions.Bytes | src/hooks/useSecurityQuestions.ts:117 | one byte per character, its code |
| SecurityQuestions.HashSeparates | src/hooks/useSecurityQuestions.ts:113-118 | two encodable answers get the same stored form exactly when they normalise to the same text |
| SecurityQuestions.HashOfNormal | src/hooks/useSecurityQuestions.ts:113-118 | normalising first does not change the stored form |
| SecurityQuestions.Hashed | src/hooks/useSecurityQuestions.ts:43-46 | one hashed row per question |
| SecurityQuestions.Setup | src/hooks/useSecurityQuestions.ts:35-66 | fewer than three questions are refused first; the answers are stored exactly when all can be encoded and the upsert succeeds, and then the state is set up |
| SecurityQuestions.TableLookup | src/hooks/useSecurityQuestions.ts:73-77 | with distinct questions each row's answer is found under its question |
| SecurityQuestions.VerifyAfterSetup | src/hooks/useSecurityQuestions.ts:68-91 | after set-up, answers verify exactly when each normalises to the answer given at set-up; no answers verify |
| SecurityQuestions.Load | src/hooks/useSecurityQuestions.ts:93-111 | an error leaves the state; otherwise one blank-answer row per question and set up exactly when there is one |
| AdaptiveAuth.NextStep | src/components/AdaptiveAuth.tsx:62-75 | only `check` moves: it stays for 80 or more (calling success), goes to verify from 60 to 79, and to register below 60 |
| AdaptiveAuth.ScreenOf | src/components/AdaptiveAuth.tsx:62-160 | a render in check shows nothing; every other screen offers cancel, and biometric authentication exactly in verify when it is available |
| AdaptiveAuth.BiometricSucceeds | src/components/AdaptiveAuth.tsx:46-60 | success needs the authentication to resolve, and the registration too when biometrics are not yet enabled |
| AdaptiveAuth.AdaptiveAuthFlow.constructor | src/components/AdaptiveAuth.tsx:14-18 | starts in check with no success called |
| AdaptiveAuth.AdaptiveAuthFlow.Render | src/components/AdaptiveAuth.tsx:62-160 | shows the screen of the step, moves as the ladder says, and calls success once per render in check at 80 or more |
| AdaptiveAuth.AdaptiveAuthFlow.HandleRegisterDevice | src/components/AdaptiveAuth.tsx:25-44 | registers and recomputes; success at 60 or more, verify below 60 or when the registration throws |
| AdaptiveAuth.AdaptiveAuthFlow.HandleBiometricAuth | src/components/AdaptiveAuth.tsx:46-60 | keeps the step and calls success exactly when the biometric path succeeds |
| AdaptiveAuth.NeverBackToCheck | src/components/AdaptiveAuth.tsx:18-75 | no step other than check leads back to it |
| AdaptiveAuth.FirstRenderRegisters | src/components/AdaptiveAuth.tsx:18-75 | the trust score starts at 0, so the first render asks for device registration with register and cancel |
| AdaptiveAuth.RegisteredDeviceIsKnown | src/components/AdaptiveAuth.tsx:25-31 | after registration the recomputed score counts the device as known and its time as usual: at least 30 points, recent exactly within a week of registering |
| Common.Round | src/services/passwordBreachCheck.ts:88-92 | `Math.round`: the nearest integer, halves rounding up |
| Common.CeilDiv | src/hooks/useRateLimit.ts:38 | `Math.ceil` of a quotient: the least multiple of the divisor not below the dividend |
| Common.Appended | src/services/behavioralBiometrics.ts:99-111 | a push followed by a shift past the cap keeps the newest entries, the new one last |
| Common.Dedup | src/services/riskAssessment.ts:405 | no duplicates, and exactly the elements of the list |
| Common.DedupFirstOccurrences | src/services/riskAssessment.ts:405 | the elements appear in the order of their first occurrences |
| Common.DedupKeepsDistinctPrefix | src/services/riskAssessment.ts:405 | elements pushed first and already distinct keep their places at the front |
| OrderedMaps.RemoveAppend | src/services/dns/dnsCache.ts:147-149 | deleting a key from a concatenation deletes it from each part, so the other entries keep their order |
| OrderedMaps.PutShape | src/hooks/useFormValidation.ts:77 | an existing key keeps its place, a new key is appended, no other entry moves |
| TextPatterns.AtLeastOnLineIsLength | src/services/passwordPolicy.ts:21 | on one line, `/.{n,}/` is a length test |
| TextPatterns.OnLineIsCount | src/services/passwordPolicy.ts:64-73 | on one line, two or three matching characters anywhere satisfy the counting look-aheads |
| TextPatterns.TripleTests | src/services/passwordPolicy.ts:53 | the first-line no-repeat rule only misses triples, and agrees with the triple test on one line |
| TextPatterns.TripleAfterBreak | src/services/passwordPolicy.ts:53 | a triple after a line break escapes the no-repeat rule |
| TextPatterns.OccursIsIncludes | src/services/passwordPolicy.ts:75 | a case-insensitive occurrence on the first line is an `includes` of the lower-cased text |
| TextPatterns.NoCommonPatternIsIncludes | src/services/passwordPolicy.ts:75 | on one line, the common-pattern rule fails exactly on a case-insensitive occurrence of one of the four words |
| TextPatterns.EmailHasDot | src/pages/Auth.tsx:20-26 | every address the email pattern accepts contains a dot |
| TextPatterns.EmailSplitUnique | src/pages/Auth.tsx:20 | an accepted address splits into local part, domain and top-level domain in one way only |
| TextPatterns.TwoOnLineIsCount | src/services/passwordPolicy.ts:64-73 | two matching characters on one line satisfy the two-count look-ahead |
| TextPatterns.ThreeOnLineIsCount | src/services/passwordPolicy.ts:64-73 | three matching characters on one line satisfy the three-count look-ahead |

## Left out

- **Network I/O.** The outcome of each DNS-over-HTTPS `fetch` in `queryDNS`, and the body of the breach range response, are inputs to the model; the HTTP requests themselves are not modelled.
- **The DNS probes of `src/services/dnsSecurityService.ts`.** `checkDNSSecurity` and `performDNSSecurityAssessment` are modelled through the security information they return, which the model takes as an input to the recommendations and to the hook. The probes behind it test the following: `checkDNSSEC` fetches the `DNSKEY` answer directly, without `queryDNS`, and reads its `AD` flag; `checkCAA` and `checkMXRecords` test for a non-empty answer; `checkSPF` and `checkDMARC` test whether some lower-cased TXT value starts with `v=spf1` or `v=dmarc1`; `checkNameserverRedundancy` needs at least two NS records; `checkVulnerabilities` looks for AXFR records and for A records without a PTR record. Except for `checkDNSSEC`, the probes go through `queryDNS` with the cache on, so in the program they also fill the shared cache and train the anomaly detector. The model leaves both effects out.
- **`measureDNSMetrics`.** The program starts its four probes in parallel, so the detector sees their answers in completion order. The model runs them one after another in the order of `DNS_CHECK_ENDPOINTS`. The success count, and so the metrics, are the same. Every probe reads one clock value, and the elapsed time is an input. The endpoint only labels each result: without a preferred resolver, `queryDNS` sends all four requests to Cloudflare.
- **Network probing.** `gatherNetworkInfo`, the VPN, proxy and Tor detectors and `measureLatency` read the browser and the network; their findings are inputs.
- **SHA-1.** The digest of the password is an input to the breach check, which keeps its prefix/suffix split and the range-response parsing.
- **Timers and React plumbing.** `setInterval`, `setTimeout`, event listeners, `useEffect` and `useCallback` are not modelled; each timer callback is a method called with the current time.
- **Trigonometry and logarithms.** The haversine distance, the `atan2` turn test, the `sqrt` in the mouse velocity, the Shannon entropy of DNS names and the `log2` entropy of a password are parameters of the members that use them.
- **Floating point.** Reals are exact, so a sum or a rounding at exactly `.5` may come out differently from IEEE-754 doubles. For example, `0.1 + 0.2 + 0.3` is 0.6000000000000001 in doubles and so passes a `> 0.6` test that the exact 0.6 of the model fails.
- **Browser probes.** `UAParser`, `navigator`, `isSecureContext`, the devtools and emulator checks and the stored device id are read through `Probe` values that the caller supplies.
- **Randomness.** `generateStrongPassword` draws random characters and is not modelled.
- **WebAuthn.** `useBiometric` is not part of this model; `AdaptiveAuth` takes whether the credential creation or assertion resolved as an input.
- **Supabase.** The security-question table is a map parameter or result. Sign-in, sign-up, password reset, two-factor verification, OAuth and the remembered email of the auth page are left out: they are calls into the backend, made after the validation and throttling that the model covers.
- **Browser storage.** `localStorage` is modelled as fields of the classes that read and write it; the JSON encoding is not modelled.
- **User interface.** Rendering, toasts and console output are left out, except where the text of a toast or of a message is what an operation returns.
- **`src/services/dnsCache.ts` is not part of this model.** `src/services/dnsSecurityService.ts` imports it; the model uses the cache of `src/services/dns/dnsCache.ts`, the only cache source at hand, in its place.
- **Re-export files.** `src/services/dns/dnsSecurityService.ts` and `src/services/dns/index.ts` only re-export other modules.
- **Other hooks.** `useBehavioralAuth` and `useSession` are callers of the core and are not modelled.
- **Concurrency.** Asynchronous calls are modelled as running one after another, each to completion.
- **Text.** Strings are sequences of characters rather than UTF-16 code units, and upper/lower-case mapping covers ASCII only.
- Behavioral.CompareTyping: the score of one stored typing pattern against the current one is an input, so the contract states how the scores combine, not how each is computed.
- Behavioral.CompareMouse: the score of one stored mouse pattern is an input, for the same reason as for typing.
- Behavioral.BehavioralBiometrics.VerifyUser: takes the per-pattern typing and mouse scores as inputs, so it states only the 0 for a user without a profile and the combination `0.7 * typing + 0.3 * mouse` of the best scores, not how each score is computed. `verifyUser` itself has no threshold and updates no profile.
- Behavioral.BehavioralBiometrics.HandleMouseMove, Behavioral.BehavioralBiometrics.HandleMouseClick, Behavioral.BehavioralBiometrics.HandleRightClick, Behavioral.BehavioralBiometrics.CreateProfile, Behavioral.BehavioralBiometrics.UpdateProfile: in the model a stored mouse pattern is a snapshot of the capture buffers. In the program, `analyzeMousePattern` stores the live `mouseMovements` and `mouseClicks` arrays themselves, so until `reset` replaces them, later pushes and the caps' `shift()` also change every stored profile's mouse patterns. No score reads those arrays after the pattern is stored, because its confidence is computed when it is stored.
- Behavioral.Velocity: the Euclidean distance between two points is an input, because it needs a square root.
- RiskAssessment.AssessLocationRisk: the distance between the two coordinates is an input, because the haversine formula needs trigonometry.
- PasswordBreachCheck.CrackSeconds: computes the exact `charset^length / 1e9` that `2^entropy / 1e9` stands for, and does not return the entropy in bits. When `charset^length` reaches `2^1024`, `Math.pow` overflows to `Infinity` and the program reports `"Infinity years"`; the model reports a finite number of years there.
- BruteForce.ValidConfig: requires `maxAttempts > 0`, which the hook's options do not enforce. With `maxAttempts` 0 the program divides by zero in `attempts / maxAttempts` and gets `Infinity` or `NaN`, which integers cannot represent, so the model does not cover that configuration.
- FormValidation.Form.HandleBlur: requires the field to be a key of the form's values. The parameter type `keyof T` promises this only at compile time; the program validates `undefined` for a field missing at run time, and the model does not cover that case.
- SecurityQuestions.Setup: does not restrict the questions to the ten the page offers.
- SecurityQuestions.VerifyAfterSetup: assumes the questions set up are pairwise distinct, because the database upsert keeps only one answer per question.

## Findings

| source | as written | input that shows it | evidently intended | confidence | as-written member | corrected member |
|---|---|---|---|---|---|---|
| src/pages/Auth.tsx:116 | `handleSubmit` calls `validateForm`, which applies every rule of the `validations` table, including the sign-up-only `username` rule, to every value | a login with email `a@b.co` and password `Abc123`, with `username` left at its initial `""`: the username rule fails, so the submission stops at validation | only the fields the current mode shows are validated, so that a login with a valid email and password is submitted | not executed | AuthPage.CorrectCredentialsRefused | AuthPage.ModeFormValidAcceptsLogin |
| src/hooks/useDeviceTrust.ts:301 | `calculateTrustScore` is memoised on `trustScore.metadata.failedAttempts`, which stays 0, and on three callbacks that are never recreated, so it keeps reading the first render's `trustScore` and computes `loginCount` as `0 + 1` on every call | the mount effect computes a score, then `handleRegisterDevice` of the adaptive authentication screen computes it again: both records report `loginCount` 1 | each call counts one more login: 1, then 2 | not executed | DeviceTrust.StaleLoginCount | DeviceTrust.ReplayedCountsLogins |
