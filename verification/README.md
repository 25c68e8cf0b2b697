# Verified model of the gateway's stateful protocols

The gateway keeps several small protocols in memory, in a cache and in tables: linking a signed-in
user to a utility customer, calling downstream ports through a read cache and a circuit breaker, a
transactional outbox, chat store-and-forward, and database migration. This project models them and
proves what they promise over every input, every run and every interleaving.

`dafny verify dfyconfig.toml` checks the whole project.

## How the model is built

* An operation that changes state is a method of a class (`MemoryCacheService`, `BindingRateLimiter`,
  `BindingServiceObject`, `CircuitBreakerState`, `Registry`, `OutboxRepository`, `OutboxProcessor`,
  `ChatOutboxForwarder`, `MigrationRunner`, `MockCustomerService`). Each method is proved to compute a
  specification function on values; the theorems are about those functions.
* A protocol with concurrency is a transition system whose steps are the calls between two await
  points (`BindingRace`, `TokenRace`, `BindingOverlap`, `PortOverlap`, `Outbox`, `Chat`) or calls in flight
  (`CircuitBreaker`). `FlushIsARun`, `BatchIsARun`, `SerialRunsAreSchedules`, `ThreeStepsAreExecute`,
  `BindStepsAreBind`, `RegisterStepsAreRegister`, `GuardStepsAreGuard` and `UndisturbedRunEnds` tie the
  sequential code to runs of those systems.
* The cache of the binding flow is shared: runs hold writes and deletions of foreign keys (`ForeignSet`,
  `ForeignDelete`), and every database call may fail, take effect, or take effect and lose its answer.
* Time is an explicit clock in milliseconds. Remote answers, verdicts, random values and digests are
  inputs; encryption is symbolic.

| file | what it models |
|---|---|
| `Prelude`, `Query`, `CanonicalString` | splitting at colons; selecting the oldest rows; the string that webhooks sign |
| `Glob`, `MemoryCache`, `CacheRuns` | key patterns, the in-process cache, whole runs of it |
| `LockoutGate`, `BindingKeys`, `BindingData`, `RateLimiter` | one lockout ceiling, the cache keys, the triple ceiling on the cache |
| `CustomerService`, `BindingService`, `KeyLosses` | phones and customers; bind-init, bind, register and the guard, one call at a time; which entries a call can change |
| `BindingProvenance`, `BindingGuard`, `BindingRates` | theorems over whole serialised runs |
| `BindingAnswers` | what callers are told, against what was done and what the history says |
| `CacheRoom`, `BindingEvictions` | what eviction does to the ceilings |
| `LockoutOverlap`, `BindingOverlap`, `OverlapRuns` | the ceilings when binds overlap |
| `BindingRace`, `BindingSerial`, `TokenRace` | rows, cached bindings and stored results under interleaving |
| `CircuitBreaker`, `PortRegistry` | the breaker, port calls |
| `PortAnswers`, `PortTransparency`, `PortDedup`, `PortOverlap` | where answers come from, the invisible read cache, idempotency keys, port calls that overlap |
| `Outbox`, `Chat`, `Conversation`, `Migrate` | the event outbox, chat delivery, the merged view, the migration runner |

## Where the code departs from its documentation, or a law fails

The model follows the code. For a law that fails, a lemma gives an input and another states when it holds.

* `globToRegex` is documented to support `[...]` classes; it escapes brackets, so they are literal.
  `.` stops at line terminators: the translation agrees with the pattern's meaning exactly on keys
  without one (`TranslationAgreesExactlyOnSingleLineKeys`).
* An empty key at the head of the cache is never evicted (`SizeBoundKeptExactly`, `EmptyKeyOverflows`).
* "Allow single probe": HALF_OPEN admits any number of starts (`HalfOpenAdmitsEveryStart`,
  `TwoProbesAdmittedExactly`). "Reset metrics for new window": a window roll forgets no failure
  (`WindowRollForgetsNoFailure`).
* "Don't count this error": an error that the filter keeps out can still open the breaker, because the rate
  is not checked on successes (`FilteredErrorCanTrip`; `TripExactly` says when a failure opens it).
* `executeReplay`, mutations that throw after taking effect, and writes whose names `isMutationMethod`
  does not know (`acknowledge-alert`) leave stale reads in the cache (`ReplayServesStaleReads`,
  `ThrownWriteServesStaleReads`, `UnrecognisedWriteServesStaleReads`); without such steps the cache is
  invisible (`CacheIsTransparent`).
* A read that crosses a mutation writes its old answer after the invalidation (`CrossingServesStaleReads`).
  A cache write leaves a current entry if and only if the answer has not changed since the adapter call
  (`LateWriteIsCurrentExactly`); schedules in which no mutation of the port takes effect in between keep the
  cache invisible (`CleanOverlapIsTransparent`).
* The lockout ceilings live in a bounded cache. Whatever its size, eviction lifts every bound
  (`EvictionLiftsEveryBound`) and armed locks (`EvictionUnlocks`); a write keeps a ceiling's state if and only
  if it does not evict its running counter or lock (`ForeignWriteKeepsSimExactly`), and runs of such writes
  keep every bound. Stored counts stay below their limits even so (`StoredCountsBelowLimits`).
* "All enforced": binds that all check before any records lift every bound without any eviction
  (`OverlapLiftsEveryBound`). A bind finds its ceiling locked when it records if and only if another one
  armed it since its check (`LateRecordFindsLockExactly`); if none does, the serial bound holds
  (`TimelyRecordsKeepTheBound`), and with at most k binds under way it is 2L-3+k (`OverlapRateBound`), which is
  reached (`OverlapBoundIsTight`). Bumps that overlap are counted once (`OverlappingBumpsCountOnce`,
  `StaleBumpLosesExactly`), as the limiter's own comment concedes.
* A bind whose upsert took effect but lost its answer leaves the old cached binding beside the new row: the
  guard then serves an earlier grant of the same reference; without lost answers it serves the row
  (`GuardServesGrantedBinding`).
* "Single-use": overlapping binds of one session can share a stored resolve result
  (`OverlappingBindsShareAResult`); exactly the reads that find it used or held allow that
  (`SecondUsePossibleExactly`), and binds one after another never do (`SerialBindsAreSingleUse`).
* A registration whose row could not be written leaves the customer behind, and the phone can never be
  registered again (`ThrownRegistrationBlocksThePhone`).
* With `maxRetries` 0 an event is still published once (`ZeroRetriesStillPublishes`).
* The adopt path of the migration runner is not crash-safe (`AdoptPathIsNotCrashSafe`); wherever it
  does not fire, crashes do not matter (`CrashesDoNotMatter`).
* `normalizePhone` is not idempotent (`NormalizingTwiceLosesDigits`, `NormalizeIsIdempotentExactly`).

## Model

| member | source | states |
|---|---|---|
| `CanonicalString.ParseRecoversParts` | src/libs/shared/security/hmac-sign.util.ts:27-35 | a parser recovers timestamp, upper-cased method, path and body hash, colons in the path included |
| `CanonicalString.CanonicalStringIsUnambiguous` | src/libs/shared/security/hmac-sign.util.ts:27-35 | equal canonical strings come from equal parts |
| `CanonicalString.ColonInTimestampIsAmbiguous` | src/libs/shared/security/hmac-sign.util.ts:34 | the colon-free timestamp is needed: two requests that share one string |
| `CanonicalString.UpperIsAlphabetic` | src/libs/shared/security/hmac-sign.util.ts:27-35 | letter by letter, a small letter becomes its capital and nothing else changes |
| `Glob.EmittedRegexParses` | src/libs/shared/caching/memory-cache.service.ts:192-198 | the text after the three replacements is a regular expression with one term per pattern character |
| `Glob.GlobTranslationPreservesMeaning` | src/libs/shared/caching/memory-cache.service.ts:192-198 | every pattern compiles, and on keys without line terminators accepts exactly what the pattern denotes |
| `Glob.TranslationAgreesExactlyOnSingleLineKeys` | src/libs/shared/caching/memory-cache.service.ts:192-198 | a key is judged rightly by all patterns if and only if it has none of the four line terminators |
| `Glob.PrefixPattern` | src/libs/shared/caching/memory-cache.service.ts:192-198 | a literal prefix and a star denote exactly the strings with that prefix |
| `Glob.LiteralPrefixNeeded` | src/libs/shared/caching/memory-cache.service.ts:192-198 | a pattern that begins with a literal prefix accepts only strings with that prefix |
| `Glob.PatternAcceptsItsOwnExtensions` | src/libs/shared/caching/memory-cache.service.ts:192-198 | any text and a star, wildcards in the text included, accept that text with anything appended |
| `MemoryCache.MemoryCacheService.GetKey` | src/libs/shared/caching/memory-cache.service.ts:32-46 | the answer and the store after lazy expiry; the expiry instant is live |
| `MemoryCache.MemoryCacheService.SetKey` | src/libs/shared/caching/memory-cache.service.ts:48-60 | the store after evicting the oldest key of a full cache and writing |
| `MemoryCache.MemoryCacheService.SetKeyIfNotExist` | src/libs/shared/caching/memory-cache.service.ts:62-71 | wins and writes exactly if no unexpired entry is present; the expiry instant is free |
| `MemoryCache.DeletedKeyIsFree` | src/libs/shared/caching/memory-cache.service.ts:73-76 | a deleted key reads as absent and can be claimed at every time; every other key reads and is claimed as before |
| `MemoryCache.SetLivesExactly` | src/libs/shared/caching/memory-cache.service.ts:32-71 | a written value is read up to the end of its lifetime, that instant included, and can be claimed from that instant on; without a lifetime it is read for ever and never claimed |
| `MemoryCache.TtlExactly` | src/libs/shared/caching/memory-cache.service.ts:134-144 | whole seconds left, rounded up; -2 from the end on; -1 without lifetime or entry |
| `MemoryCache.CleanupIsExact` | src/libs/shared/caching/memory-cache.service.ts:179-186 | drops an entry if and only if its end has passed, changes no other, and no read notices |
| `MemoryCache.MemoryCacheService.DeleteKeysByPattern` | src/libs/shared/caching/memory-cache.service.ts:146-159 | the store and count that the specification of pattern deletion gives |
| `MemoryCache.MemoryCacheService.CleanupExpired` | src/libs/shared/caching/memory-cache.service.ts:179-186 | exactly the expired entries are dropped |
| `MemoryCache.FullKeyInjective` | src/libs/shared/caching/memory-cache.service.ts:175-177 | prefixing keys loses nothing |
| `MemoryCache.DeleteByPatternIsExact` | src/libs/shared/caching/memory-cache.service.ts:146-159 | removes exactly the stored keys the pattern denotes, keeps the others, returns their number |
| `MemoryCache.SizeBoundKeptExactly` | src/libs/shared/caching/memory-cache.service.ts:48-60 | a set keeps the size bound if and only if there is room, the key is present or the oldest key is not empty |
| `MemoryCache.EmptyKeyOverflows` | src/libs/shared/caching/memory-cache.service.ts:52-57 | an input that exceeds the bound |
| `CacheRuns.BoundedCacheRefinesTimedMap` | src/libs/shared/caching/memory-cache.service.ts:32-76 | after any timed run a get answers as an unbounded timed map that decides claims itself and is never cleaned; keys that eviction took read as absent |
| `CacheRuns.ClaimsRefineTimedMap` | src/libs/shared/caching/memory-cache.service.ts:62-71 | after any timed run a claim wins if and only if the timed map's own entry is absent, evicted or out of time |
| `CacheRuns.EvictionTakesTheOldest` | src/libs/shared/caching/memory-cache.service.ts:52-57 | after any run the victim was inserted before every other stored key |
| `CacheRuns.SizeNeverExceedsBound` | src/libs/shared/caching/memory-cache.service.ts:48-60 | over every run with non-empty keys the size stays within maxEntries |
| `CacheRuns.WinningClaimsAreSpaced` | src/libs/shared/caching/memory-cache.service.ts:62-71 | two winning claims of a key with TTL T are at least T apart unless it was overwritten, deleted or evicted between |
| `LockoutGate.WindowBound` | src/modules/binding/binding-rate-limiter.service.ts:88-170 | for any limit L, window and lock at least as long, a window-long interval without clearing holds at most 2L-2 admitted failures |
| `LockoutGate.WindowBoundIsTight` | src/modules/binding/binding-rate-limiter.service.ts:160-170 | for every such ceiling a run that reaches 2L-2 |
| `LockoutGate.CountBelowLimit` | src/modules/binding/binding-rate-limiter.service.ts:88-138 | between events a stored count is at least 1 and below its limit |
| `LockoutGate.LockNeverShortens` | src/modules/binding/binding-rate-limiter.service.ts:88-155 | no later failure or clearing moves the end of a lock earlier |
| `LockoutGate.ArmedLockPersists` | src/modules/binding/binding-rate-limiter.service.ts:69-155 | an armed lock holds for its whole duration whatever follows |
| `BindingKeys.KeyRoundTrip` | src/modules/binding/binding-rate-limiter.service.ts:177-194 | with colon-free user ids a parser recovers family, user and reference of every key |
| `BindingKeys.KeysAreInjective` | src/modules/binding/binding.service.ts:443-449 | the six limiter families, the init keys and the guard keys are injective, disjoint, and apart from every key that does not begin with bind: |
| `BindingKeys.ColonsCollide` | src/modules/binding/binding-rate-limiter.service.ts:177-182 | colons in user ids make keys collide, within a family and across two |
| `CustomerService.PhoneSpellingsAgree` | src/modules/account/clients/customer-service-mock.client.ts:353-360 | the 0, 84 and +84 spellings of a national number normalise to it |
| `CustomerService.SeparatorsDoNotMatter` | src/modules/account/clients/customer-service-mock.client.ts:353-360 | characters other than digits make no difference, wherever they stand |
| `CustomerService.NormalizeIsIdempotentExactly` | src/modules/account/clients/customer-service-mock.client.ts:353-360 | normalising twice changes nothing if and only if the phone's digits, past one leading 84, are not zeros followed by 84 |
| `CustomerService.NormalizingTwiceLosesDigits` | src/modules/account/clients/customer-service-mock.client.ts:353-360 | one number that loses two digits the second time |
| `CustomerService.MockCustomerService.CreateCustomer` | src/modules/account/clients/customer-service-mock.client.ts:235-291 | conflict exactly if the phone is taken, else a new customer with the next number |
| `CustomerService.NobodyIffCreatable` | src/modules/account/clients/customer-service-mock.client.ts:191-274 | resolve answers none exactly when create would succeed |
| `CustomerService.ResolveListsTheHolders` | src/modules/account/clients/customer-service-mock.client.ts:191-227 | the whole answer from the records: nobody, the one holder, two or three in order with the created one first, or the cap and no reference |
| `CustomerService.AllowedRefsComeFromMatches` | src/modules/binding/binding.service.ts:375-379 | only references of customers with the phone are allowed, and only when there are one to three |
| `CustomerService.AllowedExactly` | src/modules/binding/binding.service.ts:375-379 | a reference may be bound if and only if one of at most three customers with the phone has it |
| `CustomerService.NewRefsAreDistinct` | src/modules/account/clients/customer-service-mock.client.ts:253-256 | padded counters never give two customers one reference |
| `CustomerService.FirstCustomer` | src/modules/account/clients/customer-service-mock.client.ts:253-256 | the first created customer, spelled out |
| `RateLimiter.BindingRateLimiter.BumpKey` | src/modules/binding/binding-rate-limiter.service.ts:160-170 | count and cache after a windowed bump |
| `RateLimiter.BindingRateLimiter.RecordFailedAttempt` | src/modules/binding/binding-rate-limiter.service.ts:88-145 | cache after all three ceilings, and the strongest lock armed |
| `RateLimiter.BindingRateLimiter.CheckLock` | src/modules/binding/binding-rate-limiter.service.ts:70-85 | verdict, reason, seconds left, and the cache after its reads |
| `RateLimiter.BumpSim` | src/modules/binding/binding-rate-limiter.service.ts:160-170 | unless the write evicts the ceiling's own lock in force, the cached counter is the abstract one and its expiry outlives its window |
| `RateLimiter.RecordFailureRefinesGates` | src/modules/binding/binding-rate-limiter.service.ts:88-145 | on the shared string-keyed cache exactly the three covering abstract gates take one failure step; for every gate whose running counter and lock the writes do not evict |
| `RateLimiter.RecordFailureReportsStrongest` | src/modules/binding/binding-rate-limiter.service.ts:88-145 | the answer is session and 900 s if and only if the failure is the fifth of the user in a quarter hour, else customer and 86400 s for the tenth of the customer in an hour, else pair and 900 s for the third of the pair, else no lock |
| `RateLimiter.ForeignWriteKeepsSimExactly` | src/libs/shared/caching/memory-cache.service.ts:48-60 | a write of another key leaves a ceiling's cached state right if and only if it does not evict the ceiling's running counter or lock in force |
| `RateLimiter.ClearFailuresRefinesGates` | src/modules/binding/binding-rate-limiter.service.ts:147-155 | exactly the pair's and the user's gate are cleared, never a customer's |
| `RateLimiter.CheckLockedRefinesGates` | src/modules/binding/binding-rate-limiter.service.ts:70-85 | locked if and only if one of the three gates is, with session before pair before customer, and with the whole seconds, rounded up, that this lock has left |
| `BindingService.BindingServiceObject.DoBindInit` | src/modules/binding/binding.service.ts:83-122 | whole new system and answer of bind-init |
| `BindingService.BindingServiceObject.DoBind` | src/modules/binding/binding.service.ts:129-261 | whole new system and outcome of bind: every rejection, a verification or profile call that throws, an upsert that fails or loses its answer |
| `BindingService.BindingServiceObject.DoRegister` | src/modules/binding/binding.service.ts:272-370 | whole new system and answer of register, an upsert that fails or loses its answer included |
| `BindingService.BindingServiceObject.DoResolveBinding` | src/modules/binding/guards/binding-verified.guard.ts:132-166 | cached entry first, then the table, filling the cache |
| `BindingAnswers.BindAnswersWhatItDid` | src/modules/binding/binding.service.ts:129-261 | bound if and only if a success was appended, and then with the id that row and guard entry open to; not verified if and only if a failure was; threw if and only if a broken attempt was; refused if and only if nothing was; no other row changes |
| `BindingAnswers.RefusalsAreExact` | src/modules/binding/binding.service.ts:136-178 | expired, foreign and locked out, each if and only if: no live resolve result, one that does not name the reference, or a locked covering gate, then with its reason and seconds |
| `BindingAnswers.AnswerFollowsHistory` | src/modules/binding/binding.service.ts:129-261 | after any legal run that spares its ceilings, lock-out and the answer to a wrong secret follow from the history alone |
| `BindingAnswers.InitAnswerIsStored` | src/modules/binding/binding.service.ts:83-122 | the answer is what binds of the session read for the next five minutes, and nothing after them; no phone, no change |
| `BindingAnswers.RegisterAnswersWhatItDid` | src/modules/binding/binding.service.ts:272-370 | success if and only if a registration was appended, with the id of the new customer whom the phone now resolves to and whose row the user has; taken phones, missing phones and throws if and only if |
| `BindingAnswers.ThrownRegistrationBlocksThePhone` | src/modules/binding/binding.service.ts:303-339 | after a registration whose row could not be written every later one with that phone is told that the customer exists |
| `BindingAnswers.FirstRegistration` | src/modules/account/clients/customer-service-mock.client.ts:253-256 | on a fresh system the first registration is answered with customer number one |
| `BindingAnswers.GuardAnswers` | src/modules/binding/guards/binding-verified.guard.ts:132-166 | the live cached entry, else the row, which is then served from the cache for an hour and no longer |
| `KeyLosses.StepLoses` | src/modules/binding/binding.service.ts:83-370 | every call of the flow, and every foreign write or deletion, leaves an entry it does not concern as it was or loses it |
| `BindingProvenance.SuccessIsBackedByBindInit` | src/modules/binding/binding.service.ts:118-225 | over every run, evictions included: a successful bind is backed by an unconsumed resolve result of its session, at most 5 minutes old, listing its reference, neither none nor capped |
| `BindingProvenance.SuccessWasVerifiedUnlocked` | src/modules/binding/binding.service.ts:168-225 | every success in a history is the trace of a bind call that was verified after an unlocked check |
| `BindingProvenance.StepKeepsTokens` | src/modules/binding/binding.service.ts:120-225 | every call keeps cached resolve results equal to the ones still standing in the history |
| `BindingGuard.GuardServesGrantedBinding` | src/modules/binding/guards/binding-verified.guard.ts:95-166 | over every run: what the guard serves is of a reference the user has a row for and was granted, with the id it decrypts to, by a confirmed bind or registration of that user in the run; it is the row itself if no database answer about the user was lost; a user with a row is served |
| `BindingGuard.StepKeepsGuard` | src/modules/binding/binding.service.ts:212-253 | every call whose database answer is not lost keeps a cached binding equal to the user's row |
| `BindingRates.RunRefinesGates` | src/modules/binding/binding-rate-limiter.service.ts:69-170 | the cache of a whole run refines the gates its history prescribes, for every ceiling whose running counter and lock no write of the run evicts; TTL expiry drops no running counter |
| `BindingRates.AtMost18FailuresPerCustomerHour` | src/modules/binding/binding-rate-limiter.service.ts:56-58 | in every run that does not evict that customer's running counter or lock, any hour holds at most 18 failed verifications of the customer over all users |
| `BindingRates.AtMost8FailuresPerUserQuarterHour` | src/modules/binding/binding-rate-limiter.service.ts:60-62 | likewise any 15 minutes without a successful bind of the user hold at most 8 of that user's failures |
| `BindingRates.AtMost4FailuresPerPairQuarterHour` | src/modules/binding/binding-rate-limiter.service.ts:53-54 | and at most 4 on one customer |
| `BindingEvictions.EvictionLiftsEveryBound` | src/libs/shared/port/port.module.ts:63-66 | whatever the size of the cache there is, for every n, a legal run from a fresh system with n failed verifications of one customer by one user in one millisecond, counted by all three ceilings |
| `BindingEvictions.EvictionUnlocks` | src/libs/shared/caching/memory-cache.service.ts:52-57 | with seven entries or more: a legal run from a fresh system arms a lock that every check of the next quarter hour reports, and as many bind-inits as the cache has entries make the same checks unlocked |
| `LockoutOverlap.OverlapBound` | src/modules/binding/binding-rate-limiter.service.ts:69-170 | with at most k attempts between check and record at any time, a window-long interval without clearing holds at most 2L-3+k failures |
| `LockoutOverlap.OverlapBoundIsTight` | src/modules/binding/binding-rate-limiter.service.ts:69-170 | for every such ceiling and every k from 1 on a schedule that reaches 2L-3+k |
| `BindingOverlap.AskThenAnswerIsBind` | src/modules/binding/binding.service.ts:129-261 | check and settling with nothing between are the bind call |
| `BindingOverlap.StepKeepsFollows` | src/modules/binding/binding.service.ts:136-261 | every step of overlapping binds keeps the cached ceilings equal to the gates the history prescribes, for every ceiling the step spares |
| `BindingOverlap.OverlapRateBound` | src/modules/binding/binding-rate-limiter.service.ts:69-170 | on the shared cache: with at most k covered binds under way, any window without a clearing success holds at most 2L-3+k failed verifications |
| `BindingOverlap.LateRecordFindsLockExactly` | src/modules/binding/binding.service.ts:172-188 | a bind under way finds a lock of its ceiling in the cache if and only if another bind armed it since its check, and it is still in force |
| `BindingOverlap.TimelyRecordsKeepTheBound` | src/modules/binding/binding.service.ts:172-188 | if every failure is recorded while its ceiling is unlocked, 2L-2 holds however many binds overlap |
| `OverlapRuns.OverlapLiftsEveryBound` | src/modules/binding/binding.service.ts:172-188 | for every n a schedule without evictions with n failed verifications of one customer by one user in one millisecond |
| `OverlapRuns.SerialRunsAreSchedules` | src/modules/binding/binding.service.ts:129-261 | runs of one call at a time are schedules with at most one bind under way |
| `OverlapRuns.OverlappingBumpsCountOnce` | src/modules/binding/binding-rate-limiter.service.ts:160-170 | n bumps that all read before any writes raise the count by one |
| `OverlapRuns.StaleBumpLosesExactly` | src/modules/binding/binding-rate-limiter.service.ts:160-170 | a late write leaves what an unbroken bump would if and only if the running count is still the one it read |
| `BindingRates.ArmedLockIsReported` | src/modules/binding/binding-rate-limiter.service.ts:69-155 | once a failure has armed a ceiling, every lock check it covers, at any later point of the run within the full duration, reports a lock |
| `BindingRates.NoVerifyUnderArmedLock` | src/modules/binding/binding-rate-limiter.service.ts:69-155 | hence no verification it covers is attempted for the full duration, those that throw included, successes of others notwithstanding |
| `BindingRates.StoredCountsBelowLimits` | src/modules/binding/binding-rate-limiter.service.ts:88-138 | between calls of every legal run, whatever was evicted, every cached counter lies between 1 and its limit minus 1 |
| `BindingRace.GuardAgreesWithTable` | src/modules/binding/guards/binding-verified.guard.ts:76-166 | if seed references do not begin with REF-NEW-, in every interleaving at the await points a cached binding is the user's verified row for that reference with the same id, and every id attached was verified or created by that user |
| `BindingRace.AtMostOneRegistrationPerPhone` | src/modules/binding/binding.service.ts:272-370 | however registrations interleave, at most one per phone writes a binding, none if the phone had a customer |
| `BindingRace.RegisteredPhoneStaysResolvable` | src/modules/account/clients/customer-service-mock.client.ts:191-274 | a registered phone never resolves to none again |
| `BindingRace.FreshRefUnproven` | src/modules/account/clients/customer-service-mock.client.ts:253-274 | a new customer's reference was never proven before, by anybody |
| `BindingRace.StepKeepsGuardInv` | src/modules/binding/binding.service.ts:212-253 | each step at an await point keeps rows, cached bindings, waiting requests and attachments in agreement |
| `BindingRace.StepKeepsRegistrations` | src/modules/binding/binding.service.ts:304-339 | each step keeps one claimant per created phone |
| `BindingSerial.BindStepsAreBind` | src/modules/binding/binding.service.ts:180-253 | undisturbed, the steps of a confirmed bind leave the row and cached entry that bind leaves |
| `BindingSerial.RegisterStepsAreRegister` | src/modules/binding/binding.service.ts:286-361 | undisturbed, the steps of a registration with a free phone leave what bindRegister leaves |
| `BindingSerial.GuardStepsAreGuard` | src/modules/binding/guards/binding-verified.guard.ts:76-166 | undisturbed, the steps of a guard read attach the id of the entry that the guard serves |
| `TokenRace.OverlappingBindsShareAResult` | src/modules/binding/binding.service.ts:118-120 | the single-use promise fails: two overlapping binds of a session write two bindings on one stored result |
| `TokenRace.SecondUsePossibleExactly` | src/modules/binding/binding.service.ts:136-225 | a read of a stored result can lead to its second use if and only if it was used before or another bind under way holds it |
| `TokenRace.FreeReadsAreSingleUse` | src/modules/binding/binding.service.ts:136-225 | schedules whose reads find their result free use no result twice |
| `TokenRace.SerialBindsAreSingleUse` | src/modules/binding/binding.service.ts:129-261 | binds one after another use every stored result at most once |
| `CircuitBreaker.CircuitBreakerState.OnSuccess` | src/libs/shared/resilience/circuit-breaker.state.ts:32-43 | all fields after a success, window roll included |
| `CircuitBreaker.CircuitBreakerState.OnFailure` | src/libs/shared/resilience/circuit-breaker.state.ts:48-66 | all fields after a counted or filtered failure |
| `CircuitBreaker.LateCompletionsOnlyLengthen` | src/libs/shared/resilience/circuit-breaker.state.ts:32-66 | completions while OPEN keep it open and never move the opening time back |
| `CircuitBreaker.OpenLeftOnlyThroughHalfOpen` | src/libs/shared/port/port-registry.service.ts:274-296 | OPEN is left only by an admitted start, to HALF_OPEN, after resetTimeout |
| `CircuitBreaker.NoCallUntilResetTimeout` | src/libs/shared/port/port-registry.service.ts:274-332 | in every interleaving of starts and completions no start reaches the adapter within resetTimeout of a trip |
| `CircuitBreaker.CountersCountOutcomes` | src/libs/shared/resilience/circuit-breaker.state.ts:183-214 | over every run the counters equal the outcomes since the last reset, requests lies between successes and their sum, HALF_OPEN has zeros |
| `CircuitBreaker.TripNeedsOutcomes` | src/libs/shared/resilience/circuit-breaker.state.ts:85-98 | CLOSED opens only on a failure, with at least minRequests outcomes and a counted failure since the last reset |
| `CircuitBreaker.TripExactly` | src/libs/shared/resilience/circuit-breaker.state.ts:48-98 | a failure in CLOSED opens the breaker if and only if the requests left by the history reach the minimum and 100 times the counted failures reach the threshold times the requests |
| `CircuitBreaker.FilteredErrorCanTrip` | src/libs/shared/resilience/circuit-breaker.state.ts:48-52 | an error that is not counted opens a breaker |
| `CircuitBreaker.ProbeSuccessCloses` | src/libs/shared/resilience/circuit-breaker.state.ts:32-43 | in every reachable HALF_OPEN a success closes with zero counters, and fewer outcomes than the minimum leave it closed |
| `CircuitBreaker.HalfOpenNeverTripsByRate` | src/libs/shared/resilience/circuit-breaker.state.ts:85-98 | shouldOpen is never true in HALF_OPEN |
| `CircuitBreaker.HalfOpenAdmitsEveryStart` | src/libs/shared/port/port-registry.service.ts:277-284 | in every HALF_OPEN state any number of starts is admitted and none changes the state |
| `CircuitBreaker.TwoProbesAdmittedExactly` | src/libs/shared/port/port-registry.service.ts:274-296 | two starts in a row are both admitted if and only if the breaker is not open within its reset timeout |
| `CircuitBreaker.HalfOpenIsReachable` | src/libs/shared/port/port-registry.service.ts:277-284 | a run that reaches HALF_OPEN |
| `CircuitBreaker.WindowRollForgetsNoFailure` | src/libs/shared/resilience/circuit-breaker.state.ts:204-214 | a window roll keeps the failures and never raises the requests |
| `PortRegistry.Registry.ExecutePort` | src/libs/shared/port/port-registry.service.ts:192-389 | world, cache, breaker objects, last answers, queue and answer after a call: adapter chosen, duplicate key, cache hit, rejection, failure, or success with invalidation, cache write and key store; degraded answers by queue policy |
| `PortAnswers.AdapterIsTheConfiguredOne` | src/libs/shared/port/port-registry.service.ts:207-225 | the adapter's answer and the new downstream state are the mock's in mock mode or if the endpoint asks for it, the live adapter's otherwise |
| `PortAnswers.AnswerComesFrom` | src/libs/shared/port/port-registry.service.ts:227-330 | remembered key before cached read before adapter, each if and only if, under the keys as spelled and by the breaker's own fields; every other call is degraded |
| `PortAnswers.DegradedAnswers` | src/libs/shared/port/port-registry.service.ts:490-533 | queued, last answer or unavailable, each if and only if, and the queue gets the call exactly if a queue and a policy other than never are there |
| `PortAnswers.ThrownEffectStays` | src/libs/shared/port/port-registry.service.ts:310-332 | a call that throws after taking effect leaves the configured adapter's new state |
| `PortAnswers.ReplayGoesLive` | src/libs/shared/port/port-registry.service.ts:569-591 | a replayed call goes to the live adapter, becomes the last answer, and touches neither cache, breakers nor queue |
| `PortAnswers.KeyLastsADay` | src/libs/shared/port/port-registry.service.ts:227-244 | an answer under an idempotency key can be had again for a day, to the millisecond |
| `PortAnswers.QueueHoldsDegradedCalls` | src/libs/shared/port/port-registry.service.ts:490-533 | after any run the queue is exactly the degraded calls of ports with a queue policy, in order |
| `PortAnswers.BreakerFollowsItsCalls` | src/libs/shared/port/port-registry.service.ts:272-320 | after any run a port's breaker is the breaker after the starts and completions of its calls |
| `PortAnswers.NoAdapterCallAfterTrip` | src/libs/shared/port/port-registry.service.ts:272-320 | after a call opens the breaker no call before the reset timeout is answered by the adapter or touches the downstream, whatever comes between |
| `PortAnswers.VerbsAreWrites` | src/libs/shared/port/port-registry.service.ts:600-604 | the writes are exactly the names that begin with one of the thirty verbs |
| `PortAnswers.ReadsAreNoWrites` | src/libs/shared/port/port-registry.service.ts:592-604 | names that begin with get, find, search, list or call are no writes |
| `PortRegistry.PatternCoversOwnKeys` | src/libs/shared/port/port-registry.service.ts:344-349 | a mutation's pattern matches every cache key of its port |
| `PortRegistry.InvalidationStaysInPort` | src/libs/shared/port/port-registry.service.ts:344-349 | for colon-free literal names the pattern matches a key if and only if the port is the same |
| `PortRegistry.KeysTellCallsApart` | src/libs/shared/port/port-registry.service.ts:613-621 | equal cache keys come from the same port and hash |
| `PortTransparency.CacheIsTransparent` | src/libs/shared/port/port-registry.service.ts:251-369 | if hashes do not collide and cached reads change only through recognised mutations that succeed, then after any run of non-overlapping calls, whatever expired, was evicted, rejected, deduplicated or failed, an answer from cache or adapter is what the configured adapter, live or mock, would answer directly then |
| `PortTransparency.RunStaysCurrent` | src/libs/shared/port/port-registry.service.ts:251-369 | under the same assumptions each cached read is the downstream's present answer at every point of a run |
| `PortTransparency.ReplayServesStaleReads` | src/libs/shared/port/port-registry.service.ts:569-591 | a replayed call that changes a cached read's answer makes the next read stale |
| `PortTransparency.ThrownWriteServesStaleReads` | src/libs/shared/port/port-registry.service.ts:310-332 | a recognised mutation that throws after changing a cached read's answer makes the next read stale |
| `PortTransparency.UnrecognisedWriteServesStaleReads` | src/libs/shared/port/port-registry.service.ts:600-604 | a write with an unrecognised name that changes a cached read's answer makes the next read stale |
| `PortTransparency.AcknowledgeAlertIsUnrecognised` | src/modules/notification/notification.service.ts:82-86 | one such name is in use |
| `PortTransparency.DegradedAnswerWasGiven` | src/libs/shared/port/port-registry.service.ts:440-533 | a degraded answer is one that the port's adapter gave to an earlier call of the run |
| `PortTransparency.FallbackAnswersAnotherMethod` | src/libs/shared/port/port-registry.service.ts:157-164 | it may be the answer to another method |
| `PortDedup.KeyedAnswerIsRemembered` | src/libs/shared/port/port-registry.service.ts:227-244 | after a keyed call reached the adapter and any run of calls and replays within the day that never evicts the key, the same key gets the same data, whatever call it comes with, and nothing changes |
| `PortDedup.PatternSparesDedupKeys` | src/libs/shared/port/port-registry.service.ts:344-349 | no invalidation pattern matches an idempotency key |
| `PortOverlap.ThreeStepsAreExecute` | src/libs/shared/port/port-registry.service.ts:251-369 | look-up with gate, effect and processing with nothing between leave what execute leaves |
| `PortOverlap.CleanOverlapIsTransparent` | src/libs/shared/port/port-registry.service.ts:251-369 | in every interleaving in which no mutation of a port takes effect between a read's adapter call and its cache write, an answer from the cache is what the configured adapter would answer directly then, unless a mutation of the port is between its effect and its invalidation |
| `PortOverlap.LateWriteIsCurrentExactly` | src/libs/shared/port/port-registry.service.ts:362-369 | a read's cache write leaves a current entry if and only if the answer is still the one its adapter gave |
| `PortOverlap.CrossingServesStaleReads` | src/libs/shared/port/port-registry.service.ts:339-369 | for every mutation that changes the answer of a read a schedule that ends with nothing under way and serves the old answer |
| `Outbox.OutboxRepository.GetPending` | src/libs/shared/database/outbox/outbox.repository.ts:83-92 | pending rows only, once each, oldest first, none older left out, all of them if below the limit |
| `Outbox.AcquiredOnlyOnce` | src/libs/shared/database/outbox/outbox.repository.ts:100-108 | an acquired row is acquired by nobody else, and other rows' acquisition is unaffected |
| `Outbox.FailureCycle` | src/libs/shared/database/outbox/outbox.repository.ts:131-167 | after a failed attempt and the reset a row can be acquired again if and only if retries remain; otherwise no reset moves it |
| `Outbox.ResetMovesOnlyRetryable` | src/libs/shared/database/outbox/outbox.repository.ts:150-167 | the reset keeps all rows, changes exactly the failed ones below the limit, and is idempotent |
| `Outbox.CleanupComposes` | src/libs/shared/database/outbox/outbox.repository.ts:174-190 | deletions by two dates equal one by the later; a row processed at t goes exactly for dates from t on; unfinished rows stay |
| `Outbox.CleanupTakesOldProcessed` | src/libs/shared/database/outbox/outbox.repository.ts:174-190 | a row goes if and only if it was processed by the date, and stays as it is otherwise |
| `Outbox.OutboxProcessor.HandleEntry` | src/libs/shared/database/outbox/outbox-processor.service.ts:189-224 | the table after acquire, publish and record, each database call succeeding, failing or losing its answer, and whether an exception ends the batch |
| `Outbox.OutboxProcessor.ProcessOutbox` | src/libs/shared/database/outbox/outbox-processor.service.ts:149-184 | nothing while already processing; else the table after one oldest-first batch, cut short by an exception, reset only after a non-empty one that was not |
| `Outbox.BatchOutcome` | src/libs/shared/database/outbox/outbox-processor.service.ts:149-224 | row by row what a batch does when no database call fails: processed, back for retry, out of retries, or untouched |
| `Outbox.BatchIsARun` | src/libs/shared/database/outbox/outbox-processor.service.ts:149-184 | the sequential batch, failing database calls included, is one run of the interleaved system |
| `Outbox.NoDoubleHolding` | src/libs/shared/database/outbox/outbox-processor.service.ts:189-224 | with any number of crashing processors no entry is held by two |
| `Outbox.AcquisitionsMatchRetryCount` | src/libs/shared/database/outbox/outbox.repository.ts:100-142 | acquisitions equal retryCount, plus one if PROCESSING or PROCESSED |
| `Outbox.PublicationsBounded` | src/libs/shared/database/outbox/outbox-processor.service.ts:149-224 | each event is offered to the bus at most maxRetries times, once if that is zero |
| `Outbox.NothingLeavesUnpublished` | src/libs/shared/database/outbox/outbox.repository.ts:174-190 | an added event that is no longer in the table was taken by the bus |
| `Outbox.ProcessedWasDelivered` | src/libs/shared/database/outbox/outbox-processor.service.ts:208-211 | a processed row was taken by the bus |
| `Outbox.ZeroRetriesStillPublishes` | src/libs/shared/database/outbox/outbox-processor.service.ts:159-175 | a run with maxRetries 0 that publishes |
| `Outbox.AbandonedRowStays` | src/libs/shared/database/outbox/outbox-processor.service.ts:163-175 | no step moves a PROCESSING row that nobody holds |
| `Outbox.BusyProcessorIgnoresPolls` | src/libs/shared/database/outbox/outbox-processor.service.ts:149-152 | a processor with a batch under way takes no other |
| `Outbox.CleanIsCleanup` | src/libs/shared/database/outbox/outbox.repository.ts:174-190 | in every state the cleanup step takes a processed row exactly for dates from its processing on and disturbs no processor |
| `Chat.NothingLostNothingDoubled` | src/modules/support/chat-outbox.forwarder.ts:113-151 | in every interleaving of flushes, lost acknowledgements, rejections and deaths the receiver has each message at most once with its own text, and each row is eligible or there |
| `Chat.RunKeepsInv` | src/modules/support/chat-outbox.forwarder.ts:113-151 | a row marked forwarded is at the receiver; rows keep their text and the receiver only grows |
| `Chat.ChatOutboxForwarder.FlushOnce` | src/modules/support/chat-outbox.forwarder.ts:113-151 | nothing if the wire is down; else rows, receiver and count after pushing the oldest 50 unforwarded rows, with every outcome of push and row update |
| `Chat.FlushIsARun` | src/modules/support/chat-outbox.forwarder.ts:126-150 | the sequential flush, failing updates included, is one run of the interleaved system |
| `Chat.FlushOnceIsARun` | src/modules/support/chat-outbox.forwarder.ts:113-151 | flushOnce from selection to end is one run that leaves no flush behind |
| `Chat.FlushOutcome` | src/modules/support/chat-outbox.forwarder.ts:126-150 | row by row: marked if and only if acknowledged and updated; at the receiver if and only if it was before or was taken |
| `Chat.ForwardedIsCounted` | src/modules/support/chat-outbox.forwarder.ts:126-150 | the reported number is that of the messages acknowledged and marked without an error |
| `Chat.SelectionStarts` | src/modules/support/chat-outbox.forwarder.ts:115-124 | what a flush selects is a batch the interleaved system can start with |
| `Query.SelectOldest` | src/modules/support/chat-outbox.forwarder.ts:115-124 | eligible rows once each, oldest first, none older left out, all of them if below the limit |
| `Conversation.ConversationIsSortedPermutation` | src/modules/support/support.service.ts:84-114 | sorted by createdAt, and message by message the server thread and once each selected row that the server does not echo, with its text and time |
| `Conversation.TiesKeepTheirOrder` | src/modules/support/support.service.ts:109-112 | at one instant server messages come first, in server order, then local rows |
| `Conversation.ShownExactlyOnce` | src/modules/support/support.service.ts:90-112 | each of the user's rows is shown exactly once |
| `Conversation.SentMessageIsShownOnce` | src/modules/support/support.service.ts:67-114 | from the moment it is stored a message is shown exactly once, at every stage of forwarding, and with the text and time it was sent with while the server does not echo it |
| `Migrate.MigrationRunner.ApplyEntry` | scripts/migrate.js:100-145 | skip, commit, reconcile or fail; a failed entry changes nothing |
| `Migrate.MigrationRunner.MigrateAll` | scripts/migrate.js:75-145 | the uninterrupted run's database, or that of the entries before the failing one |
| `Migrate.CrashesDoNotMatter` | scripts/migrate.js:75-145 | unless the adopt path fires at first, every placement of crashes ends with the uninterrupted run's database and it never fires |
| `Migrate.CrashesOnlyDelay` | scripts/migrate.js:75-145 | if the uninterrupted run succeeds, then after any run with any crashes the next start left alone finishes with the same database |
| `Migrate.UndisturbedRunEnds` | scripts/migrate.js:75-145 | left alone the small steps end, finished or aborted as the runner does |
| `Migrate.RerunChangesNothing` | scripts/migrate.js:105-112 | after a finished run further runs, crashing or not, change nothing |
| `Migrate.StepStaysOnCourse` | scripts/migrate.js:100-145 | each small step leaves the database of some prefix of the uninterrupted run |
| `Migrate.AdoptPathIsNotCrashSafe` | scripts/migrate.js:81-94 | on every database where the adopt path fires some journal and one crash make later SQL run on it |

## Left out

- BindingRates.RunRefinesGates: one call at a time, with one clock reading per limiter call and two per bind; binds that overlap are in BindingOverlap.
- BindingOverlap.OverlapRateBound: settling is one step and runs that evict the ceiling's entries are excluded, because bumps that overlap lose counts (`OverlappingBumpsCountOnce`) and eviction lifts the bound.
- PortDedup.KeyedAnswerIsRemembered: for a cache prefix without wildcards and keys without line terminators, since patterns are matched against the full key; eviction of the key is excluded, because it forgets the answer.
- PortOverlap.ThreeStepsAreExecute: the state; the answers of overlapping calls are those of the cache look-up.
- PortTransparency.CacheIsTransparent: runs hold port calls and replays; writes of other flows to the same cache can only lose entries.
- BindingRates.ArmedLockIsReported: like the rate bounds, for runs that do not evict the ceiling's running counter or lock, because eviction falsifies it.
- PortRegistry.Registry.ExecutePort: one clock reading per call; entering the queue does not fail; the breaker objects are given at construction, `register` and its default configuration are absent.
- Outbox.OutboxRepository.GetPending: rows created at the same instant come in any order; `add` of an existing id is a no-op instead of an exception, `addMany` and the caller's transaction are absent.
- The transition system of the outbox lets a poll return any ids, which includes what `getPending` returns.
- Redis caches and sessions, HTTP, queues and SQL: tables are maps, the cache is the in-process one.
- Audit rows, logging, device details, profile fields and masked hints: they do not influence the protocols.
- The guard's 401, 403 and 500 responses, and routes that skip it.
- Hydration of the mock customer store from its table: the store is taken as hydrated.
- SHA-256, AES and the short hash: parameters, or sealed values that open to their plaintext.
- Strings are sequences of characters: no UTF-16 units, upper-casing of ASCII only, and `localeCompare` on ISO timestamps is taken as order of time.
- Failure rates are exact rationals; floating-point rounding is not modelled.
- The breaker's manual `reset`, its metrics and the time of the last failure.
- `incr`, `decr`, `mget`, `mset`, `exists` and `clear` of the cache: loops over, or variants of, the operations modelled.
- The reachability probe of the chat forwarder and its announcements.
- Liveness: stuck PROCESSING rows and rejected chat rows are never promised to move.
- Other ports and their mock adapters, controllers, schemas, health checks and tracing.
