/**
  Why the rate bounds and the locks speak of runs that spare the limiter's keys: the limiter lives in a
  bounded cache, and whoever fills that cache lifts every ceiling, whatever the size of the cache.
 */
module BindingEvictions {
  import opened Prelude
  import opened MemoryCache
  import opened LockoutGate
  import opened BindingKeys
  import opened BindingData
  import opened RateLimiter
  import opened BindingService
  import opened BindingRates
  import opened CacheRoom
  import CS = CustomerService

  // ---- Insertion order of a full cache ----

  ghost predicate Tidy(cfg: Config, s: Cache)
  {
    WellFormed(s) && |s.keys| <= cfg.maxEntries && "" !in s.keys
  }

  /** The last m elements. */
  function Last(m: nat, q: seq<string>): seq<string>
  {
    if |q| <= m then q else q[|q| - m..]
  }

  lemma LastOfLast(m: nat, a: seq<string>, b: seq<string>)
    ensures Last(m, Last(m, a) + b) == Last(m, a + b)
  {
    if |a| > m {
      var x, y := Last(m, a) + b, a + b;
      assert y[|a| - m..] == x;
      assert y[|y| - m..] == x[|x| - m..];
    }
  }

  lemma {:induction false} WithoutAbsent(keys: seq<string>, k: string)
    requires k !in keys
    ensures Without(keys, k) == keys
  {
    if keys != [] {
      WithoutAbsent(keys[1..], k);
    }
  }

  /** A write of a new key takes the front key of a full cache and appends its own. */
  lemma NewKeyAppends(cfg: Config, s: Cache, key: string, v: Value, ttl: nat, now: nat)
    requires cfg.maxEntries > 0 && Tidy(cfg, s) && FullKey(cfg, key) != "" && FullKey(cfg, key) !in s.keys
    ensures var s' := Set(cfg, s, key, v, ttl, now);
            Tidy(cfg, s') && s'.keys == Last(cfg.maxEntries, s.keys + [FullKey(cfg, key)])
  {
    var k := FullKey(cfg, key);
    if Full(cfg, s, k) {
      assert s.keys[0] !in s.keys[1..];
      WithoutAbsent(s.keys[1..], s.keys[0]);
      assert Without(s.keys, s.keys[0]) == s.keys[1..];
      assert (s.keys + [k])[1..] == s.keys[1..] + [k];
    }
  }

  lemma WriteStaysTidy(cfg: Config, s: Cache, k: Key, v: Value, ttl: nat, now: nat)
    requires cfg.maxEntries > 0 && Tidy(cfg, s) && !k.ForeignKey?
    ensures Tidy(cfg, Set(cfg, s, Encode(k), v, ttl, now))
  {
    assert Encode(k)[0] == 'b';
    SizeBoundKeptExactly(cfg, s, Encode(k), v, ttl, now);
  }

  lemma TripStaysTidy(cfg: Config, s: Cache, id: GateId, now: nat)
    requires cfg.maxEntries > 0 && Tidy(cfg, s)
    ensures Tidy(cfg, Trip(cfg, s, id, now).0)
  {
    var c := CeilingOf(id);
    var (s1, entry) := Get(cfg, s, Encode(FailKey(id)), now);
    WriteStaysTidy(cfg, s1, FailKey(id), NextCounter(entry, c.windowSec, now), c.windowSec, now);
    WriteStaysTidy(cfg, Bump(cfg, s, Encode(FailKey(id)), c.windowSec, now).0, LockKey(id), Flag, c.lockSec, now);
  }

  lemma RecordFailureStaysTidy(cfg: Config, s: Cache, user: string, ref: string, now: nat)
    requires cfg.maxEntries > 0 && Tidy(cfg, s)
    ensures Tidy(cfg, RecordFailure(cfg, s, user, ref, now).0)
  {
    var s1 := Trip(cfg, s, PairGate(user, ref), now).0;
    var s2 := Trip(cfg, s1, CustomerGate(ref), now).0;
    TripStaysTidy(cfg, s, PairGate(user, ref), now);
    TripStaysTidy(cfg, s1, CustomerGate(ref), now);
    TripStaysTidy(cfg, s2, TotalGate(user), now);
  }

  // ---- Filling the cache with bind-inits under fresh sessions ----

  function Filler(n: nat): (s: string)
    ensures |s| == n
  {
    seq(n, _ => 'x')
  }

  function FillerKey(cfg: Config, n: nat): string
  {
    FullKey(cfg, Encode(InitKey(Filler(n))))
  }

  /** The keys of `n` fillers, of lengths from `base` on. */
  function FillerKeys(cfg: Config, base: nat, n: nat): (keys: seq<string>)
    ensures |keys| == n
    decreases n
  {
    if n == 0 then [] else [FillerKey(cfg, base)] + FillerKeys(cfg, base + 1, n - 1)
  }

  lemma {:induction false} FillersAreInits(cfg: Config, base: nat, n: nat, k: Key)
    requires ColonFree(k) && !k.InitKey?
    ensures FullKey(cfg, Encode(k)) !in FillerKeys(cfg, base, n)
    decreases n
  {
    if n > 0 {
      DistinctKeys(cfg, k, InitKey(Filler(base)));
      FillersAreInits(cfg, base + 1, n - 1, k);
    }
  }

  function Fill(user: string, phone: string, base: nat, n: nat, t: nat): seq<Call>
    decreases n
  {
    if n == 0 then [] else [InitCall(user, Filler(base), Some(phone), t)] + Fill(user, phone, base + 1, n - 1, t)
  }

  /** Every stored key is shorter than the fillers' keys from `base` on. */
  ghost predicate Shorter(cfg: Config, s: Cache, base: nat)
  {
    forall k :: k in s.keys ==> |k| < |FillerKey(cfg, base)|
  }

  lemma {:induction false} SomeBase(keys: seq<string>) returns (base: nat)
    ensures forall k :: k in keys ==> |k| < base
  {
    base := 0;
    if keys != [] {
      var rest := SomeBase(keys[1..]);
      base := rest + |keys[0]| + 1;
    }
  }

  /** Nothing but the cache and the resolve events changes. */
  ghost predicate OnlyInits(sys: System, sys': System)
  {
    && sys'.customers == sys.customers && sys'.table == sys.table && |sys.hist| <= |sys'.hist|
    && sys'.hist[..|sys.hist|] == sys.hist
    && forall i :: |sys.hist| <= i < |sys'.hist| ==> sys'.hist[i].Inited?
  }

  lemma FillStep(cfg: Config, sys: System, user: string, phone: string, base: nat, t: nat)
    requires cfg.maxEntries > 0 && phone != "" && Tidy(cfg, sys.cache) && Shorter(cfg, sys.cache, base)
    ensures var sys' := Step(cfg, sys, InitCall(user, Filler(base), Some(phone), t));
            && Tidy(cfg, sys'.cache) && Shorter(cfg, sys'.cache, base + 1)
            && Filled(cfg, sys, sys', [FillerKey(cfg, base)])
  {
    assert FillerKey(cfg, base) !in sys.cache.keys;
    NewKeyAppends(cfg, sys.cache, Encode(InitKey(Filler(base))), Init(CS.Resolve(sys.customers, phone)), INIT_TTL_SEC,
                  t);
  }

  lemma InitsCompose(a: System, b: System, c: System)
    requires OnlyInits(a, b) && OnlyInits(b, c)
    ensures OnlyInits(a, c)
  {
    assert forall i :: 0 <= i < |b.hist| ==> c.hist[i] == c.hist[..|b.hist|][i];
  }

  lemma KeysAppend(m: nat, keys: seq<string>, k: string, rest: seq<string>, keys': seq<string>)
    requires keys' == Last(m, keys + [k])
    ensures Last(m, keys' + rest) == Last(m, keys + ([k] + rest))
  {
    LastOfLast(m, keys + [k], rest);
    assert keys + [k] + rest == keys + ([k] + rest);
  }

  /** What filling has done: `added` were appended, the oldest beyond the capacity taken. */
  ghost predicate Filled(cfg: Config, sys: System, sys': System, added: seq<string>)
  {
    && Tidy(cfg, sys'.cache) && OnlyInits(sys, sys')
    && sys'.cache.keys == Last(cfg.maxEntries, sys.cache.keys + added)
  }

  lemma NothingFilled(cfg: Config, sys: System)
    requires Tidy(cfg, sys.cache)
    ensures Filled(cfg, sys, sys, [])
  {
    assert sys.cache.keys + [] == sys.cache.keys;
  }

  lemma FilledCompose(cfg: Config, sys: System, next: System, sys': System, k: string, rest: seq<string>)
    requires Filled(cfg, sys, next, [k]) && Filled(cfg, next, sys', rest)
    ensures Filled(cfg, sys, sys', [k] + rest)
  {
    KeysAppend(cfg.maxEntries, sys.cache.keys, k, rest, next.cache.keys);
    InitsCompose(sys, next, sys');
  }

  lemma {:induction false} FillRun(cfg: Config, sys: System, user: string, phone: string, base: nat, n: nat, t: nat)
    requires cfg.maxEntries > 0 && phone != "" && Tidy(cfg, sys.cache) && Shorter(cfg, sys.cache, base)
    ensures Filled(cfg, sys, Exec(cfg, sys, Fill(user, phone, base, n, t)), FillerKeys(cfg, base, n))
    decreases n
  {
    hide Step, Filled, FillerKey;
    if n == 0 {
      NothingFilled(cfg, sys);
    } else {
      var calls := Fill(user, phone, base, n, t);
      var next := Step(cfg, sys, calls[0]);
      FillStep(cfg, sys, user, phone, base, t);
      FillRun(cfg, next, user, phone, base + 1, n - 1, t);
      assert calls[1..] == Fill(user, phone, base + 1, n - 1, t);
      FilledCompose(cfg, sys, next, Exec(cfg, sys, calls), FillerKey(cfg, base), FillerKeys(cfg, base + 1, n - 1));
    }
  }

  /** No counter and no lock is stored. */
  ghost predicate LimiterGone(cfg: Config, s: Cache)
  {
    forall k: Key :: ColonFree(k) && (k.FailKey? || k.LockKey?) ==> EntryOf(cfg, s, k).None?
  }

  lemma OnlyFillers(cfg: Config, s: Cache, base: nat, n: nat)
    requires WellFormed(s) && s.keys == FillerKeys(cfg, base, n)
    ensures LimiterGone(cfg, s)
  {
    forall k: Key | ColonFree(k) && (k.FailKey? || k.LockKey?) ensures EntryOf(cfg, s, k).None? {
      FillersAreInits(cfg, base, n, k);
    }
  }

  /** As many bind-inits as the cache has entries leave nothing of the limiter, whatever was stored. */
  lemma FillTakesTheLimiter(cfg: Config, sys: System, user: string, phone: string, base: nat, t: nat)
    requires cfg.maxEntries > 0 && phone != "" && Tidy(cfg, sys.cache) && Shorter(cfg, sys.cache, base)
    ensures var sys' := Exec(cfg, sys, Fill(user, phone, base, cfg.maxEntries, t));
            Tidy(cfg, sys'.cache) && OnlyInits(sys, sys') && LimiterGone(cfg, sys'.cache)
  {
    hide Step, Exec, Fill;
    FillRun(cfg, sys, user, phone, base, cfg.maxEntries, t);
    var sys' := Exec(cfg, sys, Fill(user, phone, base, cfg.maxEntries, t));
    var fillers := FillerKeys(cfg, base, cfg.maxEntries);
    assert Last(cfg.maxEntries, sys.cache.keys + fillers) == fillers;
    OnlyFillers(cfg, sys'.cache, base, cfg.maxEntries);
  }

  // ---- Runs put together ----

  lemma {:induction false} ExecConcat(cfg: Config, sys: System, a: seq<Call>, b: seq<Call>)
    ensures Exec(cfg, sys, a + b) == Exec(cfg, Exec(cfg, sys, a), b)
    decreases |a|
  {
    hide Step;
    if a == [] {
      assert a + b == b;
    } else {
      assert (a + b)[1..] == a[1..] + b;
      ExecConcat(cfg, Step(cfg, sys, a[0]), a[1..], b);
    }
  }

  /** Legal calls that all happen at one instant. */
  ghost predicate LegalAt(calls: seq<Call>, t: nat)
  {
    forall i :: 0 <= i < |calls| ==> Proper(calls[i]) && calls[i].now == EndOf(calls[i]) == t
  }

  lemma {:induction false} LegalAtIsLegal(calls: seq<Call>, clock: nat, t: nat)
    requires LegalAt(calls, t) && clock <= t
    ensures Legal(clock, calls)
    decreases |calls|
  {
    if calls != [] {
      LegalAtIsLegal(calls[1..], t, t);
    }
  }

  lemma {:induction false} FillIsLegal(user: string, phone: string, base: nat, n: nat, t: nat)
    requires ':' !in user
    ensures LegalAt(Fill(user, phone, base, n, t), t)
    decreases n
  {
    if n > 0 {
      FillIsLegal(user, phone, base + 1, n - 1, t);
    }
  }

  // ---- Guessing past every ceiling ----

  function Guess(user: string, session: string, ref: string, t: nat): Call
  {
    BindCall(user, session, ref, "", Refused, t, t)
  }

  /** A bind-init and a wrong secret. */
  function Try(user: string, session: string, phone: string, ref: string, t: nat): seq<Call>
  {
    [InitCall(user, session, Some(phone), t), Guess(user, session, ref, t)]
  }

  ghost predicate Reachable(customers: CS.Customers, user: string, phone: string, ref: string)
  {
    ':' !in user && phone != "" && ref in CS.AllowedRefs(CS.Resolve(customers, phone))
  }

  /** A stored resolve result that lists the reference, and no lock: the secret may be tried. */
  lemma AskGranted(cfg: Config, sys: System, user: string, session: string, ref: string, result: CS.ResolveResult,
                   t: nat)
    requires EntryOf(cfg, sys.cache, InitKey(session)) == Some(Entry(Init(result), Some(t + INIT_TTL_SEC * 1000)))
    requires ref in CS.AllowedRefs(result) && CheckLocked(cfg, sys.cache, user, ref, t).1.Unlocked?
    ensures AskBind(cfg, sys, user, session, ref, t) ==
            (sys.(cache := CheckLocked(cfg, sys.cache, user, ref, t).0), None)
  {
    assert Get(cfg, sys.cache, Encode(InitKey(session)), t) == (sys.cache, Some(Init(result)));
  }

  lemma InitStores(cfg: Config, sys: System, user: string, session: string, phone: string, t: nat)
    requires phone != ""
    ensures var inited := Step(cfg, sys, InitCall(user, session, Some(phone), t));
            var result := CS.Resolve(sys.customers, phone);
            && EntryOf(cfg, inited.cache, InitKey(session)) == Some(Entry(Init(result), Some(t + INIT_TTL_SEC * 1000)))
            && inited.customers == sys.customers && inited.hist == sys.hist + [Inited(session, result, t)]
  {
    var key := Encode(InitKey(session));
    SetLooks(cfg, sys.cache, key, Init(CS.Resolve(sys.customers, phone)), INIT_TTL_SEC, t, FullKey(cfg, key));
  }

  lemma GuessLands(cfg: Config, sys: System, user: string, session: string, ref: string, result: CS.ResolveResult,
                   t: nat)
    requires EntryOf(cfg, sys.cache, InitKey(session)) == Some(Entry(Init(result), Some(t + INIT_TTL_SEC * 1000)))
    requires ref in CS.AllowedRefs(result) && CheckLocked(cfg, sys.cache, user, ref, t).1.Unlocked?
    ensures var s := CheckLocked(cfg, sys.cache, user, ref, t).0;
            var guessed := Step(cfg, sys, Guess(user, session, ref, t));
            && guessed.cache == RecordFailure(cfg, s, user, ref, t).0
            && guessed.customers == sys.customers && guessed.hist == sys.hist + [FailedVerify(user, ref, t, t)]
  {
    AskGranted(cfg, sys, user, session, ref, result, t);
  }

  lemma ExecTry(cfg: Config, sys: System, user: string, session: string, phone: string, ref: string, t: nat)
    ensures Exec(cfg, sys, Try(user, session, phone, ref, t)) ==
            Step(cfg, Step(cfg, sys, InitCall(user, session, Some(phone), t)), Guess(user, session, ref, t))
  {
    hide Step;
    var calls := Try(user, session, phone, ref, t);
    assert calls[1..] == [calls[1]] && [calls[1]][1..] == [];
    assert Exec(cfg, Step(cfg, sys, calls[0]), [calls[1]]) == Step(cfg, Step(cfg, sys, calls[0]), calls[1]);
  }

  /** When no lock is reported after the bind-init, the guess is a failed verification. */
  lemma TryLands(cfg: Config, sys: System, user: string, session: string, phone: string, ref: string, t: nat,
                 inited: System)
    requires Reachable(sys.customers, user, phone, ref)
    requires inited == Step(cfg, sys, InitCall(user, session, Some(phone), t))
    requires CheckLocked(cfg, inited.cache, user, ref, t).1.Unlocked?
    ensures var s := CheckLocked(cfg, inited.cache, user, ref, t).0;
            var guessed := Exec(cfg, sys, Try(user, session, phone, ref, t));
            && guessed.cache == RecordFailure(cfg, s, user, ref, t).0
            && guessed.customers == sys.customers
            && inited.hist == sys.hist + [Inited(session, CS.Resolve(sys.customers, phone), t)]
            && guessed.hist == inited.hist + [FailedVerify(user, ref, t, t)]
  {
    hide Step, Exec, RecordFailure, CheckLocked;
    InitStores(cfg, sys, user, session, phone, t);
    GuessLands(cfg, inited, user, session, ref, CS.Resolve(sys.customers, phone), t);
    ExecTry(cfg, sys, user, session, phone, ref, t);
  }

  lemma UnlockedWithoutLimiter(cfg: Config, s: Cache, user: string, ref: string, now: nat)
    requires ':' !in user && LimiterGone(cfg, s)
    ensures CheckLocked(cfg, s, user, ref, now) == (s, Unlocked)
  {
    assert EntryOf(cfg, s, LockKey(TotalGate(user))).None? && EntryOf(cfg, s, LockKey(PairGate(user, ref))).None? &&
           EntryOf(cfg, s, LockKey(CustomerGate(ref))).None?;
  }

  lemma InitKeepsLimiterGone(cfg: Config, sys: System, user: string, session: string, phone: string, t: nat)
    requires cfg.maxEntries > 0 && phone != "" && Tidy(cfg, sys.cache) && LimiterGone(cfg, sys.cache)
    ensures var s := Step(cfg, sys, InitCall(user, session, Some(phone), t)).cache; Tidy(cfg, s) && LimiterGone(cfg, s)
  {
    var result := Init(CS.Resolve(sys.customers, phone));
    WriteStaysTidy(cfg, sys.cache, InitKey(session), result, INIT_TTL_SEC, t);
    forall k: Key | ColonFree(k) && (k.FailKey? || k.LockKey?)
      ensures EntryOf(cfg, Set(cfg, sys.cache, Encode(InitKey(session)), result, INIT_TTL_SEC, t), k).None?
    {
      DistinctKeys(cfg, InitKey(session), k);
      SetLooks(cfg, sys.cache, Encode(InitKey(session)), result, INIT_TTL_SEC, t, FullKey(cfg, Encode(k)));
    }
  }

  lemma {:induction false} InitsCountNothing(hist: seq<BindingEvent>, hist': seq<BindingEvent>, id: GateId, a: nat,
                                             b: nat)
    requires |hist| <= |hist'| && hist'[..|hist|] == hist
    requires forall i :: |hist| <= i < |hist'| ==> hist'[i].Inited?
    ensures FailedVerifies(hist', id, a, b) == FailedVerifies(hist, id, a, b)
    decreases |hist'|
  {
    if |hist'| > |hist| {
      var init := hist'[..|hist'| - 1];
      assert init[..|hist|] == hist;
      InitsCountNothing(hist, init, id, a, b);
    } else {
      assert hist' == hist;
    }
  }

  /** One more failed verification of the pair at time t, in every count. */
  ghost predicate OneMoreFailure(hist: seq<BindingEvent>, hist': seq<BindingEvent>, user: string, ref: string, t: nat)
  {
    forall id: GateId, a: nat, b: nat :: Covers(id, user, ref) && a <= t < b ==>
      FailedVerifies(hist', id, a, b) == FailedVerifies(hist, id, a, b) + 1
  }

  lemma RoundCounts(sys: System, filled: System, e1: BindingEvent, user: string, ref: string, t: nat)
    requires OnlyInits(sys, filled) && e1.Inited?
    ensures OneMoreFailure(sys.hist, filled.hist + [e1] + [FailedVerify(user, ref, t, t)], user, ref, t)
  {
    var e2 := FailedVerify(user, ref, t, t);
    forall id: GateId, a: nat, b: nat | Covers(id, user, ref) && a <= t < b
      ensures FailedVerifies(filled.hist + [e1] + [e2], id, a, b) == FailedVerifies(sys.hist, id, a, b) + 1
    {
      InitsCountNothing(sys.hist, filled.hist, id, a, b);
      FailedVerifiesAppend(filled.hist, e1, id, a, b);
      FailedVerifiesAppend(filled.hist + [e1], e2, id, a, b);
    }
  }

  lemma LegalConcat(a: seq<Call>, b: seq<Call>, t: nat)
    requires LegalAt(a, t) && LegalAt(b, t)
    ensures LegalAt(a + b, t)
  {
  }

  lemma TryIsLegal(user: string, session: string, phone: string, ref: string, t: nat)
    requires ':' !in user
    ensures LegalAt(Try(user, session, phone, ref, t), t)
  {
  }

  /** One round, fill and try: one failed verification more, whatever was counted or locked before. */
  lemma OneRound(cfg: Config, sys: System, user: string, session: string, phone: string, ref: string, t: nat)
    returns (calls: seq<Call>)
    requires cfg.maxEntries > 0 && Tidy(cfg, sys.cache) && Reachable(sys.customers, user, phone, ref)
    ensures LegalAt(calls, t)
    ensures var sys' := Exec(cfg, sys, calls);
            && Tidy(cfg, sys'.cache) && sys'.customers == sys.customers
            && OneMoreFailure(sys.hist, sys'.hist, user, ref, t)
  {
    hide Step, Exec, Fill, Try, LegalAt, OneMoreFailure, LimiterGone;
    var base := SomeBase(sys.cache.keys);
    var fill, try := Fill(user, phone, base, cfg.maxEntries, t), Try(user, session, phone, ref, t);
    calls := fill + try;
    FillIsLegal(user, phone, base, cfg.maxEntries, t);
    TryIsLegal(user, session, phone, ref, t);
    LegalConcat(fill, try, t);
    FillTakesTheLimiter(cfg, sys, user, phone, base, t);
    ExecConcat(cfg, sys, fill, try);
    var filled := Exec(cfg, sys, fill);
    TryAfterFill(cfg, filled, user, session, phone, ref, t);
    RoundCounts(sys, filled, Inited(session, CS.Resolve(filled.customers, phone), t), user, ref, t);
  }

  lemma TryAfterFill(cfg: Config, sys: System, user: string, session: string, phone: string, ref: string, t: nat)
    requires cfg.maxEntries > 0 && Tidy(cfg, sys.cache) && LimiterGone(cfg, sys.cache)
    requires Reachable(sys.customers, user, phone, ref)
    ensures var sys' := Exec(cfg, sys, Try(user, session, phone, ref, t));
            && Tidy(cfg, sys'.cache) && sys'.customers == sys.customers
            && sys'.hist == sys.hist + [Inited(session, CS.Resolve(sys.customers, phone), t)] +
                               [FailedVerify(user, ref, t, t)]
  {
    hide Step;
    var inited := Step(cfg, sys, InitCall(user, session, Some(phone), t));
    InitKeepsLimiterGone(cfg, sys, user, session, phone, t);
    UnlockedWithoutLimiter(cfg, inited.cache, user, ref, t);
    TryLands(cfg, sys, user, session, phone, ref, t, inited);
    RecordFailureStaysTidy(cfg, inited.cache, user, ref, t);
  }

  lemma {:induction false} ManyRounds(cfg: Config, sys: System, user: string, session: string, phone: string,
                                      ref: string, t: nat, n: nat)
    returns (calls: seq<Call>)
    requires cfg.maxEntries > 0 && Tidy(cfg, sys.cache) && Reachable(sys.customers, user, phone, ref)
    ensures LegalAt(calls, t)
    ensures forall id: GateId, a: nat, b: nat :: Covers(id, user, ref) && a <= t < b ==>
              FailedVerifies(Exec(cfg, sys, calls).hist, id, a, b) == FailedVerifies(sys.hist, id, a, b) + n
    decreases n
  {
    hide Step, LegalAt;
    calls := [];
    if n == 0 {
      NoCallsLegal(t);
    } else {
      var round := OneRound(cfg, sys, user, session, phone, ref, t);
      var rest := ManyRounds(cfg, Exec(cfg, sys, round), user, session, phone, ref, t, n - 1);
      calls := round + rest;
      ExecConcat(cfg, sys, round, rest);
      LegalConcat(round, rest, t);
    }
  }

  lemma NoCallsLegal(t: nat)
    ensures LegalAt([], t)
  {
  }

  /**
    Eviction lifts every bound, whatever the size of the cache: for any number n there is a legal run
    of one user with n failed verifications of one customer, counted by each of the three ceilings,
    within one millisecond. The other calls of the run are bind-inits.
   */
  lemma EvictionLiftsEveryBound(cfg: Config, seeds: seq<CS.Customer>, user: string, session: string, phone: string,
                                ref: string, t: nat, n: nat) returns (calls: seq<Call>)
    requires cfg.maxEntries > 0 && Reachable(FreshSystem(seeds).customers, user, phone, ref)
    ensures Legal(0, calls)
    ensures forall id :: Covers(id, user, ref) ==>
              FailedVerifies(Exec(cfg, FreshSystem(seeds), calls).hist, id, t, t + 1) == n
  {
    calls := ManyRounds(cfg, FreshSystem(seeds), user, session, phone, ref, t, n);
    LegalAtIsLegal(calls, 0, t);
  }

  // ---- Lifting an armed lock ----

  /** Seven keys in play, with room for them; every ceiling of the pair is as the history says. */
  ghost predicate Calm(cfg: Config, sys: System, user: string, session: string, ref: string, t: nat)
  {
    && Room(cfg, sys.cache, SevenKeys(cfg, user, session, ref))
    && Inv(cfg, sys, PairGate(user, ref), t) && Inv(cfg, sys, CustomerGate(ref), t)
    && Inv(cfg, sys, TotalGate(user), t)
  }

  ghost predicate PairUnlocked(hist: seq<BindingEvent>, user: string, ref: string, t: nat)
  {
    && !Locked(GateOf(hist, PairGate(user, ref)), t) && !Locked(GateOf(hist, CustomerGate(ref)), t)
    && !Locked(GateOf(hist, TotalGate(user)), t)
  }

  /** The gates after a bind-init and a failure. */
  lemma GatesAfterTry(hist: seq<BindingEvent>, session: string, result: CS.ResolveResult, user: string, ref: string,
                      t: nat, id: GateId)
    requires Covers(id, user, ref)
    ensures GateOf(hist + [Inited(session, result, t)] + [FailedVerify(user, ref, t, t)], id) ==
            GateStep(CeilingOf(id), GateOf(hist, id), Fail(t))
  {
    GateOfAppend(hist, Inited(session, result, t), id);
    GateOfAppend(hist + [Inited(session, result, t)], FailedVerify(user, ref, t, t), id);
  }

  /** With room for its key a bind-init evicts nothing. */
  lemma InitSparesAll(cfg: Config, sys: System, call: Call, user: string, session: string, ref: string)
    requires call.InitCall? && call.session == session && call.phone.Some? && call.phone.value != ""
    requires cfg.maxEntries >= 7 && Room(cfg, sys.cache, SevenKeys(cfg, user, session, ref))
    ensures forall id :: CallSpares(cfg, sys, call, id)
  {
    SevenKeysFit(cfg, user, session, ref);
    SetInRoom(cfg, sys.cache, SevenKeys(cfg, user, session, ref), Encode(InitKey(session)),
              Init(CS.Resolve(sys.customers, call.phone.value)), INIT_TTL_SEC, call.now);
  }

  lemma InitKeepsCalm(cfg: Config, sys: System, user: string, session: string, phone: string, ref: string, t: nat)
    requires cfg.maxEntries >= 7 && Calm(cfg, sys, user, session, ref, t) && ':' !in user && phone != ""
    ensures var sys' := Step(cfg, sys, InitCall(user, session, Some(phone), t));
            && Calm(cfg, sys', user, session, ref, t)
            && sys'.hist == sys.hist + [Inited(session, CS.Resolve(sys.customers, phone), t)]
  {
    var keys := SevenKeys(cfg, user, session, ref);
    SevenKeysFit(cfg, user, session, ref);
    SetInRoom(cfg, sys.cache, keys, Encode(InitKey(session)), Init(CS.Resolve(sys.customers, phone)), INIT_TTL_SEC, t);
    var call := InitCall(user, session, Some(phone), t);
    InitSparesAll(cfg, sys, call, user, session, ref);
    hide CallSpares, Inv;
    StepKeepsInv(cfg, sys, call, PairGate(user, ref), t);
    StepKeepsInv(cfg, sys, call, CustomerGate(ref), t);
    StepKeepsInv(cfg, sys, call, TotalGate(user), t);
  }

  lemma GuessKeepsCalm(cfg: Config, sys: System, s: Cache, user: string, session: string, ref: string, t: nat,
                       sys': System)
    requires cfg.maxEntries >= 7 && Calm(cfg, sys, user, session, ref, t) && ':' !in user
    requires PairUnlocked(sys.hist, user, ref, t) && s == CheckLocked(cfg, sys.cache, user, ref, t).0
    requires sys'.cache == RecordFailure(cfg, s, user, ref, t).0
    requires sys'.hist == sys.hist + [FailedVerify(user, ref, t, t)]
    ensures Calm(cfg, sys', user, session, ref, t)
  {
    var keys := SevenKeys(cfg, user, session, ref);
    SevenKeysFit(cfg, user, session, ref);
    CheckLockedInRoom(cfg, sys.cache, keys, user, ref, t);
    RecordFailureInRoom(cfg, s, keys, user, ref, t, PairGate(user, ref));
    GuessKeepsInv(cfg, sys, s, keys, user, ref, t, sys', PairGate(user, ref));
    GuessKeepsInv(cfg, sys, s, keys, user, ref, t, sys', CustomerGate(ref));
    GuessKeepsInv(cfg, sys, s, keys, user, ref, t, sys', TotalGate(user));
  }

  lemma GuessKeepsInv(cfg: Config, sys: System, s: Cache, keys: set<string>, user: string, ref: string, t: nat,
                      sys': System, id: GateId)
    requires ':' !in user && ColonFreeGate(id) && Covers(id, user, ref) && Inv(cfg, sys, id, t)
    requires !Locked(GateOf(sys.hist, id), t) && s == CheckLocked(cfg, sys.cache, user, ref, t).0
    requires Room(cfg, s, keys) && HoldsPair(cfg, keys, user, ref)
    requires sys'.cache == RecordFailure(cfg, s, user, ref, t).0
    requires sys'.hist == sys.hist + [FailedVerify(user, ref, t, t)]
    ensures Inv(cfg, sys', id, t)
  {
    var e := FailedVerify(user, ref, t, t);
    CheckLockedKeepsSim(cfg, sys.cache, user, ref, t, id, GateOf(sys.hist, id));
    RecordFailureInRoom(cfg, s, keys, user, ref, t, id);
    RecordFailureRefinesGates(cfg, s, user, ref, t, id, GateOf(sys.hist, id));
    AppendKeepsGateInv(sys.hist, e, id, t);
    GateOfAppend(sys.hist, e, id);
  }

  lemma TryStaysCalm(cfg: Config, sys: System, user: string, session: string, phone: string, ref: string, t: nat)
    requires cfg.maxEntries >= 7 && Calm(cfg, sys, user, session, ref, t) && PairUnlocked(sys.hist, user, ref, t)
    requires Reachable(sys.customers, user, phone, ref)
    ensures var sys' := Exec(cfg, sys, Try(user, session, phone, ref, t));
            && Calm(cfg, sys', user, session, ref, t) && sys'.customers == sys.customers
            && forall id :: Covers(id, user, ref) ==>
                 GateOf(sys'.hist, id) == GateStep(CeilingOf(id), GateOf(sys.hist, id), Fail(t))
  {
    hide Step;
    var inited := Step(cfg, sys, InitCall(user, session, Some(phone), t));
    var result := CS.Resolve(sys.customers, phone);
    InitKeepsCalm(cfg, sys, user, session, phone, ref, t);
    GateOfAppend(sys.hist, Inited(session, result, t), PairGate(user, ref));
    GateOfAppend(sys.hist, Inited(session, result, t), CustomerGate(ref));
    GateOfAppend(sys.hist, Inited(session, result, t), TotalGate(user));
    CheckLockedRefinesGates(cfg, inited.cache, user, ref, t, GateOf(inited.hist, PairGate(user, ref)),
                            GateOf(inited.hist, CustomerGate(ref)), GateOf(inited.hist, TotalGate(user)));
    TryLands(cfg, sys, user, session, phone, ref, t, inited);
    var sys' := Exec(cfg, sys, Try(user, session, phone, ref, t));
    GuessKeepsCalm(cfg, inited, CheckLocked(cfg, inited.cache, user, ref, t).0, user, session, ref, t, sys');
    forall id | Covers(id, user, ref)
      ensures GateOf(sys'.hist, id) == GateStep(CeilingOf(id), GateOf(sys.hist, id), Fail(t))
    {
      GatesAfterTry(sys.hist, session, result, user, ref, t, id);
    }
  }

  /** Every gate of the pair has counted n failures at time t. */
  ghost predicate Counted(hist: seq<BindingEvent>, user: string, ref: string, t: nat, n: nat)
  {
    forall id :: Covers(id, user, ref) ==> GateOf(hist, id) == Gate(if n == 0 then None else Some(Count(n, t)), -1)
  }

  /** A gate after failure n + 1 at time t. */
  function Hit(id: GateId, t: nat, n: nat): Gate
  {
    GateStep(CeilingOf(id), Gate(if n == 0 then None else Some(Count(n, t)), -1), Fail(t))
  }

  lemma FailureHits(id: GateId, t: nat, n: nat)
    requires n <= 2
    ensures n < 2 ==> Hit(id, t, n) == Gate(Some(Count(n + 1, t)), -1)
    ensures n == 2 && id.PairGate? ==> Hit(id, t, n).until == t + 900_000
  {
  }

  lemma CountsOn(hist: seq<BindingEvent>, hist': seq<BindingEvent>, user: string, ref: string, t: nat, n: nat)
    requires Counted(hist, user, ref, t, n) && n <= 2
    requires forall id :: Covers(id, user, ref) ==>
               GateOf(hist', id) == GateStep(CeilingOf(id), GateOf(hist, id), Fail(t))
    ensures n < 2 ==> Counted(hist', user, ref, t, n + 1)
    ensures n == 2 ==> GateOf(hist', PairGate(user, ref)).until == t + 900_000
  {
    hide GateOf, GateStep;
    forall id | Covers(id, user, ref) ensures GateOf(hist', id) == Hit(id, t, n) {
    }
    forall id | Covers(id, user, ref) && n < 2 ensures GateOf(hist', id) == Gate(Some(Count(n + 1, t)), -1) {
      FailureHits(id, t, n);
    }
    FailureHits(PairGate(user, ref), t, n);
  }

  lemma UncountedUnlocked(hist: seq<BindingEvent>, user: string, ref: string, t: nat, n: nat)
    requires Counted(hist, user, ref, t, n)
    ensures PairUnlocked(hist, user, ref, t)
  {
    assert Covers(PairGate(user, ref), user, ref) && Covers(CustomerGate(ref), user, ref) &&
           Covers(TotalGate(user), user, ref);
  }

  lemma FreshIsCalm(cfg: Config, seeds: seq<CS.Customer>, user: string, session: string, ref: string, t: nat)
    requires cfg.maxEntries >= 7
    ensures Calm(cfg, FreshSystem(seeds), user, session, ref, t) && Counted([], user, ref, t, 0)
  {
    SevenKeysFit(cfg, user, session, ref);
  }

  /** One try more, while every count is below the lowest limit. */
  lemma TryCounts(cfg: Config, sys: System, user: string, session: string, phone: string, ref: string, t: nat, n: nat)
    requires cfg.maxEntries >= 7 && Calm(cfg, sys, user, session, ref, t) && Reachable(sys.customers, user, phone, ref)
    requires Counted(sys.hist, user, ref, t, n) && n <= 2
    ensures var sys' := Exec(cfg, sys, Try(user, session, phone, ref, t));
            && Calm(cfg, sys', user, session, ref, t) && sys'.customers == sys.customers
            && (n < 2 ==> Counted(sys'.hist, user, ref, t, n + 1))
            && (n == 2 ==> GateOf(sys'.hist, PairGate(user, ref)).until == t + 900_000)
  {
    hide Step, Exec, Calm, GateOf, Covers, PairUnlocked, Reachable, Counted;
    UncountedUnlocked(sys.hist, user, ref, t, n);
    TryStaysCalm(cfg, sys, user, session, phone, ref, t);
    CountsOn(sys.hist, Exec(cfg, sys, Try(user, session, phone, ref, t)).hist, user, ref, t, n);
  }

  /** Three tries arm the lock of the pair. */
  lemma ThreeTries(cfg: Config, seeds: seq<CS.Customer>, user: string, session: string, phone: string, ref: string,
                   t: nat) returns (calls: seq<Call>)
    requires cfg.maxEntries >= 7 && Reachable(FreshSystem(seeds).customers, user, phone, ref)
    ensures LegalAt(calls, t)
    ensures var sys := Exec(cfg, FreshSystem(seeds), calls);
            && Calm(cfg, sys, user, session, ref, t)
            && GateOf(sys.hist, PairGate(user, ref)).until == t + 900_000
  {
    hide Step, Exec, Try, Calm, Counted, LegalAt, GateOf;
    var try := Try(user, session, phone, ref, t);
    var sys0 := FreshSystem(seeds);
    FreshIsCalm(cfg, seeds, user, session, ref, t);
    TryCounts(cfg, sys0, user, session, phone, ref, t, 0);
    var sys1 := Exec(cfg, sys0, try);
    TryCounts(cfg, sys1, user, session, phone, ref, t, 1);
    TryCounts(cfg, Exec(cfg, sys1, try), user, session, phone, ref, t, 2);
    ExecConcat(cfg, sys0, try, try);
    ExecConcat(cfg, sys0, try + try, try);
    calls := try + try + try;
    TryIsLegal(user, session, phone, ref, t);
    LegalConcat(try, try, t);
    LegalConcat(try + try, try, t);
  }

  lemma CalmIsTidy(cfg: Config, sys: System, user: string, session: string, ref: string, t: nat)
    requires Calm(cfg, sys, user, session, ref, t)
    ensures Tidy(cfg, sys.cache)
  {
    var keys := SevenKeys(cfg, user, session, ref);
    DistinctCardinality(sys.cache.keys);
    SubsetCardinality((set k | k in sys.cache.keys), keys);
    assert forall k: Key :: !k.ForeignKey? ==> FullKey(cfg, Encode(k)) != "" by {
      forall k: Key | !k.ForeignKey? ensures FullKey(cfg, Encode(k)) != "" {
        assert Encode(k)[0] == 'b';
      }
    }
  }

  /**
    Eviction lifts armed locks, whatever the size of the cache: a legal run arms the lock of a pair,
    every check within the next quarter hour reports it, and after as many bind-inits as the cache has
    entries none does.
   */
  lemma EvictionUnlocks(cfg: Config, seeds: seq<CS.Customer>, user: string, session: string, phone: string,
                        ref: string, t: nat, now: nat) returns (calls: seq<Call>, more: seq<Call>)
    requires cfg.maxEntries >= 7 && Reachable(FreshSystem(seeds).customers, user, phone, ref)
    requires t <= now <= t + 900_000
    ensures Legal(0, calls + more) && |more| == cfg.maxEntries && forall i :: 0 <= i < |more| ==> more[i].InitCall?
    ensures CheckLocked(cfg, Exec(cfg, FreshSystem(seeds), calls).cache, user, ref, now).1.LockedFor?
    ensures CheckLocked(cfg, Exec(cfg, FreshSystem(seeds), calls + more).cache, user, ref, now).1.Unlocked?
  {
    hide Step, Exec, Fill, LegalAt, LimiterGone, Calm, GateOf, CheckLocked, Legal;
    calls := ThreeTries(cfg, seeds, user, session, phone, ref, t);
    var armed := Exec(cfg, FreshSystem(seeds), calls);
    ArmedPairIsReported(cfg, armed, user, session, ref, t, now);
    CalmIsTidy(cfg, armed, user, session, ref, t);
    var base := SomeBase(armed.cache.keys);
    more := Fill(user, phone, base, cfg.maxEntries, t);
    FillShape(user, phone, base, cfg.maxEntries, t);
    FillTakesTheLimiter(cfg, armed, user, phone, base, t);
    ExecConcat(cfg, FreshSystem(seeds), calls, more);
    UnlockedWithoutLimiter(cfg, Exec(cfg, armed, more).cache, user, ref, now);
    FillIsLegal(user, phone, base, cfg.maxEntries, t);
    LegalConcat(calls, more, t);
    LegalAtIsLegal(calls + more, 0, t);
  }

  lemma ArmedPairIsReported(cfg: Config, sys: System, user: string, session: string, ref: string, t: nat, now: nat)
    requires Calm(cfg, sys, user, session, ref, t) && t <= now <= GateOf(sys.hist, PairGate(user, ref)).until
    ensures CheckLocked(cfg, sys.cache, user, ref, now).1.LockedFor?
  {
    LockedGateIsReported(cfg, sys.cache, user, ref, t, now, PairGate(user, ref),
                         GateOf(sys.hist, PairGate(user, ref)));
  }

  lemma {:induction false} FillShape(user: string, phone: string, base: nat, n: nat, t: nat)
    ensures var calls := Fill(user, phone, base, n, t);
            |calls| == n && forall i :: 0 <= i < |calls| ==> calls[i].InitCall?
    decreases n
  {
    if n > 0 {
      FillShape(user, phone, base + 1, n - 1, t);
    }
  }
}
