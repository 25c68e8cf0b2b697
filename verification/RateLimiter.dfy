/**
  The triple-ceiling lockout over the shared string-keyed cache, and its refinement of three
  independent families of lockout gates. One clock reading is taken per limiter call.
 */
module RateLimiter {
  import opened Prelude
  import opened MemoryCache
  import opened LockoutGate
  import opened BindingKeys
  import opened BindingData

  datatype LockReason = UserRef | CustomerRef | Session

  datatype LockState = Unlocked | LockedFor(reason: LockReason, retryAfterSec: nat)

  type Cache = Store<Value>

  // ---- The limiter as functions of the cache ----

  /** The counter to write, given what was read. */
  function NextCounter(entry: Option<Value>, windowSec: nat, now: nat): (v: Value)
    ensures v.Counter? && v.n >= 1
  {
    if entry.Some? && entry.value.Counter? && now - entry.value.since < windowSec * 1000
    then Counter(entry.value.n + 1, entry.value.since)
    else Counter(1, now)
  }

  function Bump(cfg: Config, s: Cache, key: string, windowSec: nat, now: nat): (Cache, nat)
  {
    var (s1, entry) := Get(cfg, s, key, now);
    var v := NextCounter(entry, windowSec, now);
    (Set(cfg, s1, key, v, windowSec, now), v.n)
  }

  /** One ceiling's share of `recordFailure`: bump, and arm the lock on reaching the limit. */
  function Trip(cfg: Config, s: Cache, id: GateId, now: nat): (Cache, bool)
  {
    var c := CeilingOf(id);
    var (s1, n) := Bump(cfg, s, Encode(FailKey(id)), c.windowSec, now);
    if n >= c.limit then
      var s2 := Set(cfg, s1, Encode(LockKey(id)), Flag, c.lockSec, now);
      (Delete(cfg, s2, Encode(FailKey(id))), true)
    else (s1, false)
  }

  function RecordFailure(cfg: Config, s: Cache, user: string, ref: string, now: nat): (Cache, LockState)
  {
    var (s1, pairArmed) := Trip(cfg, s, PairGate(user, ref), now);
    var (s2, customerArmed) := Trip(cfg, s1, CustomerGate(ref), now);
    var (s3, sessionArmed) := Trip(cfg, s2, TotalGate(user), now);
    (s3,
     if sessionArmed then LockedFor(Session, CeilingOf(TotalGate(user)).lockSec)
     else if customerArmed then LockedFor(CustomerRef, CeilingOf(CustomerGate(ref)).lockSec)
     else if pairArmed then LockedFor(UserRef, CeilingOf(PairGate(user, ref)).lockSec)
     else Unlocked)
  }

  function RetryAfter(cfg: Config, s: Cache, id: GateId, now: nat): nat
  {
    var t := Ttl(cfg, s, Encode(LockKey(id)), now);
    if t > 0 then t else 0
  }

  function CheckLocked(cfg: Config, s: Cache, user: string, ref: string, now: nat): (Cache, LockState)
  {
    var (s1, session) := Get(cfg, s, Encode(LockKey(TotalGate(user))), now);
    if session.Some? then (s1, LockedFor(Session, RetryAfter(cfg, s1, TotalGate(user), now))) else
      var (s2, pair) := Get(cfg, s1, Encode(LockKey(PairGate(user, ref))), now);
      if pair.Some? then (s2, LockedFor(UserRef, RetryAfter(cfg, s2, PairGate(user, ref), now))) else
        var (s3, customer) := Get(cfg, s2, Encode(LockKey(CustomerGate(ref))), now);
        if customer.Some? then (s3, LockedFor(CustomerRef, RetryAfter(cfg, s3, CustomerGate(ref), now)))
        else (s3, Unlocked)
  }

  function ClearFailures(cfg: Config, s: Cache, user: string, ref: string): Cache
  {
    Delete(cfg, Delete(cfg, s, Encode(FailKey(PairGate(user, ref)))), Encode(FailKey(TotalGate(user))))
  }

  // ---- The service object ----

  class BindingRateLimiter {
    const cache: MemoryCacheService<Value>

    constructor (cache: MemoryCacheService<Value>)
      ensures this.cache == cache
    {
      this.cache := cache;
    }

    method BumpKey(key: string, windowSec: nat, now: nat) returns (count: nat)
      modifies cache
      ensures (cache.store, count) == Bump(cache.cfg, old(cache.store), key, windowSec, now)
    {
      var entry := cache.GetKey(key, now);
      if entry.Some? && entry.value.Counter? && now - entry.value.since < windowSec * 1000 {
        count := entry.value.n + 1;
        cache.SetKey(key, Counter(count, entry.value.since), windowSec, now);
        return;
      }
      cache.SetKey(key, Counter(1, now), windowSec, now);
      count := 1;
    }

    method TripCeiling(id: GateId, now: nat) returns (armed: bool)
      modifies cache
      ensures (cache.store, armed) == Trip(cache.cfg, old(cache.store), id, now)
    {
      var c := CeilingOf(id);
      var count := BumpKey(Encode(FailKey(id)), c.windowSec, now);
      armed := false;
      if count >= c.limit {
        cache.SetKey(Encode(LockKey(id)), Flag, c.lockSec, now);
        cache.DeleteKey(Encode(FailKey(id)));
        armed := true;
      }
    }

    method RecordFailedAttempt(user: string, ref: string, now: nat) returns (outcome: LockState)
      modifies cache
      ensures (cache.store, outcome) == RecordFailure(cache.cfg, old(cache.store), user, ref, now)
    {
      var pairArmed := TripCeiling(PairGate(user, ref), now);
      var customerArmed := TripCeiling(CustomerGate(ref), now);
      var sessionArmed := TripCeiling(TotalGate(user), now);
      if sessionArmed { return LockedFor(Session, CeilingOf(TotalGate(user)).lockSec); }
      if customerArmed { return LockedFor(CustomerRef, CeilingOf(CustomerGate(ref)).lockSec); }
      if pairArmed { return LockedFor(UserRef, CeilingOf(PairGate(user, ref)).lockSec); }
      return Unlocked;
    }

    method CheckLock(user: string, ref: string, now: nat) returns (lock: LockState)
      modifies cache
      ensures (cache.store, lock) == CheckLocked(cache.cfg, old(cache.store), user, ref, now)
    {
      var session := cache.GetKey(Encode(LockKey(TotalGate(user))), now);
      if session.Some? {
        return LockedFor(Session, RetryAfter(cache.cfg, cache.store, TotalGate(user), now));
      }
      var pair := cache.GetKey(Encode(LockKey(PairGate(user, ref))), now);
      if pair.Some? {
        return LockedFor(UserRef, RetryAfter(cache.cfg, cache.store, PairGate(user, ref), now));
      }
      var customer := cache.GetKey(Encode(LockKey(CustomerGate(ref))), now);
      if customer.Some? {
        return LockedFor(CustomerRef, RetryAfter(cache.cfg, cache.store, CustomerGate(ref), now));
      }
      return Unlocked;
    }

    method ClearFailureCounters(user: string, ref: string)
      modifies cache
      ensures cache.store == ClearFailures(cache.cfg, old(cache.store), user, ref)
    {
      cache.DeleteKey(Encode(FailKey(PairGate(user, ref))));
      cache.DeleteKey(Encode(FailKey(TotalGate(user))));
    }
  }

  // ---- Refinement: cache entries of a ceiling against its gate ----

  /** The cache entry of key `k`. */
  function EntryOf(cfg: Config, s: Cache, k: Key): Option<Entry<Value>>
  {
    Lookup(s, FullKey(cfg, Encode(k)))
  }

  /** A stored counter is the gate's counter and outlives its window; a missing one had elapsed. */
  ghost predicate CounterSim(e: Option<Entry<Value>>, c: Ceiling, g: Gate, now: nat)
  {
    match e
    case None => g.counter.None? || now - g.counter.value.since >= c.windowSec * 1000
    case Some(Entry(Counter(n, since), Some(expiry))) =>
      g.counter == Some(Count(n, since)) && expiry >= since + c.windowSec * 1000
    case _ => false
  }

  ghost predicate LockSim(e: Option<Entry<Value>>, g: Gate, now: nat)
  {
    match e
    case None => g.until < now
    case Some(Entry(Flag, Some(expiry))) => expiry == g.until
    case _ => false
  }

  ghost predicate Sim(cfg: Config, s: Cache, id: GateId, g: Gate, now: nat)
  {
    && (g.counter.Some? ==> g.counter.value.since <= now)
    && CounterSim(EntryOf(cfg, s, FailKey(id)), CeilingOf(id), g, now)
    && LockSim(EntryOf(cfg, s, LockKey(id)), g, now)
  }

  lemma TimePasses(cfg: Config, s: Cache, id: GateId, g: Gate, now: nat, later: nat)
    requires Sim(cfg, s, id, g, now) && now <= later
    ensures Sim(cfg, s, id, g, later)
  {
  }

  lemma DistinctKeys(cfg: Config, k1: Key, k2: Key)
    requires ColonFree(k1) && ColonFree(k2) && k1 != k2
    ensures FullKey(cfg, Encode(k1)) != FullKey(cfg, Encode(k2))
  {
    if FullKey(cfg, Encode(k1)) == FullKey(cfg, Encode(k2)) {
      FullKeyInjective(cfg, Encode(k1), Encode(k2));
      KeysAreInjective(k1, k2);
    }
  }

  /** A read may drop an expired entry; no ceiling notices. */
  lemma GetKeepsSim(cfg: Config, s: Cache, key: string, id: GateId, g: Gate, now: nat)
    requires Sim(cfg, s, id, g, now)
    ensures Sim(cfg, Get(cfg, s, key, now).0, id, g, now)
  {
  }

  // ---- Evictions that matter to a ceiling ----

  /** The entry still counts for its ceiling: a lock in force, or a counter whose window runs. */
  predicate Running(e: Option<Entry<Value>>, c: Ceiling, now: nat)
  {
    match e
    case Some(Entry(Counter(_, since), _)) => now - since < c.windowSec * 1000
    case Some(Entry(Flag, Some(expiry))) => now <= expiry
    case _ => false
  }

  predicate Takes(cfg: Config, s: Cache, k: Key, lost: Key)
  {
    Victim(cfg, s, FullKey(cfg, Encode(k))) == Some(FullKey(cfg, Encode(lost)))
  }

  /** Writing `k` evicts neither the ceiling's running counter nor its lock in force. */
  predicate Spares(cfg: Config, s: Cache, k: Key, id: GateId, now: nat)
  {
    && (Takes(cfg, s, k, FailKey(id)) ==> !Running(EntryOf(cfg, s, FailKey(id)), CeilingOf(id), now))
    && (Takes(cfg, s, k, LockKey(id)) ==> !Running(EntryOf(cfg, s, LockKey(id)), CeilingOf(id), now))
  }

  predicate TripSpares(cfg: Config, s: Cache, tripped: GateId, now: nat, id: GateId)
  {
    var key := Encode(FailKey(tripped));
    var (s2, n) := Bump(cfg, s, key, CeilingOf(tripped).windowSec, now);
    && Spares(cfg, Get(cfg, s, key, now).0, FailKey(tripped), id, now)
    && (n >= CeilingOf(tripped).limit && id != tripped ==> Spares(cfg, s2, LockKey(tripped), id, now))
  }

  predicate RecordFailureSpares(cfg: Config, s: Cache, user: string, ref: string, now: nat, id: GateId)
  {
    var s1 := Trip(cfg, s, PairGate(user, ref), now).0;
    var s2 := Trip(cfg, s1, CustomerGate(ref), now).0;
    && TripSpares(cfg, s, PairGate(user, ref), now, id)
    && TripSpares(cfg, s1, CustomerGate(ref), now, id)
    && TripSpares(cfg, s2, TotalGate(user), now, id)
  }

  /** A key of another family: the ceiling is left as it was if and only if the write spares it. */
  lemma ForeignWriteKeepsSimExactly(cfg: Config, s: Cache, k: Key, v: Value, ttl: nat, id: GateId, g: Gate, now: nat)
    requires Sim(cfg, s, id, g, now)
    requires ColonFree(k) && ColonFreeGate(id) && k != FailKey(id) && k != LockKey(id)
    ensures Sim(cfg, Set(cfg, s, Encode(k), v, ttl, now), id, g, now) <==> Spares(cfg, s, k, id, now)
  {
    DistinctKeys(cfg, k, FailKey(id));
    DistinctKeys(cfg, k, LockKey(id));
    SetLooks(cfg, s, Encode(k), v, ttl, now, FullKey(cfg, Encode(FailKey(id))));
    SetLooks(cfg, s, Encode(k), v, ttl, now, FullKey(cfg, Encode(LockKey(id))));
  }

  lemma DeleteKeepsSim(cfg: Config, s: Cache, k: Key, id: GateId, g: Gate, now: nat)
    requires Sim(cfg, s, id, g, now)
    requires ColonFree(k) && ColonFreeGate(id) && k != FailKey(id) && k != LockKey(id)
    ensures Sim(cfg, Delete(cfg, s, Encode(k)), id, g, now)
  {
    DistinctKeys(cfg, k, FailKey(id));
    DistinctKeys(cfg, k, LockKey(id));
  }

  /** The bumped counter is the gate's, and the stored entry outlives the window. */
  lemma BumpSim(cfg: Config, s: Cache, id: GateId, g: Gate, now: nat)
    requires Sim(cfg, s, id, g, now) && ColonFreeGate(id)
    requires Spares(cfg, Get(cfg, s, Encode(FailKey(id)), now).0, FailKey(id), id, now)
    ensures var c := CeilingOf(id);
            var (s', n) := Bump(cfg, s, Encode(FailKey(id)), c.windowSec, now);
            var b := Bumped(c, g, now);
            && n == b.n && b.since <= now
            && EntryOf(cfg, s', FailKey(id)) == Some(Entry(Counter(b.n, b.since), Some(now + c.windowSec * 1000)))
            && LockSim(EntryOf(cfg, s', LockKey(id)), g, now)
  {
    var key := Encode(FailKey(id));
    var s1 := Get(cfg, s, key, now).0;
    var b := Bumped(CeilingOf(id), g, now);
    DistinctKeys(cfg, FailKey(id), LockKey(id));
    GetKeepsSim(cfg, s, key, id, g, now);
    SetLooks(cfg, s1, key, Counter(b.n, b.since), CeilingOf(id).windowSec, now, FullKey(cfg, key));
    SetLooks(cfg, s1, key, Counter(b.n, b.since), CeilingOf(id).windowSec, now, FullKey(cfg, Encode(LockKey(id))));
  }

  lemma TripSim(cfg: Config, s: Cache, id: GateId, g: Gate, now: nat)
    requires Sim(cfg, s, id, g, now) && ColonFreeGate(id) && TripSpares(cfg, s, id, now, id)
    ensures var (s', armed) := Trip(cfg, s, id, now);
            && Sim(cfg, s', id, GateStep(CeilingOf(id), g, Fail(now)), now)
            && (armed <==> Bumped(CeilingOf(id), g, now).n >= CeilingOf(id).limit)
  {
    var c := CeilingOf(id);
    var (s1, n) := Bump(cfg, s, Encode(FailKey(id)), c.windowSec, now);
    BumpSim(cfg, s, id, g, now);
    if n >= c.limit {
      DistinctKeys(cfg, FailKey(id), LockKey(id));
      SetLooks(cfg, s1, Encode(LockKey(id)), Flag, c.lockSec, now, FullKey(cfg, Encode(LockKey(id))));
    }
  }

  /** Tripping one ceiling leaves every other ceiling it spares as it was. */
  lemma TripKeepsOthers(cfg: Config, s: Cache, tripped: GateId, now: nat, id: GateId, g: Gate)
    requires Sim(cfg, s, id, g, now) && TripSpares(cfg, s, tripped, now, id)
    requires ColonFreeGate(tripped) && ColonFreeGate(id) && tripped != id
    ensures Sim(cfg, Trip(cfg, s, tripped, now).0, id, g, now)
  {
    var c := CeilingOf(tripped);
    var failKey := Encode(FailKey(tripped));
    var s1 := Get(cfg, s, failKey, now).0;
    GetKeepsSim(cfg, s, failKey, id, g, now);
    var (s2, n) := Bump(cfg, s, failKey, c.windowSec, now);
    var v := NextCounter(Get(cfg, s, failKey, now).1, c.windowSec, now);
    ForeignWriteKeepsSimExactly(cfg, s1, FailKey(tripped), v, c.windowSec, id, g, now);
    if n >= c.limit {
      ForeignWriteKeepsSimExactly(cfg, s2, LockKey(tripped), Flag, c.lockSec, id, g, now);
      DeleteKeepsSim(cfg, Set(cfg, s2, Encode(LockKey(tripped)), Flag, c.lockSec, now), FailKey(tripped), id, g, now);
    }
  }

  predicate Covers(id: GateId, user: string, ref: string)
  {
    match id
    case PairGate(u, r) => u == user && r == ref
    case CustomerGate(r) => r == ref
    case TotalGate(u) => u == user
  }

  lemma TripAny(cfg: Config, s: Cache, tripped: GateId, now: nat, id: GateId, g: Gate)
    requires Sim(cfg, s, id, g, now) && TripSpares(cfg, s, tripped, now, id)
    requires ColonFreeGate(tripped) && ColonFreeGate(id)
    ensures Sim(cfg, Trip(cfg, s, tripped, now).0, id,
                if id == tripped then GateStep(CeilingOf(id), g, Fail(now)) else g, now)
  {
    if id == tripped {
      TripSim(cfg, s, id, g, now);
    } else {
      TripKeepsOthers(cfg, s, tripped, now, id, g);
    }
  }

  /**
    `recordFailure` refines one failure step of exactly the three gates covering (user, ref),
    for every gate whose running counter and lock its writes do not evict.
   */
  lemma RecordFailureRefinesGates(cfg: Config, s: Cache, user: string, ref: string, now: nat, id: GateId, g: Gate)
    requires ':' !in user && ColonFreeGate(id)
    requires Sim(cfg, s, id, g, now) && RecordFailureSpares(cfg, s, user, ref, now, id)
    ensures Sim(cfg, RecordFailure(cfg, s, user, ref, now).0, id,
                if Covers(id, user, ref) then GateStep(CeilingOf(id), g, Fail(now)) else g, now)
  {
    var s1 := Trip(cfg, s, PairGate(user, ref), now).0;
    var s2 := Trip(cfg, s1, CustomerGate(ref), now).0;
    var g' := if Covers(id, user, ref) then GateStep(CeilingOf(id), g, Fail(now)) else g;
    TripAny(cfg, s, PairGate(user, ref), now, id, g);
    TripAny(cfg, s1, CustomerGate(ref), now, id, if id.PairGate? then g' else g);
    TripAny(cfg, s2, TotalGate(user), now, id, if id.TotalGate? then g else g');
  }

  /**
    What `recordFailure` reports: the strongest ceiling whose limit this failure reaches, the user's
    total (5 in a quarter hour) before the customer (10 in an hour) before the pair (3 in a quarter
    hour), with the full duration of the lock just armed, and nothing when none is reached.
   */
  lemma RecordFailureReportsStrongest(cfg: Config, s: Cache, user: string, ref: string, now: nat,
                                      pair: Gate, customer: Gate, total: Gate)
    requires ':' !in user
    requires Sim(cfg, s, PairGate(user, ref), pair, now)
    requires RecordFailureSpares(cfg, s, user, ref, now, PairGate(user, ref))
    requires Sim(cfg, s, CustomerGate(ref), customer, now)
    requires RecordFailureSpares(cfg, s, user, ref, now, CustomerGate(ref))
    requires Sim(cfg, s, TotalGate(user), total, now) && RecordFailureSpares(cfg, s, user, ref, now, TotalGate(user))
    ensures RecordFailure(cfg, s, user, ref, now).1 ==
            if Bumped(Ceiling(5, 900, 900), total, now).n >= 5 then LockedFor(Session, 900)
            else if Bumped(Ceiling(10, 3600, 86_400), customer, now).n >= 10 then LockedFor(CustomerRef, 86_400)
            else if Bumped(Ceiling(3, 900, 900), pair, now).n >= 3 then LockedFor(UserRef, 900)
            else Unlocked
  {
    hide Trip, TripSpares, Sim, Bumped;
    var s1 := Trip(cfg, s, PairGate(user, ref), now).0;
    var s2 := Trip(cfg, s1, CustomerGate(ref), now).0;
    TripSim(cfg, s, PairGate(user, ref), pair, now);
    TripAny(cfg, s, PairGate(user, ref), now, CustomerGate(ref), customer);
    TripAny(cfg, s, PairGate(user, ref), now, TotalGate(user), total);
    TripSim(cfg, s1, CustomerGate(ref), customer, now);
    TripAny(cfg, s1, CustomerGate(ref), now, TotalGate(user), total);
    TripSim(cfg, s2, TotalGate(user), total, now);
  }

  /** `clearFailures` clears the pair and the total counter, and never a customer-wide one. */
  lemma ClearFailuresRefinesGates(cfg: Config, s: Cache, user: string, ref: string, now: nat, id: GateId, g: Gate)
    requires ':' !in user && ColonFreeGate(id) && Sim(cfg, s, id, g, now)
    ensures Sim(cfg, ClearFailures(cfg, s, user, ref), id,
                if !id.CustomerGate? && Covers(id, user, ref) then GateStep(CeilingOf(id), g, Clear(now)) else g, now)
  {
    var pair, total := FailKey(PairGate(user, ref)), FailKey(TotalGate(user));
    var s1 := Delete(cfg, s, Encode(pair));
    DistinctKeys(cfg, FailKey(id), LockKey(id));
    if id == PairGate(user, ref) {
      DeleteKeepsSim(cfg, s1, total, id, g.(counter := None), now);
    } else {
      DeleteKeepsSim(cfg, s, pair, id, g, now);
      if id != TotalGate(user) {
        DeleteKeepsSim(cfg, s1, total, id, g, now);
      }
    }
  }

  /** The least number of whole seconds after which the lock has reached its end. */
  predicate SecondsLeft(r: nat, g: Gate, now: nat)
  {
    g.until <= now + r * 1000 && (r > 0 ==> now + (r - 1) * 1000 < g.until)
  }

  lemma LockReadRefines(cfg: Config, s: Cache, id: GateId, g: Gate, now: nat)
    requires Sim(cfg, s, id, g, now)
    ensures Get(cfg, s, Encode(LockKey(id)), now).1.Some? <==> Locked(g, now)
    ensures Locked(g, now) ==> SecondsLeft(RetryAfter(cfg, Get(cfg, s, Encode(LockKey(id)), now).0, id, now), g, now)
  {
  }

  /**
    `checkLocked` reports locked exactly when one of the three covering gates is: the user's total
    before the pair before the customer, with the seconds that lock has left.
   */
  lemma CheckLockedRefinesGates(cfg: Config, s: Cache, user: string, ref: string, now: nat,
                                pair: Gate, customer: Gate, total: Gate)
    requires Sim(cfg, s, PairGate(user, ref), pair, now)
    requires Sim(cfg, s, CustomerGate(ref), customer, now)
    requires Sim(cfg, s, TotalGate(user), total, now)
    ensures var (_, lock) := CheckLocked(cfg, s, user, ref, now);
            && (lock.LockedFor? <==> Locked(pair, now) || Locked(customer, now) || Locked(total, now))
            && (Locked(total, now) ==>
                  lock.reason == Session && SecondsLeft(lock.retryAfterSec, total, now))
            && (!Locked(total, now) && Locked(pair, now) ==>
                  lock.reason == UserRef && SecondsLeft(lock.retryAfterSec, pair, now))
            && (!Locked(total, now) && !Locked(pair, now) && Locked(customer, now) ==>
                  lock.reason == CustomerRef && SecondsLeft(lock.retryAfterSec, customer, now))
  {
    hide Sim, RetryAfter, SecondsLeft;
    var k1, k2 := Encode(LockKey(TotalGate(user))), Encode(LockKey(PairGate(user, ref)));
    var s1 := Get(cfg, s, k1, now).0;
    var s2 := Get(cfg, s1, k2, now).0;
    LockReadRefines(cfg, s, TotalGate(user), total, now);
    GetKeepsSim(cfg, s, k1, PairGate(user, ref), pair, now);
    GetKeepsSim(cfg, s, k1, CustomerGate(ref), customer, now);
    LockReadRefines(cfg, s1, PairGate(user, ref), pair, now);
    GetKeepsSim(cfg, s1, k2, CustomerGate(ref), customer, now);
    LockReadRefines(cfg, s2, CustomerGate(ref), customer, now);
  }

  lemma CheckLockedKeepsSim(cfg: Config, s: Cache, user: string, ref: string, now: nat, id: GateId, g: Gate)
    requires Sim(cfg, s, id, g, now)
    ensures Sim(cfg, CheckLocked(cfg, s, user, ref, now).0, id, g, now)
  {
    var k1, k2 := Encode(LockKey(TotalGate(user))), Encode(LockKey(PairGate(user, ref)));
    var k3 := Encode(LockKey(CustomerGate(ref)));
    var s1 := Get(cfg, s, k1, now).0;
    var s2 := Get(cfg, s1, k2, now).0;
    GetKeepsSim(cfg, s, k1, id, g, now);
    GetKeepsSim(cfg, s1, k2, id, g, now);
    GetKeepsSim(cfg, s2, k3, id, g, now);
  }
}
