/** When the keys in play fit into the cache no write evicts anything, so every ceiling is spared. */
module CacheRoom {
  import opened Prelude
  import opened MemoryCache
  import opened LockoutGate
  import opened BindingKeys
  import opened BindingData
  import opened RateLimiter

  /** Only these keys are stored, and there is room for all of them. */
  ghost predicate Room(cfg: Config, s: Cache, keys: set<string>)
  {
    WellFormed(s) && (forall k :: k in s.keys ==> k in keys) && |keys| <= cfg.maxEntries
  }

  lemma {:induction false} DistinctCardinality(keys: seq<string>)
    requires Distinct(keys)
    ensures |set k | k in keys| == |keys|
  {
    if keys != [] {
      var init, last := keys[..|keys| - 1], keys[|keys| - 1];
      DistinctCardinality(init);
      assert keys == init + [last];
      assert (set k | k in keys) == (set k | k in init) + {last};
    }
  }

  lemma SubsetCardinality(a: set<string>, b: set<string>)
    requires a <= b
    ensures |a| <= |b|
  {
    assert b == a + (b - a);
  }

  /** A write of one of the keys finds room. */
  lemma SetInRoom(cfg: Config, s: Cache, keys: set<string>, key: string, v: Value, ttl: nat, now: nat)
    requires Room(cfg, s, keys) && FullKey(cfg, key) in keys
    ensures Victim(cfg, s, FullKey(cfg, key)).None? && Room(cfg, Set(cfg, s, key, v, ttl, now), keys)
  {
    var full := FullKey(cfg, key);
    if full !in s.at {
      var stored := set k | k in s.keys;
      DistinctCardinality(s.keys);
      SubsetCardinality(stored, keys - {full});
      assert |keys - {full}| == |keys| - 1;
    }
  }

  lemma GetInRoom(cfg: Config, s: Cache, keys: set<string>, key: string, now: nat)
    requires Room(cfg, s, keys)
    ensures Room(cfg, Get(cfg, s, key, now).0, keys)
  {
  }

  predicate HoldsGate(cfg: Config, keys: set<string>, id: GateId)
  {
    FullKey(cfg, Encode(FailKey(id))) in keys && FullKey(cfg, Encode(LockKey(id))) in keys
  }

  lemma TripInRoom(cfg: Config, s: Cache, keys: set<string>, id: GateId, now: nat, other: GateId)
    requires Room(cfg, s, keys) && HoldsGate(cfg, keys, id)
    ensures Room(cfg, Trip(cfg, s, id, now).0, keys) && TripSpares(cfg, s, id, now, other)
  {
    var failKey, c := Encode(FailKey(id)), CeilingOf(id);
    var (s1, entry) := Get(cfg, s, failKey, now);
    GetInRoom(cfg, s, keys, failKey, now);
    SetInRoom(cfg, s1, keys, failKey, NextCounter(entry, c.windowSec, now), c.windowSec, now);
    SetInRoom(cfg, Bump(cfg, s, failKey, c.windowSec, now).0, keys, Encode(LockKey(id)), Flag, c.lockSec, now);
  }

  /** The keys of the three ceilings that cover the pair. */
  predicate HoldsPair(cfg: Config, keys: set<string>, user: string, ref: string)
  {
    && HoldsGate(cfg, keys, PairGate(user, ref)) && HoldsGate(cfg, keys, CustomerGate(ref))
    && HoldsGate(cfg, keys, TotalGate(user))
  }

  lemma RecordFailureInRoom(cfg: Config, s: Cache, keys: set<string>, user: string, ref: string, now: nat,
                            other: GateId)
    requires Room(cfg, s, keys) && HoldsPair(cfg, keys, user, ref)
    ensures Room(cfg, RecordFailure(cfg, s, user, ref, now).0, keys)
    ensures RecordFailureSpares(cfg, s, user, ref, now, other)
  {
    var s1 := Trip(cfg, s, PairGate(user, ref), now).0;
    var s2 := Trip(cfg, s1, CustomerGate(ref), now).0;
    TripInRoom(cfg, s, keys, PairGate(user, ref), now, other);
    TripInRoom(cfg, s1, keys, CustomerGate(ref), now, other);
    TripInRoom(cfg, s2, keys, TotalGate(user), now, other);
  }

  lemma CheckLockedInRoom(cfg: Config, s: Cache, keys: set<string>, user: string, ref: string, now: nat)
    requires Room(cfg, s, keys)
    ensures Room(cfg, CheckLocked(cfg, s, user, ref, now).0, keys)
  {
    var k1, k2 := Encode(LockKey(TotalGate(user))), Encode(LockKey(PairGate(user, ref)));
    var s1 := Get(cfg, s, k1, now).0;
    GetInRoom(cfg, s, keys, k1, now);
    GetInRoom(cfg, s1, keys, k2, now);
    GetInRoom(cfg, Get(cfg, s1, k2, now).0, keys, Encode(LockKey(CustomerGate(ref))), now);
  }

  /** A session's resolve result and the three ceilings of a pair: seven keys. */
  function SevenKeys(cfg: Config, user: string, session: string, ref: string): set<string>
  {
    var pair, customer, total := PairGate(user, ref), CustomerGate(ref), TotalGate(user);
    {FullKey(cfg, Encode(InitKey(session))),
     FullKey(cfg, Encode(FailKey(pair))), FullKey(cfg, Encode(LockKey(pair))),
     FullKey(cfg, Encode(FailKey(customer))), FullKey(cfg, Encode(LockKey(customer))),
     FullKey(cfg, Encode(FailKey(total))), FullKey(cfg, Encode(LockKey(total)))}
  }

  lemma {:induction false} AtMostSeven(a: string, b: string, c: string, d: string, e: string, f: string, g: string)
    ensures |{a, b, c, d, e, f, g}| <= 7
  {
    var s := {a, b, c, d, e, f};
    assert {a, b, c, d, e, f, g} == s + {g};
    assert s == {a, b, c, d, e} + {f};
    assert {a, b, c, d, e} == {a, b, c, d} + {e};
  }

  lemma SevenKeysFit(cfg: Config, user: string, session: string, ref: string)
    requires cfg.maxEntries >= 7
    ensures Room(cfg, Store([], map[]), SevenKeys(cfg, user, session, ref))
    ensures HoldsPair(cfg, SevenKeys(cfg, user, session, ref), user, ref)
    ensures FullKey(cfg, Encode(InitKey(session))) in SevenKeys(cfg, user, session, ref)
  {
    var pair, customer, total := PairGate(user, ref), CustomerGate(ref), TotalGate(user);
    AtMostSeven(FullKey(cfg, Encode(InitKey(session))),
                FullKey(cfg, Encode(FailKey(pair))), FullKey(cfg, Encode(LockKey(pair))),
                FullKey(cfg, Encode(FailKey(customer))), FullKey(cfg, Encode(LockKey(customer))),
                FullKey(cfg, Encode(FailKey(total))), FullKey(cfg, Encode(LockKey(total))));
  }
}
