/**
  The in-process cache: an insertion-ordered map of entries with optional expiry,
  bounded by evicting the oldest insertion. Times are milliseconds, lifetimes seconds;
  a lifetime of 0 stands for an absent (or zero) `ttl`, which never expires.
 */
module MemoryCache {
  import opened Prelude
  import Glob

  datatype Config = Config(prefix: string, maxEntries: nat)

  datatype Entry<V> = Entry(value: V, expiry: Option<nat>)

  /** `keys` lists the stored keys in insertion order. */
  datatype Store<V> = Store(keys: seq<string>, at: map<string, Entry<V>>)

  ghost predicate WellFormed<V>(s: Store<V>)
  {
    && (forall k :: k in s.at <==> k in s.keys)
    && Distinct(s.keys)
  }

  ghost predicate Distinct(keys: seq<string>)
  {
    forall i, j :: 0 <= i < j < |keys| ==> keys[i] != keys[j]
  }

  function FullKey(cfg: Config, key: string): string
  {
    if cfg.prefix != "" then cfg.prefix + ":" + key else key
  }

  function Expiry(ttl: nat, now: nat): Option<nat>
  {
    if ttl == 0 then None else Some(now + ttl * 1000)
  }

  /** Read as present by `get`: the expiry instant itself still counts. */
  predicate Live<V>(e: Entry<V>, now: nat)
  {
    e.expiry.None? || now <= e.expiry.value
  }

  /** Counted as present by `setIfNotExist`: the expiry instant is already free. */
  predicate Claimed<V>(e: Entry<V>, now: nat)
  {
    e.expiry.None? || now < e.expiry.value
  }

  function Lookup<V>(s: Store<V>, fullKey: string): Option<Entry<V>>
  {
    if fullKey in s.at then Some(s.at[fullKey]) else None
  }

  // ---- Raw operations of the ordered map ----

  function Without(keys: seq<string>, k: string): (r: seq<string>)
    ensures forall x :: x in r <==> x in keys && x != k
    ensures |r| <= |keys|
    ensures Distinct(keys) ==> Distinct(r)
  {
    if keys == [] then []
    else
      var rest := Without(keys[1..], k);
      assert Distinct(keys) ==> Distinct(keys[1..]) && keys[0] !in keys[1..];
      if keys[0] == k then rest else [keys[0]] + rest
  }

  function Drop<V>(s: Store<V>, fullKey: string): (r: Store<V>)
    ensures WellFormed(s) ==> WellFormed(r)
    ensures |r.keys| <= |s.keys|
    ensures forall k :: Lookup(r, k) == if k == fullKey then None else Lookup(s, k)
  {
    Store(Without(s.keys, fullKey), s.at - {fullKey})
  }

  /** `Map.set`: an existing key keeps its place in the order. */
  function Put<V>(s: Store<V>, fullKey: string, e: Entry<V>): (r: Store<V>)
    ensures WellFormed(s) ==> WellFormed(r)
    ensures forall k :: Lookup(r, k) == if k == fullKey then Some(e) else Lookup(s, k)
  {
    Store(if fullKey in s.at then s.keys else s.keys + [fullKey], s.at[fullKey := e])
  }

  // ---- Cache operations ----

  predicate Full<V>(cfg: Config, s: Store<V>, fullKey: string)
  {
    |s.keys| >= cfg.maxEntries && fullKey !in s.at
  }

  /** The key a `set` of `fullKey` evicts, if any. An empty first key is falsy and stays. */
  function Victim<V>(cfg: Config, s: Store<V>, fullKey: string): Option<string>
  {
    if Full(cfg, s, fullKey) && s.keys != [] && s.keys[0] != "" then Some(s.keys[0]) else None
  }

  function MakeRoom<V>(cfg: Config, s: Store<V>, fullKey: string): (r: Store<V>)
    ensures WellFormed(s) ==> WellFormed(r)
  {
    match Victim(cfg, s, fullKey)
    case None => s
    case Some(v) => Drop(s, v)
  }

  function Get<V>(cfg: Config, s: Store<V>, key: string, now: nat): (r: (Store<V>, Option<V>))
    ensures WellFormed(s) ==> WellFormed(r.0)
  {
    match Lookup(s, FullKey(cfg, key))
    case None => (s, None)
    case Some(e) => if Live(e, now) then (s, Some(e.value)) else (Drop(s, FullKey(cfg, key)), None)
  }

  function Set<V>(cfg: Config, s: Store<V>, key: string, value: V, ttl: nat, now: nat): (r: Store<V>)
    ensures WellFormed(s) ==> WellFormed(r)
  {
    var k := FullKey(cfg, key);
    Put(MakeRoom(cfg, s, k), k, Entry(value, Expiry(ttl, now)))
  }

  /** Whether a `setIfNotExist` wins. */
  predicate Wins<V>(cfg: Config, s: Store<V>, key: string, now: nat)
  {
    var e := Lookup(s, FullKey(cfg, key));
    e.None? || !Claimed(e.value, now)
  }

  function SetIfNotExist<V>(cfg: Config, s: Store<V>, key: string, value: V, ttl: nat, now: nat)
    : (r: (Store<V>, bool))
    ensures WellFormed(s) ==> WellFormed(r.0)
  {
    if Wins(cfg, s, key, now) then (Set(cfg, s, key, value, ttl, now), true) else (s, false)
  }

  function Delete<V>(cfg: Config, s: Store<V>, key: string): (r: Store<V>)
    ensures WellFormed(s) ==> WellFormed(r)
  {
    Drop(s, FullKey(cfg, key))
  }

  /** The keys of `keys` that a predicate selects, dropped one by one. */
  function DropAll<V>(s: Store<V>, keys: seq<string>, doomed: string -> bool): (r: Store<V>)
    ensures WellFormed(s) ==> WellFormed(r)
    ensures |r.keys| <= |s.keys|
    ensures forall k :: Lookup(r, k) == if k in keys && doomed(k) then None else Lookup(s, k)
    decreases |keys|
  {
    if keys == [] then s
    else
      var last := keys[|keys| - 1];
      var r := DropAll(s, keys[..|keys| - 1], doomed);
      if doomed(last) then Drop(r, last) else r
  }

  function CountDoomed(keys: seq<string>, doomed: string -> bool): nat
  {
    if keys == [] then 0
    else CountDoomed(keys[..|keys| - 1], doomed) + if doomed(keys[|keys| - 1]) then 1 else 0
  }

  function MatchesPattern(cfg: Config, pattern: string): string -> bool
  {
    k => Glob.RegexTest(Glob.GlobToRegex(FullKey(cfg, pattern)), k) == Some(true)
  }

  function DeleteByPattern<V>(cfg: Config, s: Store<V>, pattern: string): (r: (Store<V>, nat))
    ensures WellFormed(s) ==> WellFormed(r.0)
  {
    (DropAll(s, s.keys, MatchesPattern(cfg, pattern)), CountDoomed(s.keys, MatchesPattern(cfg, pattern)))
  }

  function Expired<V>(s: Store<V>, now: nat): string -> bool
  {
    k => k in s.at && !Live(s.at[k], now)
  }

  function Cleanup<V>(s: Store<V>, now: nat): (r: Store<V>)
    ensures WellFormed(s) ==> WellFormed(r)
  {
    DropAll(s, s.keys, Expired(s, now))
  }

  /** `ttl`: whole seconds left rounded up, -2 when none are left, -1 without entry or expiry. */
  function Ttl<V>(cfg: Config, s: Store<V>, key: string, now: nat): int
  {
    match Lookup(s, FullKey(cfg, key))
    case Some(Entry(_, Some(x))) =>
      var remaining := if x <= now then 0 else (x - now + 999) / 1000;
      if remaining > 0 then remaining else -2
    case _ => -1
  }

  // ---- The service object ----

  class MemoryCacheService<V> {
    const cfg: Config
    var store: Store<V>

    constructor (prefix: string, maxEntries: nat)
      ensures cfg == Config(prefix, if maxEntries == 0 then 1000 else maxEntries)
      ensures store == Store([], map[]) && WellFormed(store)
    {
      cfg := Config(prefix, if maxEntries == 0 then 1000 else maxEntries);
      store := Store([], map[]);
    }

    method GetKey(key: string, now: nat) returns (value: Option<V>)
      modifies this
      ensures (store, value) == Get(cfg, old(store), key, now)
    {
      var fullKey := FullKey(cfg, key);
      if fullKey !in store.at {
        return None;
      }
      var entry := store.at[fullKey];
      if entry.expiry.Some? && now > entry.expiry.value {
        store := Drop(store, fullKey);
        return None;
      }
      return Some(entry.value);
    }

    method SetKey(key: string, value: V, ttl: nat, now: nat)
      modifies this
      ensures store == Set(cfg, old(store), key, value, ttl, now)
    {
      var fullKey := FullKey(cfg, key);
      var expiry := if ttl != 0 then Some(now + ttl * 1000) else None;
      if |store.keys| >= cfg.maxEntries && fullKey !in store.at {
        if store.keys != [] && store.keys[0] != "" {
          store := Drop(store, store.keys[0]);
        }
      }
      store := Put(store, fullKey, Entry(value, expiry));
    }

    method SetKeyIfNotExist(key: string, value: V, ttl: nat, now: nat) returns (won: bool)
      modifies this
      ensures (store, won) == SetIfNotExist(cfg, old(store), key, value, ttl, now)
    {
      var fullKey := FullKey(cfg, key);
      if fullKey in store.at {
        var existing := store.at[fullKey];
        if existing.expiry.None? || existing.expiry.value > now {
          return false;
        }
      }
      SetKey(key, value, ttl, now);
      return true;
    }

    method DeleteKey(key: string)
      modifies this
      ensures store == Delete(cfg, old(store), key)
    {
      store := Drop(store, FullKey(cfg, key));
    }

    /** Drops the keys that a compiled pattern accepts, counting them. */
    method DropMatching(regexTest: string -> bool) returns (deletedCount: nat)
      modifies this
      ensures store == DropAll(old(store), old(store.keys), regexTest)
      ensures deletedCount == CountDoomed(old(store.keys), regexTest)
    {
      var snapshot := store.keys;
      deletedCount := 0;
      for i := 0 to |snapshot|
        invariant store == DropAll(old(store), snapshot[..i], regexTest)
        invariant deletedCount == CountDoomed(snapshot[..i], regexTest)
      {
        assert snapshot[..i + 1][..i] == snapshot[..i];
        if regexTest(snapshot[i]) {
          store := Drop(store, snapshot[i]);
          deletedCount := deletedCount + 1;
        }
      }
      assert snapshot[..|snapshot|] == snapshot;
    }

    method DeleteKeysByPattern(pattern: string) returns (deletedCount: nat)
      modifies this
      ensures (store, deletedCount) == DeleteByPattern(cfg, old(store), pattern)
    {
      deletedCount := DropMatching(MatchesPattern(cfg, pattern));
    }

    method CleanupExpired(now: nat)
      modifies this
      ensures store == Cleanup(old(store), now)
    {
      var snapshot := store;
      ghost var doomed := Expired(snapshot, now);
      for i := 0 to |snapshot.keys|
        invariant store == DropAll(snapshot, snapshot.keys[..i], doomed)
      {
        assert snapshot.keys[..i + 1][..i] == snapshot.keys[..i];
        var key := snapshot.keys[i];
        if key in snapshot.at && snapshot.at[key].expiry.Some? && now > snapshot.at[key].expiry.value {
          store := Drop(store, key);
        }
      }
      assert snapshot.keys[..|snapshot.keys|] == snapshot.keys;
    }
  }

  // ---- Facts about single operations ----

  lemma FullKeyInjective(cfg: Config, a: string, b: string)
    requires FullKey(cfg, a) == FullKey(cfg, b)
    ensures a == b
  {
    if cfg.prefix != "" {
      var n := |cfg.prefix| + 1;
      assert FullKey(cfg, a)[n..] == a && FullKey(cfg, b)[n..] == b;
    }
  }

  /** A `set` changes the written key and loses the victim; every other entry stays. */
  lemma SetLooks<V>(cfg: Config, s: Store<V>, key: string, value: V, ttl: nat, now: nat, k: string)
    ensures Lookup(Set(cfg, s, key, value, ttl, now), k) ==
            if k == FullKey(cfg, key) then Some(Entry(value, Expiry(ttl, now)))
            else if Victim(cfg, s, FullKey(cfg, key)) == Some(k) then None
            else Lookup(s, k)
  {
  }

  /** A deleted key reads as absent and can be claimed, at every time; other keys read as before. */
  lemma DeletedKeyIsFree<V>(cfg: Config, s: Store<V>, key: string, other: string, now: nat)
    ensures var d := Delete(cfg, s, key);
            && Get(cfg, d, key, now).1.None? && Wins(cfg, d, key, now)
            && (other != key ==> Get(cfg, d, other, now).1 == Get(cfg, s, other, now).1
                                 && (Wins(cfg, d, other, now) <==> Wins(cfg, s, other, now)))
  {
    if other != key && FullKey(cfg, other) == FullKey(cfg, key) {
      FullKeyInjective(cfg, other, key);
    }
    assert Lookup(Delete(cfg, s, key), FullKey(cfg, other)) ==
           if FullKey(cfg, other) == FullKey(cfg, key) then None else Lookup(s, FullKey(cfg, other));
  }

  /**
    A written value is read up to and at the end of its lifetime, can be claimed by others from that very
    instant on, and without a lifetime is read for ever and never claimed.
   */
  lemma SetLivesExactly<V>(cfg: Config, s: Store<V>, key: string, value: V, ttl: nat, now: nat, later: nat)
    ensures var s' := Set(cfg, s, key, value, ttl, now);
            && Get(cfg, s', key, later).1 == (if ttl == 0 || later <= now + ttl * 1000 then Some(value) else None)
            && (Wins(cfg, s', key, later) <==> ttl != 0 && later >= now + ttl * 1000)
  {
    SetLooks(cfg, s, key, value, ttl, now, FullKey(cfg, key));
  }

  /** `ttl` of a written value: the whole seconds left, rounded up; -2 from the end on; -1 without lifetime. */
  lemma TtlExactly<V>(cfg: Config, s: Store<V>, key: string, value: V, ttl: nat, now: nat, later: nat)
    ensures var left := Ttl(cfg, Set(cfg, s, key, value, ttl, now), key, later);
            && (ttl == 0 ==> left == -1)
            && (ttl != 0 && later >= now + ttl * 1000 ==> left == -2)
            && (ttl != 0 && later < now + ttl * 1000 ==>
                  left > 0 && later + (left - 1) * 1000 < now + ttl * 1000 <= later + left * 1000)
    ensures Ttl(cfg, Delete(cfg, s, key), key, later) == -1
  {
    SetLooks(cfg, s, key, value, ttl, now, FullKey(cfg, key));
  }

  /** The cleanup drops exactly the entries whose end has passed, and no read notices. */
  lemma CleanupIsExact<V>(cfg: Config, s: Store<V>, now: nat, k: string, key: string)
    requires WellFormed(s)
    ensures k in Cleanup(s, now).at <==> k in s.at && !(s.at[k].expiry.Some? && s.at[k].expiry.value < now)
    ensures k in Cleanup(s, now).at ==> Cleanup(s, now).at[k] == s.at[k]
    ensures Get(cfg, Cleanup(s, now), key, now).1 == Get(cfg, s, key, now).1
  {
    var c := Cleanup(s, now);
    assert Lookup(c, k) == if k in s.keys && Expired(s, now)(k) then None else Lookup(s, k);
    var f := FullKey(cfg, key);
    assert Lookup(c, f) == if f in s.keys && Expired(s, now)(f) then None else Lookup(s, f);
  }

  /**
    The bound is kept exactly when there is room, the key is present, or the oldest key is
    not the empty string (which the eviction test reads as "no key").
   */
  lemma SizeBoundKeptExactly<V>(cfg: Config, s: Store<V>, key: string, value: V, ttl: nat, now: nat)
    requires WellFormed(s) && cfg.maxEntries > 0 && |s.keys| <= cfg.maxEntries
    ensures |Set(cfg, s, key, value, ttl, now).keys| <= cfg.maxEntries
            <==> !Full(cfg, s, FullKey(cfg, key)) || s.keys[0] != ""
  {
  }

  /** The failing family is inhabited: one slot, the empty key first, then any other key. */
  lemma EmptyKeyOverflows(v: int)
    ensures var cfg := Config("", 1);
            |Set(cfg, Set(cfg, Store([], map[]), "", v, 0, 0), "a", v, 0, 0).keys| == 2
  {
  }

  lemma {:induction false} CountIsCardinality(keys: seq<string>, doomed: string -> bool)
    requires Distinct(keys)
    ensures CountDoomed(keys, doomed) == |set k | k in keys && doomed(k)|
  {
    if keys != [] {
      var init, last := keys[..|keys| - 1], keys[|keys| - 1];
      CountIsCardinality(init, doomed);
      var before := set k | k in init && doomed(k);
      var after := set k | k in keys && doomed(k);
      assert keys == init + [last];
      if doomed(last) {
        assert last !in before;
        assert after == before + {last};
      } else {
        assert after == before;
      }
    }
  }

  lemma PatternMeaning(cfg: Config, pattern: string, key: string)
    requires Glob.NoLineTerminator(key)
    ensures MatchesPattern(cfg, pattern)(key) == Glob.GlobAccepts(FullKey(cfg, pattern), key)
  {
    Glob.GlobTranslationPreservesMeaning(FullKey(cfg, pattern), key);
  }

  lemma StoreExtensionality<V>(r: Store<V>, s: Store<V>, gone: set<string>)
    requires forall k :: Lookup(r, k) == if k in gone then None else Lookup(s, k)
    ensures r.at == s.at - gone
  {
    forall k ensures k in r.at <==> k in s.at - gone {
      assert k in r.at <==> Lookup(r, k).Some?;
    }
    forall k | k in r.at ensures r.at[k] == s.at[k] {
      assert Lookup(r, k) == Lookup(s, k);
    }
  }

  lemma DropAllIsExact<V>(s: Store<V>, doomed: string -> bool, denoted: set<string>)
    requires WellFormed(s) && denoted <= s.at.Keys
    requires forall k :: k in s.at ==> (doomed(k) <==> k in denoted)
    ensures CountDoomed(s.keys, doomed) == |denoted|
    ensures DropAll(s, s.keys, doomed).at == s.at - denoted
  {
    CountIsCardinality(s.keys, doomed);
    assert (set k | k in s.keys && doomed(k)) == denoted;
    StoreExtensionality(DropAll(s, s.keys, doomed), s, denoted);
  }

  /** The stored keys that a (full) pattern denotes. */
  ghost function Denoted<V>(s: Store<V>, fullPattern: string): set<string>
  {
    set k | k in s.at && Glob.GlobAccepts(fullPattern, k)
  }

  /** `deleteByPattern` removes exactly the denoted keys, keeps the rest, and returns their number. */
  lemma DeleteByPatternIsExact<V>(cfg: Config, s: Store<V>, pattern: string)
    requires WellFormed(s)
    requires forall k :: k in s.at ==> Glob.NoLineTerminator(k)
    ensures DeleteByPattern(cfg, s, pattern).0.at == s.at - Denoted(s, FullKey(cfg, pattern))
    ensures DeleteByPattern(cfg, s, pattern).1 == |Denoted(s, FullKey(cfg, pattern))|
  {
    var doomed := MatchesPattern(cfg, pattern);
    var denoted := Denoted(s, FullKey(cfg, pattern));
    forall k | k in s.at ensures doomed(k) <==> k in denoted {
      PatternMeaning(cfg, pattern, k);
    }
    DropAllIsExact(s, doomed, denoted);
  }
}
