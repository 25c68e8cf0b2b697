/**
  Whole runs of the in-process cache, compared with an unbounded timed map that never evicts,
  never drops lazily and never cleans up.
 */
module CacheRuns {
  import opened Prelude
  import opened MemoryCache

  datatype Op<V> =
    | DoGet(key: string, now: nat)
    | DoSet(key: string, value: V, ttl: nat, now: nat)
    | DoClaim(key: string, value: V, ttl: nat, now: nat)  // setIfNotExist
    | DoDelete(key: string, now: nat)
    | DoDeletePattern(pattern: string, now: nat)
    | DoCleanup(now: nat)

  function Step<V>(cfg: Config, s: Store<V>, op: Op<V>): Store<V>
  {
    match op
    case DoGet(key, now) => Get(cfg, s, key, now).0
    case DoSet(key, value, ttl, now) => Set(cfg, s, key, value, ttl, now)
    case DoClaim(key, value, ttl, now) => SetIfNotExist(cfg, s, key, value, ttl, now).0
    case DoDelete(key, _) => Delete(cfg, s, key)
    case DoDeletePattern(pattern, _) => DeleteByPattern(cfg, s, pattern).0
    case DoCleanup(now) => Cleanup(s, now)
  }

  function Exec<V>(cfg: Config, s: Store<V>, ops: seq<Op<V>>): Store<V>
    decreases |ops|
  {
    if ops == [] then s else Exec(cfg, Step(cfg, s, ops[0]), ops[1..])
  }

  /** The clock never runs backwards. */
  predicate Timed<V>(clock: nat, ops: seq<Op<V>>)
    decreases |ops|
  {
    ops == [] || (clock <= ops[0].now && Timed(ops[0].now, ops[1..]))
  }

  // ---- The reference: a timed map that is told only which keys eviction took ----

  datatype Reference<V> = Reference(
    last: map<string, Entry<V>>,   // latest write of each key since its last deletion
    evicted: set<string>)          // keys taken by eviction since their latest write

  /** The timed map's own verdict on a claim: the key is free, gone, or its time is up. */
  predicate RefWins<V>(ref: Reference<V>, fullKey: string, now: nat)
  {
    fullKey in ref.evicted || fullKey !in ref.last || !Claimed(ref.last[fullKey], now)
  }

  predicate RefWrites<V>(cfg: Config, op: Op<V>, ref: Reference<V>)
  {
    op.DoSet? || (op.DoClaim? && RefWins(ref, FullKey(cfg, op.key), op.now))
  }

  function RefStep<V>(cfg: Config, op: Op<V>, victim: Option<string>, ref: Reference<V>): Reference<V>
  {
    if RefWrites(cfg, op, ref) then
      var k := FullKey(cfg, op.key);
      Reference(ref.last[k := Entry(op.value, Expiry(op.ttl, op.now))],
                (if victim.Some? then ref.evicted + {victim.value} else ref.evicted) - {k})
    else if op.DoDelete? then ref.(last := ref.last - {FullKey(cfg, op.key)})
    else if op.DoDeletePattern? then
      ref.(last := map k | k in ref.last && !MatchesPattern(cfg, op.pattern)(k) :: ref.last[k])
    else ref
  }

  /** Does this operation, run on `s`, store its value? */
  predicate Writes<V>(cfg: Config, s: Store<V>, op: Op<V>)
  {
    op.DoSet? || (op.DoClaim? && Wins(cfg, s, op.key, op.now))
  }

  /** The key that eviction takes in this step of the cache. */
  function Lost<V>(cfg: Config, s: Store<V>, op: Op<V>): Option<string>
  {
    if Writes(cfg, s, op) then Victim(cfg, s, FullKey(cfg, op.key)) else None
  }

  function RefExec<V>(cfg: Config, s: Store<V>, ops: seq<Op<V>>, ref: Reference<V>): Reference<V>
    decreases |ops|
  {
    if ops == [] then ref
    else RefExec(cfg, Step(cfg, s, ops[0]), ops[1..], RefStep(cfg, ops[0], Lost(cfg, s, ops[0]), ref))
  }

  /** What the timed map answers. */
  function RefGet<V>(ref: Reference<V>, fullKey: string, now: nat): Option<V>
  {
    if fullKey in ref.last && Live(ref.last[fullKey], now) then Some(ref.last[fullKey].value) else None
  }

  ghost predicate Agree<V>(s: Store<V>, ref: Reference<V>, now: nat)
  {
    && WellFormed(s)
    && (forall k :: k in s.at ==> k in ref.last && ref.last[k] == s.at[k] && k !in ref.evicted)
    && (forall k :: k in ref.last && k !in ref.evicted && k !in s.at ==> !Live(ref.last[k], now))
  }

  // ---- Insertion order ----

  /** When, in operations, each stored key entered the order. */
  datatype Births = Births(born: map<string, nat>, count: nat)

  function BirthStep<V>(cfg: Config, s: Store<V>, op: Op<V>, b: Births): Births
  {
    if Writes(cfg, s, op) && FullKey(cfg, op.key) !in s.at
    then Births(b.born[FullKey(cfg, op.key) := b.count], b.count + 1)
    else Births(b.born, b.count + 1)
  }

  function BirthExec<V>(cfg: Config, s: Store<V>, ops: seq<Op<V>>, b: Births): Births
    decreases |ops|
  {
    if ops == [] then b else BirthExec(cfg, Step(cfg, s, ops[0]), ops[1..], BirthStep(cfg, s, ops[0], b))
  }

  /** Keys stand in the order in which they were inserted. */
  ghost predicate InBirthOrder<V>(s: Store<V>, b: Births)
  {
    && WellFormed(s)
    && (forall k :: k in s.at ==> k in b.born && b.born[k] < b.count)
    && Increasing(s.keys, b.born)
  }

  ghost predicate Increasing(keys: seq<string>, born: map<string, nat>)
  {
    && (forall k :: k in keys ==> k in born)
    && forall i, j :: 0 <= i < j < |keys| ==> born[keys[i]] < born[keys[j]]
  }

  /** Under agreement the cache and the timed map decide every claim alike. */
  lemma ClaimsDecidedAlike<V>(cfg: Config, s: Store<V>, ref: Reference<V>, clock: nat, key: string, now: nat)
    requires Agree(s, ref, clock) && clock <= now
    ensures Wins(cfg, s, key, now) <==> RefWins(ref, FullKey(cfg, key), now)
  {
  }

  lemma StepAgrees<V>(cfg: Config, s: Store<V>, op: Op<V>, ref: Reference<V>, clock: nat)
    requires Agree(s, ref, clock) && clock <= op.now
    ensures Agree(Step(cfg, s, op), RefStep(cfg, op, Lost(cfg, s, op), ref), op.now)
  {
    var s', ref' := Step(cfg, s, op), RefStep(cfg, op, Lost(cfg, s, op), ref);
    if op.DoClaim? {
      ClaimsDecidedAlike(cfg, s, ref, clock, op.key, op.now);
    }
    forall k
      ensures k in s'.at ==> k in ref'.last && ref'.last[k] == s'.at[k] && k !in ref'.evicted
      ensures k in ref'.last && k !in ref'.evicted && k !in s'.at ==> !Live(ref'.last[k], op.now)
    {
      assert k in s'.at <==> Lookup(s', k).Some?;
      assert k in s.at <==> Lookup(s, k).Some?;
    }
  }

  lemma {:induction false} WithoutKeepsOrder(keys: seq<string>, k: string, born: map<string, nat>)
    requires Increasing(keys, born)
    ensures Increasing(Without(keys, k), born)
  {
    if keys != [] {
      WithoutKeepsOrder(keys[1..], k, born);
      assert forall x :: x in keys[1..] ==> born[keys[0]] < born[x];
    }
  }

  lemma {:induction false} DropAllKeepsOrder<V>(s: Store<V>, keys: seq<string>, doomed: string -> bool,
                                                born: map<string, nat>)
    requires Increasing(s.keys, born)
    ensures Increasing(DropAll(s, keys, doomed).keys, born)
    decreases |keys|
  {
    if keys != [] {
      DropAllKeepsOrder(s, keys[..|keys| - 1], doomed, born);
      WithoutKeepsOrder(DropAll(s, keys[..|keys| - 1], doomed).keys, keys[|keys| - 1], born);
    }
  }

  lemma PutKeepsOrder<V>(s: Store<V>, k: string, e: Entry<V>, born: map<string, nat>, count: nat)
    requires WellFormed(s) && Increasing(s.keys, born)
    requires forall x :: x in s.at ==> born[x] < count
    ensures k in s.at ==> Increasing(Put(s, k, e).keys, born)
    ensures k !in s.at ==> Increasing(Put(s, k, e).keys, born[k := count])
  {
  }

  lemma MakeRoomKeepsBirthOrder<V>(cfg: Config, s: Store<V>, k: string, b: Births)
    requires InBirthOrder(s, b)
    ensures var room := MakeRoom(cfg, s, k);
            && WellFormed(room) && Increasing(room.keys, b.born)
            && (forall x :: x in room.at ==> x in s.at) && (k in room.at <==> k in s.at)
  {
    var victim := Victim(cfg, s, k);
    if victim.Some? {
      WithoutKeepsOrder(s.keys, victim.value, b.born);
    }
  }

  lemma WriteKeepsBirthOrder<V>(cfg: Config, s: Store<V>, op: Op<V>, b: Births)
    requires InBirthOrder(s, b) && Writes(cfg, s, op)
    ensures InBirthOrder(Step(cfg, s, op), BirthStep(cfg, s, op, b))
  {
    var k := FullKey(cfg, op.key);
    var e := Entry(op.value, Expiry(op.ttl, op.now));
    var room := MakeRoom(cfg, s, k);
    MakeRoomKeepsBirthOrder(cfg, s, k, b);
    PutKeepsOrder(room, k, e, b.born, b.count);
    PutKeepsBirths(room, k, e, b, BirthStep(cfg, s, op, b));
  }

  lemma PutKeepsBirths<V>(room: Store<V>, k: string, e: Entry<V>, b: Births, b': Births)
    requires WellFormed(room) && forall x :: x in room.at ==> x in b.born && b.born[x] < b.count
    requires b' == Births(if k in room.at then b.born else b.born[k := b.count], b.count + 1)
    requires Increasing(Put(room, k, e).keys, b'.born)
    ensures InBirthOrder(Put(room, k, e), b')
  {
    assert forall x :: x in Put(room, k, e).at ==> x == k || x in room.at;
  }

  lemma DropKeepsBirthOrder<V>(s: Store<V>, s': Store<V>, b: Births, b': Births)
    requires InBirthOrder(s, b) && WellFormed(s') && Increasing(s'.keys, b.born)
    requires forall k :: Lookup(s', k).None? || Lookup(s', k) == Lookup(s, k)
    requires b'.born == b.born && b'.count > b.count
    ensures InBirthOrder(s', b')
  {
    assert forall k :: k in s'.at <==> Lookup(s', k).Some?;
  }

  lemma StepKeepsBirthOrder<V>(cfg: Config, s: Store<V>, op: Op<V>, b: Births)
    requires InBirthOrder(s, b)
    ensures InBirthOrder(Step(cfg, s, op), BirthStep(cfg, s, op, b))
  {
    if Writes(cfg, s, op) {
      WriteKeepsBirthOrder(cfg, s, op, b);
    } else {
      match op {
        case DoCleanup(now) => DropAllKeepsOrder(s, s.keys, Expired(s, now), b.born);
        case DoDeletePattern(p, _) => DropAllKeepsOrder(s, s.keys, MatchesPattern(cfg, p), b.born);
        case DoDelete(key, _) => WithoutKeepsOrder(s.keys, FullKey(cfg, key), b.born);
        case DoGet(key, _) => WithoutKeepsOrder(s.keys, FullKey(cfg, key), b.born);
        case DoClaim(_, _, _, _) =>
      }
      DropKeepsBirthOrder(s, Step(cfg, s, op), b, BirthStep(cfg, s, op, b));
    }
  }

  /** The time of the last operation. */
  function EndOf<V>(clock: nat, ops: seq<Op<V>>): nat
    decreases |ops|
  {
    if ops == [] then clock else EndOf(ops[0].now, ops[1..])
  }

  lemma {:induction false} RunAgrees<V>(cfg: Config, s: Store<V>, ops: seq<Op<V>>, ref: Reference<V>, clock: nat)
    requires Agree(s, ref, clock) && Timed(clock, ops)
    ensures Agree(Exec(cfg, s, ops), RefExec(cfg, s, ops, ref), EndOf(clock, ops))
    decreases |ops|
  {
    if ops != [] {
      var s', ref' := Step(cfg, s, ops[0]), RefStep(cfg, ops[0], Lost(cfg, s, ops[0]), ref);
      StepAgrees(cfg, s, ops[0], ref, clock);
      RunAgrees(cfg, s', ops[1..], ref', ops[0].now);
    }
  }

  lemma {:induction false} RunKeepsBirthOrder<V>(cfg: Config, s: Store<V>, ops: seq<Op<V>>, b: Births)
    requires InBirthOrder(s, b)
    ensures InBirthOrder(Exec(cfg, s, ops), BirthExec(cfg, s, ops, b))
    decreases |ops|
  {
    if ops != [] {
      var s', b' := Step(cfg, s, ops[0]), BirthStep(cfg, s, ops[0], b);
      StepKeepsBirthOrder(cfg, s, ops[0], b);
      RunKeepsBirthOrder(cfg, s', ops[1..], b');
    }
  }

  function EmptyStore<V>(): Store<V> { Store([], map[]) }
  function EmptyReference<V>(): Reference<V> { Reference(map[], {}) }

  /**
    The bounded cache refines the timed map: after any timed run, a `get` answers what the timed
    map answers, except that keys taken by eviction since their last write read as absent.
   */
  lemma BoundedCacheRefinesTimedMap<V>(cfg: Config, ops: seq<Op<V>>, key: string, now: nat)
    requires Timed(0, ops) && EndOf(0, ops) <= now
    ensures var ref := RefExec(cfg, EmptyStore(), ops, EmptyReference());
            var k := FullKey(cfg, key);
            Get(cfg, Exec(cfg, EmptyStore(), ops), key, now).1 ==
              if k in ref.evicted then None else RefGet(ref, k, now)
  {
    RunAgrees(cfg, EmptyStore<V>(), ops, EmptyReference<V>(), 0);
  }

  /** ... and a `setIfNotExist` wins exactly when the timed map says so. */
  lemma ClaimsRefineTimedMap<V>(cfg: Config, ops: seq<Op<V>>, key: string, v: V, ttl: nat, now: nat)
    requires Timed(0, ops) && EndOf(0, ops) <= now
    ensures SetIfNotExist(cfg, Exec(cfg, EmptyStore<V>(), ops), key, v, ttl, now).1 <==>
            RefWins(RefExec(cfg, EmptyStore(), ops, EmptyReference()), FullKey(cfg, key), now)
  {
    RunAgrees(cfg, EmptyStore<V>(), ops, EmptyReference<V>(), 0);
    ClaimsDecidedAlike(cfg, Exec(cfg, EmptyStore<V>(), ops), RefExec(cfg, EmptyStore<V>(), ops, EmptyReference<V>()),
                       EndOf(0, ops), key, now);
  }

  /** Eviction takes the oldest insertion. */
  lemma EvictionTakesTheOldest<V>(cfg: Config, ops: seq<Op<V>>, k: string)
    ensures var s := Exec(cfg, EmptyStore<V>(), ops);
            var born := BirthExec(cfg, EmptyStore<V>(), ops, Births(map[], 0)).born;
            var victim := Victim(cfg, s, k);
            victim.Some? ==>
              && victim.value in s.at && victim.value in born
              && forall x :: x in s.at && x != victim.value ==> x in born && born[victim.value] < born[x]
  {
    RunKeepsBirthOrder(cfg, EmptyStore<V>(), ops, Births(map[], 0));
    var s := Exec(cfg, EmptyStore<V>(), ops);
    var born := BirthExec(cfg, EmptyStore<V>(), ops, Births(map[], 0)).born;
    forall x | x in s.at && s.keys != [] && x != s.keys[0]
      ensures x in born && born[s.keys[0]] < born[x]
    {
      var i :| 0 <= i < |s.keys| && s.keys[i] == x;
    }
  }

  // ---- Size ----

  predicate NonEmptyKeys<V>(cfg: Config, ops: seq<Op<V>>)
  {
    forall i :: 0 <= i < |ops| && (ops[i].DoSet? || ops[i].DoClaim?) ==> FullKey(cfg, ops[i].key) != ""
  }

  lemma {:induction false} SizeNeverExceedsBound<V>(cfg: Config, s: Store<V>, ops: seq<Op<V>>)
    requires WellFormed(s) && 0 < cfg.maxEntries && |s.keys| <= cfg.maxEntries && "" !in s.keys
    requires NonEmptyKeys(cfg, ops)
    ensures |Exec(cfg, s, ops).keys| <= cfg.maxEntries
    decreases |ops|
  {
    if ops != [] {
      var op := ops[0];
      var s' := Step(cfg, s, op);
      assert Lookup(s, "").None?;
      assert Lookup(s', "").None? && "" !in s'.at;
      if op.DoSet? || op.DoClaim? {
        SizeBoundKeptExactly(cfg, s, op.key, op.value, op.ttl, op.now);
      }
      assert NonEmptyKeys(cfg, ops[1..]) by {
        assert forall i :: 0 <= i < |ops| - 1 ==> ops[1..][i] == ops[i + 1];
      }
      SizeNeverExceedsBound(cfg, s', ops[1..]);
    }
  }

  // ---- Winning claims ----

  /** This operation may end or change the entry of `k` before its time. */
  predicate Disturbs<V>(cfg: Config, s: Store<V>, op: Op<V>, k: string)
  {
    || (op.DoSet? && FullKey(cfg, op.key) == k)
    || (op.DoDelete? && FullKey(cfg, op.key) == k)
    || (op.DoDeletePattern? && MatchesPattern(cfg, op.pattern)(k))
    || (Writes(cfg, s, op) && Victim(cfg, s, FullKey(cfg, op.key)) == Some(k))
  }

  predicate Undisturbed<V>(cfg: Config, s: Store<V>, ops: seq<Op<V>>, k: string)
    decreases |ops|
  {
    ops == [] || (!Disturbs(cfg, s, ops[0], k) && Undisturbed(cfg, Step(cfg, s, ops[0]), ops[1..], k))
  }

  lemma HeldStep<V>(cfg: Config, s: Store<V>, op: Op<V>, k: string, until: nat)
    requires !Disturbs(cfg, s, op, k) && op.now < until
    requires k in s.at && s.at[k].expiry == Some(until)
    ensures var s' := Step(cfg, s, op); k in s'.at && s'.at[k].expiry == Some(until)
  {
    var s' := Step(cfg, s, op);
    assert Lookup(s, k) == Some(s.at[k]);
    assert Lookup(s', k) == Lookup(s, k);
  }

  lemma {:induction false} HeldRun<V>(cfg: Config, s: Store<V>, ops: seq<Op<V>>, k: string, clock: nat, until: nat)
    requires Timed(clock, ops) && Undisturbed(cfg, s, ops, k)
    requires k in s.at && s.at[k].expiry == Some(until)
    requires EndOf(clock, ops) < until
    ensures var r := Exec(cfg, s, ops); k in r.at && r.at[k].expiry == Some(until)
    decreases |ops|
  {
    if ops != [] {
      TimedBound(ops[0].now, ops[1..]);
      HeldStep(cfg, s, ops[0], k, until);
      HeldRun(cfg, Step(cfg, s, ops[0]), ops[1..], k, ops[0].now, until);
    }
  }

  lemma {:induction false} TimedBound<V>(clock: nat, ops: seq<Op<V>>)
    requires Timed(clock, ops)
    ensures clock <= EndOf(clock, ops)
    decreases |ops|
  {
    if ops != [] {
      TimedBound(ops[0].now, ops[1..]);
    }
  }

  /**
    Two winning claims of one key are at least the first one's lifetime apart, whatever happens
    in between, unless an overwrite, a deletion or an eviction of that key came between.
   */
  lemma WinningClaimsAreSpaced<V>(cfg: Config, s: Store<V>, key: string, v: V, ttl: nat,
                                  t1: nat, between: seq<Op<V>>, t2: nat)
    requires ttl > 0 && Wins(cfg, s, key, t1)
    requires Timed(t1, between) && EndOf(t1, between) <= t2
    requires var s1 := SetIfNotExist(cfg, s, key, v, ttl, t1).0;
             && Undisturbed(cfg, s1, between, FullKey(cfg, key))
             && Wins(cfg, Exec(cfg, s1, between), key, t2)
    ensures t2 >= t1 + ttl * 1000
  {
    var k := FullKey(cfg, key);
    var s1 := SetIfNotExist(cfg, s, key, v, ttl, t1).0;
    var until := t1 + ttl * 1000;
    assert Lookup(s1, k) == Some(Entry(v, Some(until)));
    if t2 < until {
      HeldRun(cfg, s1, between, k, t1, until);
    }
  }
}
