/** The read cache is invisible: what runs of port calls answer, against calling the adapter directly. */
module PortTransparency {
  import opened Prelude
  import opened MemoryCache
  import opened PortRegistry
  import CB = CircuitBreaker
  import Glob

  datatype Step = Do(call: Call, key: Option<string>, out: Outcome, now: nat) | Replayed(call: Call)

  function Next<D>(env: Env<D>, net: Net<D>, s: Step): Net<D>
    requires s.call.port in env.ports ==> s.call.port in net.world && s.call.port in net.breakers
  {
    match s
    case Do(c, key, out, now) => Execute(env, net, c, key, out, now).0
    case Replayed(c) => if c.port in env.ports then Replay(env, net, c) else net
  }

  lemma NextRegistered<D>(env: Env<D>, net: Net<D>, s: Step)
    requires Registered(env, net)
    ensures Registered(env, Next(env, net, s))
  {
  }

  function Run<D>(env: Env<D>, net: Net<D>, steps: seq<Step>): (r: Net<D>)
    requires Registered(env, net)
    ensures Registered(env, r)
    decreases |steps|
  {
    if steps == [] then net
    else
      NextRegistered(env, net, steps[0]);
      Run(env, Next(env, net, steps[0]), steps[1..])
  }

  // ---- Assumptions ----

  /** Methods that are not recognised as mutations leave the answers of cacheable reads as they were. */
  ghost predicate ReadsUnaffected<D(!new)>(env: Env<D>)
  {
    forall w: Call, r: Call, d: D ::
      !IsMutation(w.name) && w.port == r.port && Cacheable(env, r) ==>
        AnswerKept(env, AdapterOf(env, w.port), w, r, d) && AnswerKept(env, env.live, w, r, d)
  }

  /** Running `w` through this adapter does not change what the port answers to `r`. */
  ghost predicate AnswerKept<D>(env: Env<D>, adapter: Adapter<D>, w: Call, r: Call, d: D)
  {
    AdapterOf(env, r.port)(r.port, r.name, r.params, adapter(w.port, w.name, w.params, d).1).0
    == AdapterOf(env, r.port)(r.port, r.name, r.params, d).0
  }

  /** A mutation takes effect only by succeeding through `execute`. */
  predicate Invalidating(s: Step)
  {
    match s
    case Do(c, _, Throws(_, applied), _) => applied ==> !IsMutation(c.name)
    case Do(_, _, Works, _) => true
    case Replayed(c) => !IsMutation(c.name)
  }

  predicate SameKey<D>(env: Env<D>, c1: Call, c2: Call)
  {
    c1.port == c2.port && env.hash(c1.name, c1.params) == env.hash(c2.name, c2.params)
  }

  /** The calls in `q` have hex-like hashes without collisions within a port. */
  ghost predicate CollisionFree<D>(env: Env<D>, q: set<Call>)
  {
    && (forall c :: c in q ==>
          ':' !in env.hash(c.name, c.params) && SingleLine(FullKey(env.cacheCfg, CacheKey(env, c))))
    && (forall c1, c2 :: c1 in q && c2 in q && SameKey(env, c1, c2) ==> c1 == c2)
  }

  // ---- The invariant: every cached read is what the downstream would say now ----

  function Cached<D>(env: Env<D>, s: Store<string>, r: Call): Option<Entry<string>>
  {
    Lookup(s, FullKey(env.cacheCfg, CacheKey(env, r)))
  }

  ghost predicate CurrentFor<D>(env: Env<D>, net: Net<D>, r: Call)
    requires Registered(env, net)
  {
    Cacheable(env, r) && Cached(env, net.cache, r).Some? ==>
      Cached(env, net.cache, r).value.value == Direct(env, net, r)
  }

  ghost predicate KeptOrLost(before: Option<Entry<string>>, after: Option<Entry<string>>)
  {
    after.None? || after == before
  }

  /** A call to another port, or one that keeps the answer, changes nothing for a read. */
  lemma SilentKeepsCurrent<D>(env: Env<D>, net: Net<D>, net': Net<D>, r: Call)
    requires Registered(env, net) && Registered(env, net') && CurrentFor(env, net, r)
    requires KeptOrLost(Cached(env, net.cache, r), Cached(env, net'.cache, r))
    requires Cacheable(env, r) ==> Direct(env, net', r) == Direct(env, net, r)
    ensures CurrentFor(env, net', r)
  {
  }

  /** Invalidation takes every read of the port and at most loses others. */
  lemma InvalidationOn<D>(env: Env<D>, s: Store<string>, c: Call, r: Call)
    requires WellFormed(s) && SingleLine(FullKey(env.cacheCfg, CacheKey(env, r)))
    ensures KeptOrLost(Cached(env, s, r), Cached(env, Invalidated(env, s, c), r))
    ensures IsMutation(c.name) && c.port == r.port ==> Cached(env, Invalidated(env, s, c), r).None?
  {
    if IsMutation(c.name) && c.port == r.port {
      PatternCoversOwnKeys(env, r);
    }
  }

  lemma ReadKeysApart<D>(env: Env<D>, c: Call, r: Call, q: set<Call>)
    requires CollisionFree(env, q) && c in q && r in q && c != r
    ensures FullKey(env.cacheCfg, CacheKey(env, c)) != FullKey(env.cacheCfg, CacheKey(env, r))
  {
    if FullKey(env.cacheCfg, CacheKey(env, c)) == FullKey(env.cacheCfg, CacheKey(env, r)) {
      KeysTellCallsApart(env, c, r);
      assert SameKey(env, c, r);
    }
  }

  /** Writing one key keeps or loses the entry of another. */
  lemma SetLoses(cfg: Config, s: Store<string>, key: string, v: string, ttl: nat, now: nat, k: string)
    requires k != FullKey(cfg, key)
    ensures KeptOrLost(Lookup(s, k), Lookup(Set(cfg, s, key, v, ttl, now), k))
  {
  }

  /** The cache write stores this call's answer under a key that no other call of `q` has. */
  lemma CacheWriteOn<D>(env: Env<D>, s: Store<string>, c: Call, data: string, now: nat, r: Call, q: set<Call>)
    requires CollisionFree(env, q) && c in q && r in q
    ensures var after := Cached(env, Remembered(env, s, c, data, now), r);
            KeptOrLost(Cached(env, s, r), after) || (r == c && Cacheable(env, c) && after.value.value == data)
  {
    if Cacheable(env, c) && r != c {
      ReadKeysApart(env, c, r, q);
      SetLoses(env.cacheCfg, s, CacheKey(env, c), data, env.ports[c.port].cacheTtl, now,
               FullKey(env.cacheCfg, CacheKey(env, r)));
    }
  }

  /** The idempotency store writes no read's key. */
  lemma DedupWriteOn<D>(env: Env<D>, s: Store<string>, key: Option<string>, data: string, now: nat, r: Call)
    ensures KeptOrLost(Cached(env, s, r), Cached(env, Deduplicated(env, s, key, data, now), r))
  {
    if Keyed(env, key) {
      DedupKeysApart(env, key.value, r);
      SetLoses(env.cacheCfg, s, DedupKey(env, key.value), data, KEY_TTL, now, FullKey(env.cacheCfg, CacheKey(env, r)));
    }
  }

  lemma DedupKeysApart<D>(env: Env<D>, key: string, r: Call)
    ensures FullKey(env.cacheCfg, DedupKey(env, key)) != FullKey(env.cacheCfg, CacheKey(env, r))
  {
    assert CacheKey(env, r)[0] == 'c' && DedupKey(env, key)[0] == 'i';
    if FullKey(env.cacheCfg, DedupKey(env, key)) == FullKey(env.cacheCfg, CacheKey(env, r)) {
      FullKeyInjective(env.cacheCfg, CacheKey(env, r), DedupKey(env, key));
    }
  }

  lemma AfterSuccessOn<D>(env: Env<D>, s: Store<string>, c: Call, key: Option<string>, data: string, now: nat,
                          r: Call, q: set<Call>)
    requires CollisionFree(env, q) && c in q && r in q && WellFormed(s)
    ensures var after := Cached(env, AfterSuccess(env, s, c, key, data, now), r);
            || (KeptOrLost(Cached(env, s, r), after) && (IsMutation(c.name) && c.port == r.port ==> after.None?))
            || (r == c && Cacheable(env, c) && after.Some? && after.value.value == data)
  {
    var s1 := Invalidated(env, s, c);
    var s2 := Remembered(env, s1, c, data, now);
    InvalidationOn(env, s, c, r);
    CacheWriteOn(env, s1, c, data, now, r, q);
    DedupWriteOn(env, s2, key, data, now, r);
  }

  /** After a successful call: the answer is unchanged, or every cached read of the port is gone. */
  lemma SuccessKeepsCurrent<D(!new)>(env: Env<D>, net: Net<D>, c: Call, key: Option<string>, now: nat, r: Call,
                                     q: set<Call>)
    requires ReadsUnaffected(env) && CollisionFree(env, q) && c in q && r in q
    requires Registered(env, net) && WellFormed(net.cache) && c.port in env.ports && CurrentFor(env, net, r)
    ensures var net' := CallAdapter(env, net, c, key, Works, now).0; Registered(env, net') && CurrentFor(env, net', r)
  {
    var net' := CallAdapter(env, net, c, key, Works, now).0;
    AfterSuccessOn(env, net.cache, c, key, Direct(env, net, c), now, r, q);
    if Cacheable(env, r) && !(IsMutation(c.name) && c.port == r.port) {
      AnswerUnchanged(env, net, net', c, AdapterOf(env, c.port), r);
    }
  }

  /** A call that is no mutation of the read's port leaves its answer alone. */
  lemma AnswerUnchanged<D(!new)>(env: Env<D>, net: Net<D>, net': Net<D>, c: Call, adapter: Adapter<D>, r: Call)
    requires ReadsUnaffected(env) && Registered(env, net) && c.port in env.ports
    requires adapter == AdapterOf(env, c.port) || adapter == env.live
    requires net'.world == net.world[c.port := adapter(c.port, c.name, c.params, net.world[c.port]).1]
    requires Cacheable(env, r) && !(IsMutation(c.name) && c.port == r.port)
    ensures Direct(env, net', r) == Direct(env, net, r)
  {
    if r.port == c.port {
      assert AnswerKept(env, AdapterOf(env, c.port), c, r, net.world[c.port]);
      assert AnswerKept(env, env.live, c, r, net.world[c.port]);
    }
  }

  lemma FailureKeepsCurrent<D(!new)>(env: Env<D>, net: Net<D>, c: Call, key: Option<string>, out: Outcome, now: nat,
                                     r: Call)
    requires ReadsUnaffected(env) && out.Throws? && Invalidating(Do(c, key, out, now))
    requires Registered(env, net) && c.port in env.ports && CurrentFor(env, net, r)
    ensures var net' := CallAdapter(env, net, c, key, out, now).0; Registered(env, net') && CurrentFor(env, net', r)
  {
    var net' := CallAdapter(env, net, c, key, out, now).0;
    if out.applied && Cacheable(env, r) {
      AnswerUnchanged(env, net, net', c, AdapterOf(env, c.port), r);
    }
    SilentKeepsCurrent(env, net, net', r);
  }

  lemma KnownOn<D>(env: Env<D>, s: Store<string>, c: Call, key: Option<string>, now: nat, r: Call)
    ensures KeptOrLost(Cached(env, s, r), Cached(env, Known(env, s, c, key, now).0, r))
  {
  }

  lemma ExecuteKeepsCurrent<D(!new)>(env: Env<D>, net: Net<D>, c: Call, key: Option<string>, out: Outcome, now: nat,
                                     r: Call, q: set<Call>)
    requires ReadsUnaffected(env) && CollisionFree(env, q) && c in q && r in q && Invalidating(Do(c, key, out, now))
    requires Registered(env, net) && WellFormed(net.cache) && CurrentFor(env, net, r)
    ensures var net' := Execute(env, net, c, key, out, now).0; Registered(env, net') && CurrentFor(env, net', r)
  {
    if c.port in env.ports {
      var (s, known) := Known(env, net.cache, c, key, now);
      var o, b := env.ports[c.port].breaker, net.breakers[c.port];
      KnownOn(env, net.cache, c, key, now, r);
      if known.None? && CB.Admits(o, b, now) {
        var gated := net.(cache := s, breakers := net.breakers[c.port := CB.Next(o, b, CB.Start(now))]);
        SilentKeepsCurrent(env, net, gated, r);
        if out.Works? {
          SuccessKeepsCurrent(env, gated, c, key, now, r, q);
        } else {
          FailureKeepsCurrent(env, gated, c, key, out, now, r);
        }
      } else {
        SilentKeepsCurrent(env, net, Execute(env, net, c, key, out, now).0, r);
      }
    }
  }

  lemma ReplayKeepsCurrent<D(!new)>(env: Env<D>, net: Net<D>, c: Call, r: Call)
    requires ReadsUnaffected(env) && !IsMutation(c.name)
    requires Registered(env, net) && c.port in env.ports && CurrentFor(env, net, r)
    ensures var net' := Replay(env, net, c); Registered(env, net') && CurrentFor(env, net', r)
  {
    if Cacheable(env, r) {
      AnswerUnchanged(env, net, Replay(env, net, c), c, env.live, r);
    }
    SilentKeepsCurrent(env, net, Replay(env, net, c), r);
  }

  lemma ExecuteWellFormed<D>(env: Env<D>, net: Net<D>, c: Call, key: Option<string>, out: Outcome, now: nat)
    requires Registered(env, net) && WellFormed(net.cache)
    ensures WellFormed(Execute(env, net, c, key, out, now).0.cache)
  {
  }

  ghost predicate AllCurrent<D>(env: Env<D>, net: Net<D>, q: set<Call>)
  {
    Registered(env, net) && WellFormed(net.cache) && forall r :: r in q ==> CurrentFor(env, net, r)
  }

  ghost predicate Admissible(steps: seq<Step>, q: set<Call>)
  {
    forall i :: 0 <= i < |steps| ==> Invalidating(steps[i]) && steps[i].call in q
  }

  lemma StepStaysCurrent<D(!new)>(env: Env<D>, net: Net<D>, s: Step, q: set<Call>)
    requires ReadsUnaffected(env) && CollisionFree(env, q) && Invalidating(s) && s.call in q && AllCurrent(env, net, q)
    ensures AllCurrent(env, Next(env, net, s), q)
  {
    NextRegistered(env, net, s);
    if s.Do? {
      ExecuteWellFormed(env, net, s.call, s.key, s.out, s.now);
    }
    forall r | r in q ensures CurrentFor(env, Next(env, net, s), r) {
      if s.Do? {
        ExecuteKeepsCurrent(env, net, s.call, s.key, s.out, s.now, r, q);
      } else if s.call.port in env.ports {
        ReplayKeepsCurrent(env, net, s.call, r);
      }
    }
  }

  lemma {:induction false} RunStaysCurrent<D(!new)>(env: Env<D>, net: Net<D>, steps: seq<Step>, q: set<Call>)
    requires ReadsUnaffected(env) && CollisionFree(env, q) && Admissible(steps, q) && AllCurrent(env, net, q)
    ensures AllCurrent(env, Run(env, net, steps), q)
    decreases |steps|
  {
    if steps != [] {
      StepStaysCurrent(env, net, steps[0], q);
      assert Admissible(steps[1..], q) by {
        assert forall i :: 0 <= i < |steps| - 1 ==> steps[1..][i] == steps[i + 1];
      }
      RunStaysCurrent(env, Next(env, net, steps[0]), steps[1..], q);
    }
  }

  lemma CurrentAnswer<D>(env: Env<D>, net: Net<D>, c: Call, key: Option<string>, out: Outcome, now: nat)
    requires Registered(env, net) && c.port in env.ports && CurrentFor(env, net, c)
    ensures var answer := Execute(env, net, c, key, out, now).1;
            answer.FromCache? || answer.FromAdapter? ==> answer.data == Direct(env, net, c)
  {
    KnownAnswer(env, net.cache, c, key, now);
  }

  /**
    Cache transparency: after any run of non-overlapping calls, whatever was evicted, expired,
    rejected or failed, a call answered from the cache or by the adapter is answered exactly as a
    direct call of the port's configured adapter would be at that moment.
   */
  lemma CacheIsTransparent<D(!new)>(env: Env<D>, net: Net<D>, steps: seq<Step>, c: Call, key: Option<string>,
                                    out: Outcome, now: nat, q: set<Call>)
    requires ReadsUnaffected(env) && CollisionFree(env, q) && Admissible(steps, q) && c in q && c.port in env.ports
    requires Registered(env, net) && net.cache == Store([], map[])
    ensures var at := Run(env, net, steps);
            var answer := Execute(env, at, c, key, out, now).1;
            var direct := if env.mockMode || c.port in env.mockPorts
                          then env.mock(c.port, c.name, c.params, at.world[c.port])
                          else env.live(c.port, c.name, c.params, at.world[c.port]);
            answer.FromCache? || answer.FromAdapter? ==> answer.data == direct.0
  {
    RunStaysCurrent(env, net, steps, q);
    CurrentAnswer(env, Run(env, net, steps), c, key, out, now);
  }

  // ---- The assumption is exact: each effect that bypasses invalidation leaves a stale read ----

  /** A live cached read is served whatever has become of the downstream. */
  lemma CachedReadIsServed<D>(env: Env<D>, net: Net<D>, r: Call, out: Outcome, now: nat)
    requires Registered(env, net) && Cacheable(env, r)
    requires Cached(env, net.cache, r).Some? && Live(Cached(env, net.cache, r).value, now)
    ensures Execute(env, net, r, None, out, now).1 == FromCache(Cached(env, net.cache, r).value.value)
  {
  }

  /** A net in which a first read of `r` will be cached. */
  ghost predicate FreshRead<D>(env: Env<D>, net: Net<D>, r: Call)
  {
    && Registered(env, net) && Cacheable(env, r) && net.cache == Store([], map[])
    && net.breakers[r.port].mode == CB.Closed
    && AdapterOf(env, r.port)(r.port, r.name, r.params, net.world[r.port]).1 == net.world[r.port]
  }

  lemma ReadGetsCached<D>(env: Env<D>, net: Net<D>, r: Call, now: nat)
    requires FreshRead(env, net, r)
    ensures var net' := Execute(env, net, r, None, Works, now).0;
            && Registered(env, net')
            && Cached(env, net'.cache, r) ==
                Some(Entry(Direct(env, net, r), Some(now + env.ports[r.port].cacheTtl * 1000)))
            && net'.breakers[r.port].mode == CB.Closed && net'.world == net.world
            && |net'.cache.keys| == 1
  {
    var key := FullKey(env.cacheCfg, CacheKey(env, r));
    assert Lookup(net.cache, key).None?;
    SetLooks(env.cacheCfg, net.cache, CacheKey(env, r), Direct(env, net, r), env.ports[r.port].cacheTtl, now, key);
  }

  lemma RunTwo<D>(env: Env<D>, net: Net<D>, first: Step, second: Step)
    requires Registered(env, net)
    ensures Registered(env, Next(env, net, first))
    ensures Run(env, net, [first, second]) == Next(env, Next(env, net, first), second)
  {
    NextRegistered(env, net, first);
    NextRegistered(env, Next(env, net, first), second);
    assert [first, second][1..] == [second] && [second][1..] == [];
    assert Run(env, Next(env, net, first), [second]) == Next(env, Next(env, net, first), second);
  }

  /** After the first read, a step that keeps the entry and changes the answer makes the read stale. */
  lemma StaleAfter<D>(env: Env<D>, net: Net<D>, r: Call, w: Step, adapter: Adapter<D>, now: nat)
    requires FreshRead(env, net, r) && w.call.port == r.port && !AnswerKept(env, adapter, w.call, r, net.world[r.port])
    requires var net1 := Execute(env, net, r, None, Works, now).0;
             Registered(env, net1) &&
             var net2 := Next(env, net1, w);
             && Registered(env, net2) && Cached(env, net2.cache, r) == Cached(env, net1.cache, r)
             && net2.world == net1.world[r.port := adapter(w.call.port, w.call.name, w.call.params,
                                                           net1.world[r.port]).1]
    ensures var at := Run(env, net, [Do(r, None, Works, now), w]);
            var answer := Execute(env, at, r, None, Works, now).1;
            answer.FromCache? && answer.data != Direct(env, at, r)
  {
    ReadGetsCached(env, net, r, now);
    RunTwo(env, net, Do(r, None, Works, now), w);
    CachedReadIsServed(env, Run(env, net, [Do(r, None, Works, now), w]), r, Works, now);
  }

  /**
    A replayed call is never followed by invalidation, so if it changes a read's answer the next
    read within the lifetime is stale, whatever the replayed method is called.
   */
  lemma ReplayServesStaleReads<D>(env: Env<D>, net: Net<D>, r: Call, w: Call, now: nat)
    requires FreshRead(env, net, r) && w.port == r.port && !AnswerKept(env, env.live, w, r, net.world[r.port])
    ensures var at := Run(env, net, [Do(r, None, Works, now), Replayed(w)]);
            var answer := Execute(env, at, r, None, Works, now).1;
            answer.FromCache? && answer.data != Direct(env, at, r)
  {
    ReadGetsCached(env, net, r, now);
    StaleAfter(env, net, r, Replayed(w), env.live, now);
  }

  /** So is a mutation that throws after taking effect, a timeout for instance. */
  lemma ThrownWriteServesStaleReads<D>(env: Env<D>, net: Net<D>, r: Call, w: Call, counted: bool, now: nat)
    requires FreshRead(env, net, r) && w.port == r.port && IsMutation(w.name)
    requires !AnswerKept(env, AdapterOf(env, w.port), w, r, net.world[r.port])
    ensures var at := Run(env, net, [Do(r, None, Works, now), Do(w, None, Throws(counted, true), now)]);
            var answer := Execute(env, at, r, None, Works, now).1;
            answer.FromCache? && answer.data != Direct(env, at, r)
  {
    ReadGetsCached(env, net, r, now);
    StaleAfter(env, net, r, Do(w, None, Throws(counted, true), now), AdapterOf(env, w.port), now);
  }

  /** A write whose name is not recognised goes through `execute` without invalidating anything. */
  lemma UnrecognisedWriteServesStaleReads<D>(env: Env<D>, net: Net<D>, r: Call, w: Call, now: nat)
    requires FreshRead(env, net, r) && w.port == r.port && env.cacheCfg.maxEntries >= 2
    requires !IsMutation(w.name) && !AnswerKept(env, AdapterOf(env, w.port), w, r, net.world[r.port])
    requires CacheKey(env, w) != CacheKey(env, r)
    ensures var at := Run(env, net, [Do(r, None, Works, now), Do(w, None, Works, now)]);
            var answer := Execute(env, at, r, None, Works, now).1;
            answer.FromCache? && answer.data != Direct(env, at, r)
  {
    ReadGetsCached(env, net, r, now);
    var net1 := Execute(env, net, r, None, Works, now).0;
    if FullKey(env.cacheCfg, CacheKey(env, r)) == FullKey(env.cacheCfg, CacheKey(env, w)) {
      FullKeyInjective(env.cacheCfg, CacheKey(env, r), CacheKey(env, w));
    }
    UnrecognisedWriteKeepsEntry(env, net1, w, now, r);
    StaleAfter(env, net, r, Do(w, None, Works, now), AdapterOf(env, w.port), now);
  }

  lemma UnrecognisedWriteKeepsEntry<D>(env: Env<D>, net: Net<D>, w: Call, now: nat, r: Call)
    requires Registered(env, net) && w.port in env.ports && !IsMutation(w.name)
    requires |net.cache.keys| < env.cacheCfg.maxEntries && net.breakers[w.port].mode == CB.Closed
    requires FullKey(env.cacheCfg, CacheKey(env, r)) != FullKey(env.cacheCfg, CacheKey(env, w))
    requires Cached(env, net.cache, w).None?
    ensures var net' := Execute(env, net, w, None, Works, now).0;
            && Registered(env, net') && Cached(env, net'.cache, r) == Cached(env, net.cache, r)
            && net'.world == net.world[w.port := AdapterOf(env, w.port)(w.port, w.name, w.params, net.world[w.port]).1]
  {
    if Cacheable(env, w) {
      SetLooks(env.cacheCfg, net.cache, CacheKey(env, w), Direct(env, net, w), env.ports[w.port].cacheTtl, now,
               FullKey(env.cacheCfg, CacheKey(env, r)));
    }
  }

  /** One such write is in use: acknowledging an alert. */
  lemma AcknowledgeAlertIsUnrecognised()
    ensures !IsMutation("acknowledge-alert")
  {
    var name := "acknowledge-alert";
    forall i | 0 <= i < |VERBS| ensures !(VERBS[i] <= name) {
      assert VERBS[i][0] != name[0] || VERBS[i][1] != name[1];
    }
  }

  // ---- Degraded answers ----

  /** In this step the port's adapter gave this answer to some call. */
  predicate Gave<D>(env: Env<D>, net: Net<D>, s: Step, port: string, data: string)
    requires s.call.port in env.ports ==> s.call.port in net.world && s.call.port in net.breakers
  {
    && s.call.port == port && port in env.ports
    && match s
       case Do(c, key, out, now) => Execute(env, net, c, key, out, now).1 == FromAdapter(data)
       case Replayed(c) => env.live(c.port, c.name, c.params, net.world[c.port]).0 == data
  }

  lemma {:induction false} FallbackWasGiven<D>(env: Env<D>, net: Net<D>, steps: seq<Step>, port: string)
    returns (n: nat)
    requires Registered(env, net) && port in Run(env, net, steps).fallback
    ensures (port in net.fallback && Run(env, net, steps).fallback[port] == net.fallback[port])
            || (n < |steps| && Gave(env, Run(env, net, steps[..n]), steps[n], port,
                                    Run(env, net, steps).fallback[port]))
    decreases |steps|
  {
    n := 0;
    if steps != [] {
      var net1 := Next(env, net, steps[0]);
      NextRegistered(env, net, steps[0]);
      var m := FallbackWasGiven(env, net1, steps[1..], port);
      if m < |steps| - 1 && Gave(env, Run(env, net1, steps[1..][..m]), steps[1..][m], port,
                                 Run(env, net, steps).fallback[port]) {
        n := m + 1;
        assert steps[..n][1..] == steps[1..][..m] && steps[..n][0] == steps[0];
      } else {
        assert steps[..0] == [];
        StepFallback(env, net, steps[0], port);
      }
    }
  }

  lemma StepFallback<D>(env: Env<D>, net: Net<D>, s: Step, port: string)
    requires Registered(env, net) && port in Next(env, net, s).fallback
    ensures (port in net.fallback && Next(env, net, s).fallback[port] == net.fallback[port])
            || Gave(env, net, s, port, Next(env, net, s).fallback[port])
  {
    if s.Do? && s.call.port in env.ports {
      KnownAnswer(env, net.cache, s.call, s.key, s.now);
    }
  }

  /** A degraded answer is one the port gave earlier in the run, to whatever call. */
  lemma DegradedAnswerWasGiven<D>(env: Env<D>, net: Net<D>, steps: seq<Step>, c: Call, key: Option<string>,
                                  out: Outcome, now: nat)
    returns (n: nat)
    requires Registered(env, net) && net.fallback == map[]
    requires Execute(env, Run(env, net, steps), c, key, out, now).1.Fallback?
    ensures n < |steps| && Gave(env, Run(env, net, steps[..n]), steps[n], c.port,
                                Execute(env, Run(env, net, steps), c, key, out, now).1.data)
  {
    n := FallbackWasGiven(env, net, steps, c.port);
  }

  /** A first call through a closed breaker reaches the adapter and becomes the port's last answer. */
  lemma FirstCallIsKept<D>(env: Env<D>, net: Net<D>, a: Call, now: nat)
    requires Registered(env, net) && net.cache == Store([], map[])
    requires a.port in env.ports && net.breakers[a.port].mode == CB.Closed
    ensures var net' := Execute(env, net, a, None, Works, now).0;
            && Registered(env, net') && net'.breakers[a.port].mode == CB.Closed
            && a.port in net'.fallback && net'.fallback[a.port] == Direct(env, net, a)
  {
    assert Lookup(net.cache, FullKey(env.cacheCfg, CacheKey(env, a))).None?;
    assert Known(env, net.cache, a, None, now) == (net.cache, None);
  }

  /** ... even to another method: the last answer of the port is all that is kept. */
  lemma FallbackAnswersAnotherMethod<D>(env: Env<D>, net: Net<D>, a: Call, b: Call, now: nat)
    requires Registered(env, net) && net.cache == Store([], map[])
    requires a.port in env.ports && net.breakers[a.port].mode == CB.Closed
    requires b.port == a.port && IsMutation(b.name) && env.ports[a.port].queuePolicy.Never?
    ensures var at := Execute(env, net, a, None, Works, now).0;
            && Registered(env, at)
            && Execute(env, at, b, None, Throws(true, false), now).1 == Fallback(Direct(env, net, a))
  {
    FirstCallIsKept(env, net, a, now);
    var at := Execute(env, net, a, None, Works, now).0;
    assert Known(env, at.cache, b, None, now) == (at.cache, None);
  }
}
