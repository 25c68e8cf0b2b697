/** Deduplication over whole runs: what a keyed call answered is answered again, for a day. */
module PortDedup {
  import opened Prelude
  import opened MemoryCache
  import opened PortRegistry
  import opened PortTransparency
  import CB = CircuitBreaker
  import Glob

  /** The idempotency key's entry, with the data it remembers. */
  ghost predicate Remembers<D>(env: Env<D>, s: Store<string>, key: string, data: string, until: nat)
  {
    Lookup(s, FullKey(env.cacheCfg, DedupKey(env, key))) == Some(Entry(data, Some(until)))
  }

  /** One of the two writes after a successful call takes this (full) key. */
  predicate WritesTake<D>(env: Env<D>, s: Store<string>, c: Call, key: Option<string>, data: string, now: nat,
                          k: string)
  {
    var s1 := Invalidated(env, s, c);
    var s2 := Remembered(env, s1, c, data, now);
    || (Cacheable(env, c) && Victim(env.cacheCfg, s1, FullKey(env.cacheCfg, CacheKey(env, c))) == Some(k))
    || (Keyed(env, key) && Victim(env.cacheCfg, s2, FullKey(env.cacheCfg, DedupKey(env, key.value))) == Some(k))
  }

  /** The step evicts the entry of this idempotency key. */
  predicate Evicts<D>(env: Env<D>, net: Net<D>, s: Step, key: string)
    requires s.call.port in env.ports ==> s.call.port in net.world && s.call.port in net.breakers
  {
    && s.Do? && s.call.port in env.ports && Execute(env, net, s.call, s.key, s.out, s.now).1.FromAdapter?
    && WritesTake(env, Known(env, net.cache, s.call, s.key, s.now).0, s.call, s.key, Direct(env, net, s.call), s.now,
                  FullKey(env.cacheCfg, DedupKey(env, key)))
  }

  predicate NeverEvicts<D>(env: Env<D>, net: Net<D>, steps: seq<Step>, key: string)
    requires Registered(env, net)
    decreases |steps|
  {
    steps == [] ||
    (&& !Evicts(env, net, steps[0], key)
     && (NextRegistered(env, net, steps[0]); NeverEvicts(env, Next(env, net, steps[0]), steps[1..], key)))
  }

  /** All calls of the run happen up to this time. */
  predicate Before(steps: seq<Step>, until: nat)
  {
    forall i :: 0 <= i < |steps| && steps[i].Do? ==> steps[i].now <= until
  }

  /** A port's invalidation pattern never matches an idempotency key. */
  lemma PatternSparesDedupKeys<D>(env: Env<D>, port: string, key: string)
    requires Glob.Literal(env.cacheCfg.prefix) && SingleLine(FullKey(env.cacheCfg, DedupKey(env, key)))
    ensures !MatchesPattern(env.cacheCfg, Pattern(port))(FullKey(env.cacheCfg, DedupKey(env, key)))
  {
    hide Glob.GlobAccepts;
    var cfg := env.cacheCfg;
    var k, full := FullKey(cfg, DedupKey(env, key)), FullKey(cfg, Pattern(port));
    var head, rest := FullKey(cfg, "cache:"), "v2:port:" + (port + ":") + "*";
    assert Pattern(port) == "cache:" + rest;
    assert full == head + rest;
    PatternMeaning(cfg, Pattern(port), k);
    Glob.LiteralPrefixNeeded(head, rest, k);
    HeadsDiffer(cfg, env.keyHash(key));
  }

  lemma HeadsDiffer(cfg: Config, hash: string)
    ensures !(FullKey(cfg, "cache:") <= FullKey(cfg, "idempotency:" + hash))
  {
    var n := if cfg.prefix != "" then |cfg.prefix| + 1 else 0;
    assert FullKey(cfg, "cache:")[n] == 'c' && FullKey(cfg, "idempotency:" + hash)[n] == 'i';
  }

  lemma InvalidationRemembers<D>(env: Env<D>, s: Store<string>, c: Call, key: string, data: string, until: nat)
    requires Glob.Literal(env.cacheCfg.prefix) && SingleLine(FullKey(env.cacheCfg, DedupKey(env, key)))
    requires Remembers(env, s, key, data, until)
    ensures Remembers(env, Invalidated(env, s, c), key, data, until)
  {
    PatternSparesDedupKeys(env, c.port, key);
  }

  /** A write that neither is of this key nor takes it keeps the entry. */
  lemma SpareSet(cfg: Config, s: Store<string>, written: string, v: string, ttl: nat, now: nat, k: string)
    requires k != FullKey(cfg, written) && Victim(cfg, s, FullKey(cfg, written)) != Some(k)
    ensures Lookup(Set(cfg, s, written, v, ttl, now), k) == Lookup(s, k)
  {
    SetLooks(cfg, s, written, v, ttl, now, k);
  }

  lemma SuccessRemembers<D>(env: Env<D>, s: Store<string>, c: Call, ckey: Option<string>, answer: string, now: nat,
                            key: string, data: string, until: nat)
    requires Glob.Literal(env.cacheCfg.prefix) && SingleLine(FullKey(env.cacheCfg, DedupKey(env, key)))
    requires Remembers(env, s, key, data, until)
    requires !WritesTake(env, s, c, ckey, answer, now, FullKey(env.cacheCfg, DedupKey(env, key)))
    requires Keyed(env, ckey) ==> DedupKey(env, ckey.value) != DedupKey(env, key)
    ensures Remembers(env, AfterSuccess(env, s, c, ckey, answer, now), key, data, until)
  {
    var cfg, k := env.cacheCfg, FullKey(env.cacheCfg, DedupKey(env, key));
    var s1 := Invalidated(env, s, c);
    InvalidationRemembers(env, s, c, key, data, until);
    if Cacheable(env, c) {
      DedupKeysApart(env, key, c);
      SpareSet(cfg, s1, CacheKey(env, c), answer, env.ports[c.port].cacheTtl, now, k);
    }
    if Keyed(env, ckey) {
      if FullKey(cfg, DedupKey(env, ckey.value)) == k {
        FullKeyInjective(cfg, DedupKey(env, ckey.value), DedupKey(env, key));
      }
      SpareSet(cfg, Remembered(env, s1, c, answer, now), DedupKey(env, ckey.value), answer, KEY_TTL, now, k);
    }
  }

  /** What is remembered answers the same key at once; other calls keep it while they look. */
  lemma KnownRemembers<D>(env: Env<D>, s: Store<string>, c: Call, ckey: Option<string>, now: nat, key: string,
                          data: string, until: nat)
    requires Remembers(env, s, key, data, until) && now <= until
    ensures Remembers(env, Known(env, s, c, ckey, now).0, key, data, until)
    ensures Keyed(env, ckey) && DedupKey(env, ckey.value) == DedupKey(env, key) ==>
              Known(env, s, c, ckey, now) == (s, Some(Duplicate(data)))
  {
    DedupKeysApart(env, key, c);
  }

  lemma ExecuteRemembers<D>(env: Env<D>, net: Net<D>, c: Call, ckey: Option<string>, out: Outcome, now: nat,
                            key: string, data: string, until: nat)
    requires Glob.Literal(env.cacheCfg.prefix) && SingleLine(FullKey(env.cacheCfg, DedupKey(env, key)))
    requires Registered(env, net) && Remembers(env, net.cache, key, data, until) && now <= until
    requires !Evicts(env, net, Do(c, ckey, out, now), key)
    ensures Remembers(env, Execute(env, net, c, ckey, out, now).0.cache, key, data, until)
  {
    if c.port in env.ports {
      var (s, known) := Known(env, net.cache, c, ckey, now);
      KnownRemembers(env, net.cache, c, ckey, now, key, data, until);
      var o, b := env.ports[c.port].breaker, net.breakers[c.port];
      if known.None? && CB.Admits(o, b, now) && out.Works? {
        SuccessRemembers(env, s, c, ckey, Direct(env, net, c), now, key, data, until);
      }
    }
  }

  lemma {:induction false} RunRemembers<D>(env: Env<D>, net: Net<D>, steps: seq<Step>, key: string, data: string,
                                           until: nat)
    requires Glob.Literal(env.cacheCfg.prefix) && SingleLine(FullKey(env.cacheCfg, DedupKey(env, key)))
    requires Registered(env, net) && Remembers(env, net.cache, key, data, until)
    requires Before(steps, until) && NeverEvicts(env, net, steps, key)
    ensures Remembers(env, Run(env, net, steps).cache, key, data, until)
    decreases |steps|
  {
    hide Next, Evicts, Remembers;
    if steps != [] {
      NextRegistered(env, net, steps[0]);
      StepRemembers(env, net, steps[0], key, data, until);
      assert Before(steps[1..], until) by {
        assert forall i :: 0 <= i < |steps| - 1 ==> steps[1..][i] == steps[i + 1];
      }
      RunRemembers(env, Next(env, net, steps[0]), steps[1..], key, data, until);
    }
  }

  lemma StepRemembers<D>(env: Env<D>, net: Net<D>, s: Step, key: string, data: string, until: nat)
    requires Glob.Literal(env.cacheCfg.prefix) && SingleLine(FullKey(env.cacheCfg, DedupKey(env, key)))
    requires Registered(env, net) && Remembers(env, net.cache, key, data, until)
    requires (s.Do? ==> s.now <= until) && !Evicts(env, net, s, key)
    ensures Remembers(env, Next(env, net, s).cache, key, data, until)
  {
    hide Execute, Evicts, Remembers;
    if s.Do? {
      ExecuteRemembers(env, net, s.call, s.key, s.out, s.now, key, data, until);
    }
  }

  /**
    A keyed call answered by the adapter is remembered for a day: after any run of further calls, keyed
    or not, mutations, failures and replays included, that does not evict the key, the same key gets
    the same data again, whatever call it comes with, and nothing downstream moves.
   */
  lemma KeyedAnswerIsRemembered<D>(env: Env<D>, net: Net<D>, c: Call, key: string, now: nat, steps: seq<Step>,
                                   again: Call, out: Outcome, later: nat)
    requires Glob.Literal(env.cacheCfg.prefix) && SingleLine(FullKey(env.cacheCfg, DedupKey(env, key)))
    requires Registered(env, net) && c.port in env.ports && again.port in env.ports && Keyed(env, Some(key))
    requires Execute(env, net, c, Some(key), Works, now).1.FromAdapter?
    requires Before(steps, now + 86_400_000) && later <= now + 86_400_000
    requires var net1 := Execute(env, net, c, Some(key), Works, now).0;
             Registered(env, net1) && NeverEvicts(env, net1, steps, key)
    ensures var (net1, answer) := Execute(env, net, c, Some(key), Works, now);
            var net2 := Run(env, net1, steps);
            Execute(env, net2, again, Some(key), out, later) == (net2, Duplicate(answer.data))
  {
    hide NeverEvicts;
    var (net1, answer) := Execute(env, net, c, Some(key), Works, now);
    var s := AdapterAnswerIsDeduplicated(env, net, c, Some(key), now);
    StoredIsRemembered(env, s, key, answer.data, now);
    RunRemembers(env, net1, steps, key, answer.data, now + KEY_TTL * 1000);
    KnownRemembers(env, Run(env, net1, steps).cache, again, Some(key), later, key, answer.data, now + KEY_TTL * 1000);
  }

  lemma StoredIsRemembered<D>(env: Env<D>, s: Store<string>, key: string, data: string, now: nat)
    requires Keyed(env, Some(key))
    ensures Remembers(env, Deduplicated(env, s, Some(key), data, now), key, data, now + KEY_TTL * 1000)
  {
    SetLooks(env.cacheCfg, s, DedupKey(env, key), data, KEY_TTL, now, FullKey(env.cacheCfg, DedupKey(env, key)));
  }
}
