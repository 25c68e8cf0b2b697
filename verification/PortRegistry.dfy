/**
  Port calls through deduplication, the read cache and the circuit breaker, one after another. Every
  port has a downstream state of type D that only its adapters touch; parameters are their JSON text,
  and the short hashes are parameters. Jobs enter the queue without failing.
 */
module PortRegistry {
  import opened Prelude
  import opened MemoryCache
  import CB = CircuitBreaker
  import Glob

  datatype QueuePolicy = Never | OnCacheMiss | Always

  datatype PortConfig = PortConfig(transactionTier: bool, cacheTtl: nat, queuePolicy: QueuePolicy, breaker: CB.Options)

  /** Port, method, parameters and downstream state to answer and new state. */
  type Adapter<!D> = (string, string, string, D) -> (string, D)

  datatype Env<!D> = Env(
    mock: Adapter<D>,
    live: Adapter<D>,
    mockMode: bool,
    mockPorts: set<string>,                // ports whose endpoint configuration asks for the mock adapter
    hash: (string, string) -> string,      // of method and parameters
    keyHash: string -> string,             // of an idempotency key
    deduplicates: bool,                    // the idempotency service is there
    queues: bool,                          // the queue service is there
    ports: map<string, PortConfig>,
    cacheCfg: Config)

  datatype Net<D> = Net(
    world: map<string, D>,
    cache: Store<string>,
    breakers: map<string, CB.Breaker>,
    fallback: map<string, string>,         // last answer of each port
    queue: seq<Call>)                      // calls waiting to be replayed

  datatype Call = Call(port: string, name: string, params: string)

  datatype Outcome = Works | Throws(counted: bool, applied: bool)  // `applied`: it failed after taking effect

  datatype Answer =
    | Duplicate(data: string)     // remembered for the idempotency key
    | FromCache(data: string)
    | FromAdapter(data: string)
    | Fallback(data: string)      // degraded: the port's last answer
    | Queued                      // accepted for replay
    | Unavailable                 // degraded, and nothing to serve
    | NotRegistered

  const VERBS: seq<string> := [
    "create", "update", "delete", "remove", "add", "insert", "save", "send", "submit", "dispatch", "pay",
    "setup", "initiate", "retry", "cancel", "confirm", "generate", "register", "verify", "login", "logout",
    "refresh", "link", "unlink", "close", "archive", "assign", "sign", "post", "put"]

  const KEY_TTL: nat := 86400

  predicate IsMutation(name: string)
  {
    exists i :: 0 <= i < |VERBS| && VERBS[i] <= name
  }

  function PortPrefix(port: string): string
  {
    "cache:v2:port:" + (port + ":")
  }

  function CacheKey<D>(env: Env<D>, c: Call): string
  {
    PortPrefix(c.port) + env.hash(c.name, c.params)
  }

  function Pattern(port: string): string
  {
    PortPrefix(port) + "*"
  }

  function DedupKey<D>(env: Env<D>, key: string): string
  {
    "idempotency:" + env.keyHash(key)
  }

  predicate Cacheable<D>(env: Env<D>, c: Call)
  {
    && c.port in env.ports && !IsMutation(c.name)
    && !env.ports[c.port].transactionTier && env.ports[c.port].cacheTtl > 0
  }

  /** An empty key counts as none. */
  predicate Keyed<D>(env: Env<D>, key: Option<string>)
  {
    env.deduplicates && key.Some? && key.value != ""
  }

  ghost predicate Registered<D>(env: Env<D>, net: Net<D>)
  {
    forall p :: p in env.ports ==> p in net.world && p in net.breakers
  }

  /** Mock mode first, then the endpoint configuration, then live. */
  function AdapterOf<D>(env: Env<D>, port: string): Adapter<D>
  {
    if env.mockMode || port in env.mockPorts then env.mock else env.live
  }

  /** What calling the port's adapter directly would return now. */
  function Direct<D>(env: Env<D>, net: Net<D>, c: Call): string
    requires c.port in net.world
  {
    AdapterOf(env, c.port)(c.port, c.name, c.params, net.world[c.port]).0
  }

  // ---- The call as functions of the net ----

  function Invalidated<D>(env: Env<D>, s: Store<string>, c: Call): Store<string>
  {
    if IsMutation(c.name) then DeleteByPattern(env.cacheCfg, s, Pattern(c.port)).0 else s
  }

  function Remembered<D>(env: Env<D>, s: Store<string>, c: Call, data: string, now: nat): Store<string>
  {
    if Cacheable(env, c) then Set(env.cacheCfg, s, CacheKey(env, c), data, env.ports[c.port].cacheTtl, now) else s
  }

  function Deduplicated<D>(env: Env<D>, s: Store<string>, key: Option<string>, data: string, now: nat): Store<string>
  {
    if Keyed(env, key) then Set(env.cacheCfg, s, DedupKey(env, key.value), data, KEY_TTL, now) else s
  }

  /** After a successful adapter call: invalidate on a mutation, remember a read, remember the key. */
  function AfterSuccess<D>(env: Env<D>, s: Store<string>, c: Call, key: Option<string>, data: string, now: nat)
    : (r: Store<string>)
    ensures WellFormed(s) ==> WellFormed(r)
  {
    Deduplicated(env, Remembered(env, Invalidated(env, s, c), c, data, now), key, data, now)
  }

  /** No answer from the adapter: the port's last answer, the queue, or nothing. */
  function Degrade<D>(env: Env<D>, net: Net<D>, c: Call): (Net<D>, Answer)
    requires c.port in env.ports
  {
    var policy := if env.queues then env.ports[c.port].queuePolicy else Never;
    var last := if c.port in net.fallback then Fallback(net.fallback[c.port]) else Unavailable;
    if policy.Never? then (net, last)
    else (net.(queue := net.queue + [c]), if policy.OnCacheMiss? && last.Fallback? then last else Queued)
  }

  /** The adapter call itself, past cache and gate. */
  function CallAdapter<D>(env: Env<D>, net: Net<D>, c: Call, key: Option<string>, out: Outcome, now: nat)
    : (Net<D>, Answer)
    requires c.port in env.ports && c.port in net.world && c.port in net.breakers
  {
    var (data, state) := AdapterOf(env, c.port)(c.port, c.name, c.params, net.world[c.port]);
    var o, b := env.ports[c.port].breaker, net.breakers[c.port];
    match out
    case Works =>
      (Net(net.world[c.port := state],
           AfterSuccess(env, net.cache, c, key, data, now),
           net.breakers[c.port := CB.Next(o, b, CB.Succeed(now))],
           net.fallback[c.port := data],
           net.queue),
       FromAdapter(data))
    case Throws(counted, applied) =>
      Degrade(env,
              net.(world := if applied then net.world[c.port := state] else net.world,
                   breakers := net.breakers[c.port := CB.Next(o, b, CB.Fail(counted, now))]),
              c)
  }

  /** What deduplication, and then the read cache, already know of the call. */
  function Known<D>(env: Env<D>, s: Store<string>, c: Call, key: Option<string>, now: nat)
    : (r: (Store<string>, Option<Answer>))
    ensures WellFormed(s) ==> WellFormed(r.0)
  {
    var (s0, known) := if Keyed(env, key) then Get(env.cacheCfg, s, DedupKey(env, key.value), now) else (s, None);
    if known.Some? then (s0, Some(Duplicate(known.value)))
    else
      var (s1, hit) := if Cacheable(env, c) then Get(env.cacheCfg, s0, CacheKey(env, c), now) else (s0, None);
      (s1, if hit.Some? then Some(FromCache(hit.value)) else None)
  }

  function Execute<D>(env: Env<D>, net: Net<D>, c: Call, key: Option<string>, out: Outcome, now: nat): (Net<D>, Answer)
    requires c.port in env.ports ==> c.port in net.world && c.port in net.breakers
  {
    if c.port !in env.ports then (net, NotRegistered)
    else
      var (s, known) := Known(env, net.cache, c, key, now);
      if known.Some? then (net.(cache := s), known.value)
      else
        var o, b := env.ports[c.port].breaker, net.breakers[c.port];
        if !CB.Admits(o, b, now) then Degrade(env, net.(cache := s), c)
        else
          var gated := net.(cache := s, breakers := net.breakers[c.port := CB.Next(o, b, CB.Start(now))]);
          CallAdapter(env, gated, c, key, out, now)
  }

  /** A queued call replayed: straight to the live adapter, no gate, no invalidation. */
  function Replay<D>(env: Env<D>, net: Net<D>, c: Call): Net<D>
    requires c.port in net.world
  {
    var (data, state) := env.live(c.port, c.name, c.params, net.world[c.port]);
    net.(world := net.world[c.port := state], fallback := net.fallback[c.port := data])
  }

  // ---- The registry object ----

  /** The gate: an open breaker lets a probe through after the reset timeout, and rejects before. */
  method PassGate(cb: CB.CircuitBreakerState, now: nat) returns (admitted: bool)
    modifies cb
    ensures admitted == CB.Admits(cb.options, old(cb.Value()), now)
    ensures cb.Value() == if admitted then CB.Next(cb.options, old(cb.Value()), CB.Start(now)) else old(cb.Value())
  {
    admitted := true;
    if cb.mode == CB.Opened {
      if CB.ShouldAttemptReset(cb.options, cb.Value(), now) {
        cb.HalfOpenCircuit(now);
      } else {
        admitted := false;
      }
    }
  }

  /** Records a failed call, and opens the breaker if that was one too many. */
  method NoteFailure(cb: CB.CircuitBreakerState, counted: bool, now: nat)
    modifies cb
    ensures cb.Value() == CB.Next(cb.options, old(cb.Value()), CB.Fail(counted, now))
  {
    cb.OnFailure(counted, now);
    if CB.ShouldOpen(cb.options, cb.Value()) {
      cb.OpenCircuit(now);
    }
  }

  /** Invalidation, cache write and idempotency store. */
  method PostProcess<D>(env: Env<D>, cache: MemoryCacheService<string>, c: Call, key: Option<string>, data: string,
                        now: nat)
    requires cache.cfg == env.cacheCfg && c.port in env.ports
    modifies cache
    ensures cache.store == AfterSuccess(env, old(cache.store), c, key, data, now)
  {
    if IsMutation(c.name) {
      var deleted := cache.DeleteKeysByPattern(Pattern(c.port));
    }
    if !IsMutation(c.name) && !env.ports[c.port].transactionTier && env.ports[c.port].cacheTtl > 0 {
      cache.SetKey(CacheKey(env, c), data, env.ports[c.port].cacheTtl, now);
    }
    if key.Some? && key.value != "" && env.deduplicates {
      cache.SetKey(DedupKey(env, key.value), data, KEY_TTL, now);
    }
  }

  /** What deduplication or the cache can answer. */
  method ReadCaches<D>(env: Env<D>, cache: MemoryCacheService<string>, c: Call, key: Option<string>, now: nat)
    returns (answer: Option<Answer>)
    requires cache.cfg == env.cacheCfg && c.port in env.ports
    modifies cache
    ensures (cache.store, answer) == Known(env, old(cache.store), c, key, now)
  {
    if key.Some? && key.value != "" && env.deduplicates {
      var known := cache.GetKey(DedupKey(env, key.value), now);
      if known.Some? {
        return Some(Duplicate(known.value));
      }
    }
    if !IsMutation(c.name) && !env.ports[c.port].transactionTier && env.ports[c.port].cacheTtl > 0 {
      var hit := cache.GetKey(CacheKey(env, c), now);
      if hit.Some? {
        return Some(FromCache(hit.value));
      }
    }
    return None;
  }

  class Registry<!D> {
    const env: Env<D>
    const cache: MemoryCacheService<string>
    const breakers: map<string, CB.CircuitBreakerState>
    var world: map<string, D>   // the downstream systems, changed by adapter calls only
    var fallback: map<string, string>
    var queue: seq<Call>

    ghost function BreakerValues(): map<string, CB.Breaker>
      reads breakers.Values
    {
      map p | p in breakers :: breakers[p].Value()
    }

    ghost function State(): Net<D>
      reads this, cache, breakers.Values
    {
      Net(world, cache.store, BreakerValues(), fallback, queue)
    }

    /** One breaker object per port, with the port's options. */
    ghost predicate Valid()
      reads this
    {
      && cache.cfg == env.cacheCfg
      && breakers.Keys == env.ports.Keys && (forall p :: p in env.ports ==> p in world)
      && (forall p :: p in breakers ==> breakers[p].options == env.ports[p].breaker)
      && (forall p, q :: p in breakers && q in breakers && p != q ==> breakers[p] != breakers[q])
    }

    constructor (env: Env<D>, cache: MemoryCacheService<string>, breakers: map<string, CB.CircuitBreakerState>,
                 world: map<string, D>)
      requires cache.cfg == env.cacheCfg
      requires breakers.Keys == env.ports.Keys && forall p :: p in env.ports ==> p in world
      requires forall p :: p in breakers ==> breakers[p].options == env.ports[p].breaker
      requires forall p, q :: p in breakers && q in breakers && p != q ==> breakers[p] != breakers[q]
      ensures Valid() && this.env == env && this.cache == cache && this.breakers == breakers
      ensures world == this.world && fallback == map[] && queue == []
    {
      this.env, this.cache, this.breakers, this.world := env, cache, breakers, world;
      fallback, queue := map[], [];
    }

    /** A change of one port's breaker object is a change of one value. */
    twostate lemma OneBreakerChanged(port: string)
      requires old(Valid()) && Valid() && port in breakers
      requires forall p :: p in breakers && p != port ==> breakers[p].Value() == old(breakers[p].Value())
      ensures BreakerValues() == old(BreakerValues())[port := breakers[port].Value()]
    {
    }

    method DegradeCall(c: Call) returns (answer: Answer)
      requires Valid() && c.port in env.ports
      modifies this
      ensures Valid() && (State(), answer) == Degrade(env, old(State()), c)
    {
      var policy := env.ports[c.port].queuePolicy;
      answer := if c.port in fallback then Fallback(fallback[c.port]) else Unavailable;
      if policy == Never || !env.queues {
        return;
      }
      queue := queue + [c];
      if !(policy == OnCacheMiss && c.port in fallback) {
        answer := Queued;
      }
    }

    method NoteSuccess(port: string, now: nat)
      requires Valid() && port in env.ports
      modifies breakers[port]
      ensures Valid()
      ensures var o, b := env.ports[port].breaker, old(BreakerValues())[port];
              BreakerValues() == old(BreakerValues())[port := CB.Next(o, b, CB.Succeed(now))]
    {
      breakers[port].OnSuccess(now);
      OneBreakerChanged(port);
    }

    /** The adapter answered: record the success, invalidate, remember. */
    method Succeed(c: Call, key: Option<string>, data: string, now: nat)
      requires Valid() && c.port in env.ports
      modifies this`fallback, cache, breakers[c.port]
      ensures Valid()
      ensures cache.store == AfterSuccess(env, old(cache.store), c, key, data, now)
      ensures var o, b := env.ports[c.port].breaker, old(BreakerValues())[c.port];
              BreakerValues() == old(BreakerValues())[c.port := CB.Next(o, b, CB.Succeed(now))]
      ensures fallback == old(fallback)[c.port := data]
    {
      NoteSuccess(c.port, now);
      PostProcess(env, cache, c, key, data, now);
      fallback := fallback[c.port := data];
    }

    /** The adapter threw, with or without effect: record the failure, serve something else. */
    method Fail(c: Call, key: Option<string>, out: Outcome, state: D, now: nat) returns (answer: Answer)
      requires Valid() && c.port in env.ports && out.Throws?
      requires state == AdapterOf(env, c.port)(c.port, c.name, c.params, world[c.port]).1
      modifies this, breakers[c.port]
      ensures Valid() && (State(), answer) == CallAdapter(env, old(State()), c, key, out, now)
    {
      if out.applied {
        world := world[c.port := state];
      }
      NoteFailure(breakers[c.port], out.counted, now);
      OneBreakerChanged(c.port);
      answer := DegradeCall(c);
    }

    method RunAdapter(c: Call, key: Option<string>, out: Outcome, now: nat) returns (answer: Answer)
      requires Valid() && c.port in env.ports
      modifies this, cache, breakers[c.port]
      ensures Valid() && (State(), answer) == CallAdapter(env, old(State()), c, key, out, now)
    {
      var (data, state) := AdapterOf(env, c.port)(c.port, c.name, c.params, world[c.port]);
      if out.Throws? {
        answer := Fail(c, key, out, state, now);
      } else {
        world := world[c.port := state];
        Succeed(c, key, data, now);
        answer := FromAdapter(data);
      }
    }

    /** A queued call run again by the worker. */
    method ExecuteReplay(c: Call) returns (data: Option<string>)
      requires Valid()
      modifies this
      ensures Valid() && data.Some? == (c.port in env.ports)
      ensures State() == if data.Some? then Replay(env, old(State()), c) else old(State())
      ensures data.Some? ==> data.value == env.live(c.port, c.name, c.params, old(world)[c.port]).0
    {
      if c.port !in env.ports {
        return None;
      }
      var (answer, state) := env.live(c.port, c.name, c.params, world[c.port]);
      world := world[c.port := state];
      fallback := fallback[c.port := answer];
      return Some(answer);
    }

    method ExecutePort(c: Call, key: Option<string>, out: Outcome, now: nat) returns (answer: Answer)
      requires Valid()
      modifies this, cache, breakers.Values
      ensures Valid() && (State(), answer) == Execute(env, old(State()), c, key, out, now)
    {
      if c.port !in env.ports {
        return NotRegistered;
      }
      var known := ReadCaches(env, cache, c, key, now);
      if known.Some? {
        return known.value;
      }
      var admitted := PassGate(breakers[c.port], now);
      OneBreakerChanged(c.port);
      if !admitted {
        assert BreakerValues() == old(BreakerValues());
        answer := DegradeCall(c);
        return;
      }
      answer := RunAdapter(c, key, out, now);
    }
  }

  /** What the caches already know is a remembered key or a live cached read. */
  lemma KnownAnswer<D>(env: Env<D>, s: Store<string>, c: Call, key: Option<string>, now: nat)
    ensures var known := Known(env, s, c, key, now).1;
            && (known.Some? ==> known.value.Duplicate? || known.value.FromCache?)
            && (known.Some? && known.value.FromCache? ==>
                  && Cacheable(env, c) && Lookup(s, FullKey(env.cacheCfg, CacheKey(env, c))).Some?
                  && Lookup(s, FullKey(env.cacheCfg, CacheKey(env, c))).value.value == known.value.data)
  {
  }

  // ---- Deduplication ----

  lemma AdapterAnswerIsDeduplicated<D>(env: Env<D>, net: Net<D>, c: Call, key: Option<string>, now: nat)
    returns (s: Store<string>)
    requires Registered(env, net) && c.port in env.ports && Execute(env, net, c, key, Works, now).1.FromAdapter?
    ensures var (net', answer) := Execute(env, net, c, key, Works, now);
            Registered(env, net') && net'.cache == Deduplicated(env, s, key, answer.data, now)
  {
    KnownAnswer(env, net.cache, c, key, now);
    var s1 := Known(env, net.cache, c, key, now).0;
    s := Remembered(env, Invalidated(env, s1, c), c, Direct(env, net, c), now);
    var o, b := env.ports[c.port].breaker, net.breakers[c.port];
    assert CB.Admits(o, b, now);
    var gated := net.(cache := s1, breakers := net.breakers[c.port := CB.Next(o, b, CB.Start(now))]);
    assert Execute(env, net, c, key, Works, now) == CallAdapter(env, gated, c, key, Works, now);
  }

  // ---- Keys and invalidation ----

  ghost predicate SingleLine(s: string) { Glob.NoLineTerminator(s) }

  /** A mutation's pattern covers every key of its own port, wildcards in the name or not. */
  lemma PatternCoversOwnKeys<D>(env: Env<D>, c: Call)
    requires SingleLine(FullKey(env.cacheCfg, CacheKey(env, c)))
    ensures MatchesPattern(env.cacheCfg, Pattern(c.port))(FullKey(env.cacheCfg, CacheKey(env, c)))
  {
    var h := env.hash(c.name, c.params);
    var full := FullKey(env.cacheCfg, Pattern(c.port));
    var key := FullKey(env.cacheCfg, CacheKey(env, c));
    var head := FullKey(env.cacheCfg, PortPrefix(c.port));
    assert full == head + "*" && key == head + h;
    Glob.PatternAcceptsItsOwnExtensions(head, h);
    PatternMeaning(env.cacheCfg, Pattern(c.port), key);
  }

  /** ... and no key of another port: invalidating `meter` leaves `meter-reading` alone. */
  lemma InvalidationStaysInPort<D>(env: Env<D>, port: string, c: Call)
    requires SingleLine(FullKey(env.cacheCfg, CacheKey(env, c)))
    requires Glob.Literal(env.cacheCfg.prefix) && Glob.Literal(port) && ':' !in port && ':' !in c.port
    ensures MatchesPattern(env.cacheCfg, Pattern(port))(FullKey(env.cacheCfg, CacheKey(env, c))) <==> port == c.port
  {
    var key := FullKey(env.cacheCfg, CacheKey(env, c));
    var head := FullKey(env.cacheCfg, PortPrefix(port));
    PatternMeaning(env.cacheCfg, Pattern(port), key);
    LiteralHead(env.cacheCfg, port);
    Glob.PrefixPattern(head, key);
    HeadsDecideThePort(env.cacheCfg, port, c.port, env.hash(c.name, c.params));
  }

  lemma LiteralHead(cfg: Config, port: string)
    requires Glob.Literal(cfg.prefix) && Glob.Literal(port)
    ensures Glob.Literal(FullKey(cfg, PortPrefix(port)))
    ensures FullKey(cfg, Pattern(port)) == FullKey(cfg, PortPrefix(port)) + "*"
  {
  }

  lemma HeadsDecideThePort(cfg: Config, p: string, q: string, h: string)
    requires ':' !in p && ':' !in q
    ensures FullKey(cfg, PortPrefix(p)) <= FullKey(cfg, PortPrefix(q) + h) <==> p == q
  {
    var n := (if cfg.prefix != "" then |cfg.prefix| + 1 else 0) + 14;
    var a, b := FullKey(cfg, PortPrefix(p)), FullKey(cfg, PortPrefix(q) + h);
    assert a[n..] == p + ":" && b[n..] == q + ":" + h;
    if p == q {
      assert b == a + h;
    } else if a <= b {
      var rest := b[|a|..];
      assert b == a + rest;
      assert q + ":" + h == p + ":" + rest;
      CutFirstJoined(p, rest);
      CutFirstJoined(q, h);
    }
  }

  /** Keys of calls with colon-free hashes tell ports and hashes apart. */
  lemma KeysTellCallsApart<D>(env: Env<D>, c1: Call, c2: Call)
    requires ':' !in env.hash(c1.name, c1.params) && ':' !in env.hash(c2.name, c2.params)
    requires FullKey(env.cacheCfg, CacheKey(env, c1)) == FullKey(env.cacheCfg, CacheKey(env, c2))
    ensures c1.port == c2.port && env.hash(c1.name, c1.params) == env.hash(c2.name, c2.params)
  {
    FullKeyInjective(env.cacheCfg, CacheKey(env, c1), CacheKey(env, c2));
    var h1, h2 := env.hash(c1.name, c1.params), env.hash(c2.name, c2.params);
    assert CacheKey(env, c1)[14..] == c1.port + ":" + h1;
    assert CacheKey(env, c2)[14..] == c2.port + ":" + h2;
    CutLastJoined(c1.port, h1);
    CutLastJoined(c2.port, h2);
  }
}
