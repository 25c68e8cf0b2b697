/**
  What a port call answers, in terms of the configured adapters, the stored entries under the keys as
  they are spelled, the breaker's fields and the queue.
 */
module PortAnswers {
  import opened Prelude
  import opened MemoryCache
  import opened PortRegistry
  import opened PortTransparency
  import CB = CircuitBreaker

  /** The value stored under a key, if it can still be read. */
  function Stored<D>(env: Env<D>, s: Store<string>, key: string, now: nat): Option<string>
  {
    var full := if env.cacheCfg.prefix == "" then key else env.cacheCfg.prefix + ":" + key;
    if full in s.at && (s.at[full].expiry.None? || now <= s.at[full].expiry.value) then Some(s.at[full].value) else None
  }

  /** What an earlier call with this idempotency key left. */
  function Earlier<D>(env: Env<D>, s: Store<string>, key: Option<string>, now: nat): Option<string>
  {
    if env.deduplicates && key != None && key != Some("")
    then Stored(env, s, "idempotency:" + env.keyHash(key.value), now)
    else None
  }

  /** What an earlier read of the same kind left, on a port that caches. */
  function CachedRead<D>(env: Env<D>, s: Store<string>, c: Call, now: nat): Option<string>
  {
    if c.port in env.ports && !IsMutation(c.name) && !env.ports[c.port].transactionTier
       && env.ports[c.port].cacheTtl > 0
    then Stored(env, s, "cache:v2:port:" + (c.port + (":" + env.hash(c.name, c.params))), now)
    else None
  }

  /** The breaker lets the call through. */
  predicate GateOpen<D>(env: Env<D>, net: Net<D>, port: string, now: nat)
    requires port in env.ports && port in net.breakers
  {
    var b, reset := net.breakers[port], env.ports[port].breaker.resetTimeout;
    b.mode != CB.Opened || now >= b.changedAt + if reset == 0 then 30_000 else reset
  }

  lemma StoredUnderKey<D>(env: Env<D>, s: Store<string>, key: string, now: nat)
    ensures Get(env.cacheCfg, s, key, now).1 == Stored(env, s, key, now)
    ensures forall other :: FullKey(env.cacheCfg, other) != FullKey(env.cacheCfg, key) ==>
              Stored(env, Get(env.cacheCfg, s, key, now).0, other, now) == Stored(env, s, other, now)
  {
  }

  lemma KnownIsStored<D>(env: Env<D>, s: Store<string>, c: Call, key: Option<string>, now: nat)
    ensures Known(env, s, c, key, now).1 ==
            if Earlier(env, s, key, now).Some? then Some(Duplicate(Earlier(env, s, key, now).value))
            else if CachedRead(env, s, c, now).Some? then Some(FromCache(CachedRead(env, s, c, now).value))
            else None
  {
    hide Stored;
    var readKey := CacheKey(env, c);
    assert readKey == "cache:v2:port:" + (c.port + (":" + env.hash(c.name, c.params)));
    if Keyed(env, key) {
      StoredUnderKey(env, s, DedupKey(env, key.value), now);
      DedupKeysApart(env, key.value, c);
      StoredUnderKey(env, Get(env.cacheCfg, s, DedupKey(env, key.value), now).0, readKey, now);
    } else {
      StoredUnderKey(env, s, readKey, now);
    }
  }

  // ---- The adapter that answers ----

  /**
    An answer from the adapter, and the downstream state it leaves, are the mock's if mock mode is on or
    the port's endpoint asks for it, and the live adapter's otherwise; no other port is touched.
   */
  lemma AdapterIsTheConfiguredOne<D>(env: Env<D>, net: Net<D>, c: Call, key: Option<string>, out: Outcome, now: nat)
    requires Registered(env, net) && Execute(env, net, c, key, out, now).1.FromAdapter?
    ensures var (net', answer) := Execute(env, net, c, key, out, now);
            && c.port in env.ports && out == Works
            && (!env.mockMode && c.port !in env.mockPorts ==>
                  && answer.data == env.live(c.port, c.name, c.params, net.world[c.port]).0
                  && net'.world == net.world[c.port := env.live(c.port, c.name, c.params, net.world[c.port]).1])
            && (env.mockMode || c.port in env.mockPorts ==>
                  && answer.data == env.mock(c.port, c.name, c.params, net.world[c.port]).0
                  && net'.world == net.world[c.port := env.mock(c.port, c.name, c.params, net.world[c.port]).1])
            && c.port in net'.fallback && net'.fallback[c.port] == answer.data
  {
    hide AfterSuccess, CB.Next;
    KnownAnswer(env, net.cache, c, key, now);
  }

  // ---- Where an answer comes from ----

  predicate Degraded(answer: Answer)
  {
    answer.Fallback? || answer.Queued? || answer.Unavailable?
  }

  /**
    A remembered idempotency key goes before a cached read, and that before the adapter, which is asked
    exactly if nothing is known and the breaker lets the call through; every other call of a registered
    port is degraded.
   */
  lemma AnswerComesFrom<D>(env: Env<D>, net: Net<D>, c: Call, key: Option<string>, out: Outcome, now: nat)
    requires Registered(env, net)
    ensures var (net', answer) := Execute(env, net, c, key, out, now);
            var earlier, hit := Earlier(env, net.cache, key, now), CachedRead(env, net.cache, c, now);
            && (answer.NotRegistered? <==> c.port !in env.ports)
            && (answer.Duplicate? <==> c.port in env.ports && earlier.Some?)
            && (answer.Duplicate? ==> answer.data == earlier.value)
            && (answer.FromCache? <==> c.port in env.ports && earlier.None? && hit.Some?)
            && (answer.FromCache? ==> answer.data == hit.value)
            && (answer.FromAdapter? <==>
                  c.port in env.ports && earlier.None? && hit.None? && GateOpen(env, net, c.port, now) && out.Works?)
            && (Degraded(answer) <==>
                  && c.port in env.ports && earlier.None? && hit.None?
                  && (!GateOpen(env, net, c.port, now) || out.Throws?))
  {
    hide Earlier, CachedRead, Stored, AfterSuccess, CB.Next, Known;
    KnownIsStored(env, net.cache, c, key, now);
  }

  /** What a call leaves of downstream states, breakers and queue when the adapter does not answer. */
  lemma DegradedAnswers<D>(env: Env<D>, net: Net<D>, c: Call, key: Option<string>, out: Outcome, now: nat)
    requires Registered(env, net) && Degraded(Execute(env, net, c, key, out, now).1)
    ensures var (net', answer) := Execute(env, net, c, key, out, now);
            && c.port in env.ports
            && var policy := env.ports[c.port].queuePolicy;
            && (answer.Queued? <==>
                  env.queues && (policy == Always || (policy == OnCacheMiss && c.port !in net.fallback)))
            && (answer.Unavailable? <==> c.port !in net.fallback && (policy == Never || !env.queues))
            && (answer.Fallback? ==> c.port in net.fallback && answer.data == net.fallback[c.port])
            && net'.queue == net.queue + (if env.queues && policy != Never then [c] else [])
            && net'.fallback == net.fallback
            && (!(GateOpen(env, net, c.port, now) && out.Throws? && out.applied) ==> net'.world == net.world)
  {
    hide AfterSuccess, CB.Next, Known;
    KnownAnswer(env, net.cache, c, key, now);
  }

  /** A call that throws after taking effect leaves the configured adapter's new state. */
  lemma ThrownEffectStays<D>(env: Env<D>, net: Net<D>, c: Call, key: Option<string>, counted: bool, now: nat)
    requires Registered(env, net) && Degraded(Execute(env, net, c, key, Throws(counted, true), now).1)
    requires c.port in env.ports && GateOpen(env, net, c.port, now)
    ensures var world := Execute(env, net, c, key, Throws(counted, true), now).0.world;
            && (!env.mockMode && c.port !in env.mockPorts ==>
                  world == net.world[c.port := env.live(c.port, c.name, c.params, net.world[c.port]).1])
            && (env.mockMode || c.port in env.mockPorts ==>
                  world == net.world[c.port := env.mock(c.port, c.name, c.params, net.world[c.port]).1])
  {
    hide AfterSuccess, CB.Next, Known;
    KnownAnswer(env, net.cache, c, key, now);
  }

  /** A replay goes to the live adapter, mock or not, becomes the port's last answer, and touches nothing else. */
  lemma ReplayGoesLive<D>(env: Env<D>, net: Net<D>, c: Call)
    requires Registered(env, net) && c.port in env.ports
    ensures var after := Replay(env, net, c);
            var (data, state) := env.live(c.port, c.name, c.params, net.world[c.port]);
            && after.world == net.world[c.port := state] && after.fallback == net.fallback[c.port := data]
            && after.cache == net.cache && after.breakers == net.breakers && after.queue == net.queue
  {
  }

  /** An answer under an idempotency key can be had again for a day, to the millisecond. */
  lemma KeyLastsADay<D>(env: Env<D>, net: Net<D>, c: Call, key: string, now: nat, later: nat)
    requires Registered(env, net) && env.deduplicates && key != ""
    requires Execute(env, net, c, Some(key), Works, now).1.FromAdapter?
    ensures var (after, answer) := Execute(env, net, c, Some(key), Works, now);
            Earlier(env, after.cache, Some(key), later) ==
            if later <= now + 86_400_000 then Some(answer.data) else None
  {
    hide Execute;
    AdapterAnswers(env, net, c, Some(key), now);
    var s := AdapterAnswerIsDeduplicated(env, net, c, Some(key), now);
    SetLooks(env.cacheCfg, s, DedupKey(env, key), Execute(env, net, c, Some(key), Works, now).1.data, KEY_TTL, now,
             FullKey(env.cacheCfg, DedupKey(env, key)));
  }

  lemma AdapterAnswers<D>(env: Env<D>, net: Net<D>, c: Call, key: Option<string>, now: nat)
    requires Registered(env, net) && Execute(env, net, c, key, Works, now).1.FromAdapter?
    ensures c.port in env.ports
  {
    hide AfterSuccess, CB.Next, Known;
  }

  // ---- Whole runs: the queue ----

  /** The calls that a run leaves to the worker: the degraded ones of ports with a queue policy, in order. */
  function LeftToTheWorker<D>(env: Env<D>, net: Net<D>, steps: seq<Step>): seq<Call>
    requires Registered(env, net)
    decreases |steps|
  {
    if steps == [] then []
    else
      var s := steps[0];
      NextRegistered(env, net, s);
      (if && s.Do? && Degraded(Execute(env, net, s.call, s.key, s.out, s.now).1)
          && env.queues && env.ports[s.call.port].queuePolicy != Never then [s.call] else [])
      + LeftToTheWorker(env, Next(env, net, s), steps[1..])
  }

  lemma StepQueue<D>(env: Env<D>, net: Net<D>, s: Step)
    requires Registered(env, net)
    ensures Next(env, net, s).queue ==
            net.queue + if && s.Do? && Degraded(Execute(env, net, s.call, s.key, s.out, s.now).1)
                           && env.queues && env.ports[s.call.port].queuePolicy != Never then [s.call] else []
  {
    hide AfterSuccess, CB.Next, Known;
    if s.Do? {
      KnownAnswer(env, net.cache, s.call, s.key, s.now);
      if Degraded(Execute(env, net, s.call, s.key, s.out, s.now).1) {
        DegradedAnswers(env, net, s.call, s.key, s.out, s.now);
      }
    }
  }

  /** The queue holds exactly these calls: none is lost, none is queued that was answered by the adapter. */
  lemma {:induction false} QueueHoldsDegradedCalls<D>(env: Env<D>, net: Net<D>, steps: seq<Step>)
    requires Registered(env, net)
    ensures Run(env, net, steps).queue == net.queue + LeftToTheWorker(env, net, steps)
    decreases |steps|
  {
    hide Next, Execute;
    if steps != [] {
      NextRegistered(env, net, steps[0]);
      StepQueue(env, net, steps[0]);
      QueueHoldsDegradedCalls(env, Next(env, net, steps[0]), steps[1..]);
    }
  }

  // ---- Whole runs: the breaker ----

  /** What one step of a run means to the breaker of a port. */
  function Felt<D>(env: Env<D>, net: Net<D>, s: Step, port: string): seq<CB.Step>
    requires Registered(env, net)
  {
    if !s.Do? || s.call.port != port || port !in env.ports then []
    else
      var answer := Execute(env, net, s.call, s.key, s.out, s.now).1;
      if answer.FromAdapter? then [CB.Start(s.now), CB.Succeed(s.now)]
      else if !Degraded(answer) then []
      else if GateOpen(env, net, port, s.now) && s.out.Throws? then [CB.Start(s.now), CB.Fail(s.out.counted, s.now)]
      else [CB.Start(s.now)]
  }

  function FeltBy<D>(env: Env<D>, net: Net<D>, steps: seq<Step>, port: string): seq<CB.Step>
    requires Registered(env, net)
    decreases |steps|
  {
    if steps == [] then []
    else
      NextRegistered(env, net, steps[0]);
      Felt(env, net, steps[0], port) + FeltBy(env, Next(env, net, steps[0]), steps[1..], port)
  }

  lemma RunTwoSteps(o: CB.Options, b: CB.Breaker, x: CB.Step, y: CB.Step)
    ensures CB.Run(o, b, []) == b && CB.Run(o, b, [x]) == CB.Next(o, b, x)
    ensures CB.Run(o, b, [x, y]) == CB.Next(o, CB.Next(o, b, x), y)
  {
    assert [x, y][..1] == [x] && [x][..0] == [];
    assert CB.Run(o, b, [x]) == CB.Next(o, CB.Run(o, b, []), x);
  }

  lemma StepFelt<D>(env: Env<D>, net: Net<D>, s: Step, port: string)
    requires Registered(env, net) && port in env.ports
    ensures Registered(env, Next(env, net, s))
    ensures Next(env, net, s).breakers[port] ==
            CB.Run(env.ports[port].breaker, net.breakers[port], Felt(env, net, s, port))
  {
    hide AfterSuccess, Known, CB.Run, CB.RecordSuccess, CB.RecordFailure;
    NextRegistered(env, net, s);
    var o, b := env.ports[port].breaker, net.breakers[port];
    RunTwoSteps(o, b, CB.Start(0), CB.Start(0));
    if s.Do? {
      KnownAnswer(env, net.cache, s.call, s.key, s.now);
      RunTwoSteps(o, b, CB.Start(s.now), CB.Succeed(s.now));
      if s.out.Throws? {
        RunTwoSteps(o, b, CB.Start(s.now), CB.Fail(s.out.counted, s.now));
      }
    }
  }

  /**
    The breaker of a port after any run of calls is the breaker after their starts and completions: each
    call past the caches starts, and the one the gate lets through completes. What holds of breakers
    under every interleaving therefore holds here.
   */
  lemma {:induction false} BreakerFollowsItsCalls<D>(env: Env<D>, net: Net<D>, steps: seq<Step>, port: string)
    requires Registered(env, net) && port in env.ports
    ensures Run(env, net, steps).breakers[port] ==
            CB.Run(env.ports[port].breaker, net.breakers[port], FeltBy(env, net, steps, port))
    decreases |steps|
  {
    hide Next, Felt;
    if steps != [] {
      var next := Next(env, net, steps[0]);
      NextRegistered(env, net, steps[0]);
      StepFelt(env, net, steps[0], port);
      BreakerFollowsItsCalls(env, next, steps[1..], port);
      CB.RunConcat(env.ports[port].breaker, net.breakers[port], Felt(env, net, steps[0], port),
                   FeltBy(env, next, steps[1..], port));
    } else {
      RunTwoSteps(env.ports[port].breaker, net.breakers[port], CB.Start(0), CB.Start(0));
    }
  }

  /** Calls between two times; replays pass no gate and count at any. */
  predicate Between(steps: seq<Step>, from: nat, until: nat)
  {
    forall i :: 0 <= i < |steps| && steps[i].Do? ==> from <= steps[i].now < until
  }

  /** The breaker opened at this time and has not been tried since. */
  predicate OpenedAt<D>(net: Net<D>, port: string, t: nat)
  {
    port in net.breakers && net.breakers[port].mode == CB.Opened && net.breakers[port].changedAt == t
  }

  lemma ShutStep<D>(env: Env<D>, net: Net<D>, s: Step, port: string, t: nat)
    requires Registered(env, net) && port in env.ports && OpenedAt(net, port, t)
    requires s.Do? ==> t <= s.now < t + if env.ports[port].breaker.resetTimeout == 0 then 30_000
                                        else env.ports[port].breaker.resetTimeout
    ensures OpenedAt(Next(env, net, s), port, t)
    ensures s.Do? && s.call.port == port ==>
              && !Execute(env, net, s.call, s.key, s.out, s.now).1.FromAdapter?
              && Next(env, net, s).world == net.world
  {
    hide AfterSuccess, Known;
    if s.Do? {
      KnownAnswer(env, net.cache, s.call, s.key, s.now);
    }
  }

  lemma {:induction false} StaysShut<D>(env: Env<D>, net: Net<D>, steps: seq<Step>, port: string, t: nat, until: nat)
    requires Registered(env, net) && port in env.ports && OpenedAt(net, port, t)
    requires until <= t + if env.ports[port].breaker.resetTimeout == 0 then 30_000
                          else env.ports[port].breaker.resetTimeout
    requires Between(steps, t, until)
    ensures OpenedAt(Run(env, net, steps), port, t)
    decreases |steps|
  {
    hide Next, Execute;
    if steps != [] {
      NextRegistered(env, net, steps[0]);
      ShutStep(env, net, steps[0], port, t);
      assert Between(steps[1..], t, until) by {
        assert forall i :: 0 <= i < |steps| - 1 ==> steps[1..][i] == steps[i + 1];
      }
      StaysShut(env, Next(env, net, steps[0]), steps[1..], port, t, until);
    }
  }

  /**
    A call that opens its port's breaker is the last to reach that adapter until the reset timeout has
    passed: whatever calls come between, none before it is answered by the adapter or touches the
    downstream.
   */
  lemma NoAdapterCallAfterTrip<D>(env: Env<D>, net: Net<D>, trip: Step, steps: seq<Step>, c: Call, key: Option<string>,
                                  out: Outcome, now: nat)
    requires Registered(env, net) && trip.Do? && trip.call.port in env.ports && c.port == trip.call.port
    requires net.breakers[c.port].mode != CB.Opened && Next(env, net, trip).breakers[c.port].mode == CB.Opened
    requires Between(steps, trip.now, now + 1) && trip.now <= now
    requires now < trip.now + if env.ports[c.port].breaker.resetTimeout == 0 then 30_000
                              else env.ports[c.port].breaker.resetTimeout
    ensures var at := Run(env, Next(env, net, trip), steps);
            var (after, answer) := Execute(env, at, c, key, out, now);
            !answer.FromAdapter? && after.world == at.world
  {
    hide Execute, CB.RecordFailure;
    var next := Next(env, net, trip);
    NextRegistered(env, net, trip);
    TripTime(env, net, trip, c.port);
    StaysShut(env, next, steps, c.port, trip.now, now + 1);
    ShutStep(env, Run(env, next, steps), Do(c, key, out, now), c.port, trip.now);
  }

  lemma TripTime<D>(env: Env<D>, net: Net<D>, trip: Step, port: string)
    requires Registered(env, net) && trip.Do? && port in env.ports
    requires net.breakers[port].mode != CB.Opened && Next(env, net, trip).breakers[port].mode == CB.Opened
    ensures OpenedAt(Next(env, net, trip), port, trip.now)
  {
    hide AfterSuccess, Known;
    KnownAnswer(env, net.cache, trip.call, trip.key, trip.now);
  }

  // ---- Which methods are writes ----

  predicate BeginsWithWriteVerb(name: string)
  {
    Storing(name) || Dealing(name) || Connecting(name)
  }

  predicate Storing(name: string)
  {
    || "create" <= name || "update" <= name || "delete" <= name || "remove" <= name || "add" <= name
    || "insert" <= name || "save" <= name || "send" <= name || "submit" <= name || "dispatch" <= name
  }

  predicate Dealing(name: string)
  {
    || "pay" <= name || "setup" <= name || "initiate" <= name || "retry" <= name || "cancel" <= name
    || "confirm" <= name || "generate" <= name || "register" <= name || "verify" <= name || "login" <= name
  }

  predicate Connecting(name: string)
  {
    || "logout" <= name || "refresh" <= name || "link" <= name || "unlink" <= name || "close" <= name
    || "archive" <= name || "assign" <= name || "sign" <= name || "post" <= name || "put" <= name
  }

  predicate VerbAmong(name: string, from: nat, to: nat)
  {
    exists i :: from <= i < to && i < |VERBS| && VERBS[i] <= name
  }

  lemma StoringVerbs(name: string)
    ensures VerbAmong(name, 0, 10) <==> Storing(name)
  {
    assert VERBS[0] == "create";
    assert VERBS[1] == "update";
    assert VERBS[2] == "delete";
    assert VERBS[3] == "remove";
    assert VERBS[4] == "add";
    assert VERBS[5] == "insert";
    assert VERBS[6] == "save";
    assert VERBS[7] == "send";
    assert VERBS[8] == "submit";
    assert VERBS[9] == "dispatch";
  }

  lemma DealingVerbs(name: string)
    ensures VerbAmong(name, 10, 20) <==> Dealing(name)
  {
    assert VERBS[10] == "pay";
    assert VERBS[11] == "setup";
    assert VERBS[12] == "initiate";
    assert VERBS[13] == "retry";
    assert VERBS[14] == "cancel";
    assert VERBS[15] == "confirm";
    assert VERBS[16] == "generate";
    assert VERBS[17] == "register";
    assert VERBS[18] == "verify";
    assert VERBS[19] == "login";
  }

  lemma ConnectingVerbs(name: string)
    ensures VerbAmong(name, 20, 30) <==> Connecting(name)
  {
    assert VERBS[20] == "logout";
    assert VERBS[21] == "refresh";
    assert VERBS[22] == "link";
    assert VERBS[23] == "unlink";
    assert VERBS[24] == "close";
    assert VERBS[25] == "archive";
    assert VERBS[26] == "assign";
    assert VERBS[27] == "sign";
    assert VERBS[28] == "post";
    assert VERBS[29] == "put";
  }

  /** The writes are exactly the names that begin with one of these verbs. */
  lemma VerbsAreWrites(name: string)
    ensures IsMutation(name) <==> BeginsWithWriteVerb(name)
  {
    hide Storing, Dealing, Connecting;
    StoringVerbs(name);
    DealingVerbs(name);
    ConnectingVerbs(name);
    assert |VERBS| == 30;
  }

  /** The documented reads are none of them, whatever follows the verb. */
  lemma ReadsAreNoWrites(rest: string)
    ensures !IsMutation("get" + rest) && !IsMutation("find" + rest) && !IsMutation("search" + rest)
    ensures !IsMutation("list" + rest) && !IsMutation("call" + rest)
  {
    NoVerbHere("get" + rest, "get");
    NoVerbHere("find" + rest, "find");
    NoVerbHere("search" + rest, "search");
    NoVerbHere("list" + rest, "list");
    NoVerbHere("call" + rest, "call");
  }

  lemma NoVerbHere(name: string, head: string)
    requires head <= name && head in ["get", "find", "search", "list", "call"]
    ensures !IsMutation(name)
  {
    forall i | 0 <= i < |VERBS| ensures !(VERBS[i] <= name) {
      assert VERBS[i][0] != head[0] || VERBS[i][1] != head[1] || VERBS[i][2] != head[2];
    }
  }
}
