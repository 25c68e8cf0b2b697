/**
  Port calls that overlap: a call looks into the caches and passes the gate, later its adapter takes
  effect downstream, later still the answer is processed here (invalidation, cache write, breaker).
  Between these instants other calls go through theirs.
 */
module PortOverlap {
  import opened Prelude
  import opened MemoryCache
  import opened PortRegistry
  import opened PortTransparency
  import CB = CircuitBreaker

  datatype Flight =
    | Called(call: Call, key: Option<string>)
    | Answered(call: Call, key: Option<string>, out: Outcome, data: string)  // took effect, not yet processed

  datatype State<D> = State(net: Net<D>, flights: map<nat, Flight>)

  datatype Action =
    | Begin(tid: nat, call: Call, key: Option<string>, now: nat)
    | Reach(tid: nat, out: Outcome)      // the adapter acts downstream, or fails
    | End(tid: nat, now: nat)
    | Replays(call: Call)

  ghost predicate Sound<D>(env: Env<D>, st: State<D>)
  {
    Registered(env, st.net) && forall t :: t in st.flights ==> st.flights[t].call.port in env.ports
  }

  function DoBegin<D>(env: Env<D>, st: State<D>, tid: nat, c: Call, key: Option<string>, now: nat): State<D>
    requires Sound(env, st)
  {
    if tid in st.flights || c.port !in env.ports then st
    else
      var (s, known) := Known(env, st.net.cache, c, key, now);
      var net := st.net.(cache := s);
      var o, b := env.ports[c.port].breaker, net.breakers[c.port];
      if known.Some? then st.(net := net)
      else if !CB.Admits(o, b, now) then st.(net := Degrade(env, net, c).0)
      else State(net.(breakers := net.breakers[c.port := CB.Next(o, b, CB.Start(now))]),
                 st.flights[tid := Called(c, key)])
  }

  function DoReach<D>(env: Env<D>, st: State<D>, tid: nat, out: Outcome): State<D>
    requires Sound(env, st)
  {
    if tid !in st.flights || !st.flights[tid].Called? then st
    else
      var c, key := st.flights[tid].call, st.flights[tid].key;
      var (data, state) := AdapterOf(env, c.port)(c.port, c.name, c.params, st.net.world[c.port]);
      var world := if out.Works? || out.applied then st.net.world[c.port := state] else st.net.world;
      State(st.net.(world := world), st.flights[tid := Answered(c, key, out, data)])
  }

  function Processed<D>(env: Env<D>, net: Net<D>, f: Flight, now: nat): Net<D>
    requires f.Answered? && f.call.port in env.ports && f.call.port in net.breakers
  {
    var c, o, b := f.call, env.ports[f.call.port].breaker, net.breakers[f.call.port];
    match f.out
    case Works =>
      net.(cache := AfterSuccess(env, net.cache, c, f.key, f.data, now),
           breakers := net.breakers[c.port := CB.Next(o, b, CB.Succeed(now))],
           fallback := net.fallback[c.port := f.data])
    case Throws(counted, _) =>
      Degrade(env, net.(breakers := net.breakers[c.port := CB.Next(o, b, CB.Fail(counted, now))]), c).0
  }

  function DoEnd<D>(env: Env<D>, st: State<D>, tid: nat, now: nat): State<D>
    requires Sound(env, st)
  {
    if tid !in st.flights || !st.flights[tid].Answered? then st
    else State(Processed(env, st.net, st.flights[tid], now), st.flights - {tid})
  }

  function Apply<D>(env: Env<D>, st: State<D>, a: Action): State<D>
    requires Sound(env, st)
  {
    match a
    case Begin(tid, c, key, now) => DoBegin(env, st, tid, c, key, now)
    case Reach(tid, out) => DoReach(env, st, tid, out)
    case End(tid, now) => DoEnd(env, st, tid, now)
    case Replays(c) => if c.port in env.ports then st.(net := Replay(env, st.net, c)) else st
  }

  lemma ApplySound<D>(env: Env<D>, st: State<D>, a: Action)
    requires Sound(env, st)
    ensures Sound(env, Apply(env, st, a))
  {
  }

  function Go<D>(env: Env<D>, st: State<D>, acts: seq<Action>): (r: State<D>)
    requires Sound(env, st)
    ensures Sound(env, r)
    decreases |acts|
  {
    if acts == [] then st
    else
      ApplySound(env, st, acts[0]);
      Go(env, Apply(env, st, acts[0]), acts[1..])
  }

  /** Without overlap the three steps are `execute`. */
  lemma ThreeStepsAreExecute<D>(env: Env<D>, st: State<D>, tid: nat, c: Call, key: Option<string>, out: Outcome,
                                now: nat)
    requires Sound(env, st) && tid !in st.flights && c.port in env.ports
    ensures var s1 := Apply(env, st, Begin(tid, c, key, now));
            Sound(env, s1) &&
            var s2 := Apply(env, s1, Reach(tid, out));
            Sound(env, s2) &&
            Apply(env, s2, End(tid, now)) == State(Execute(env, st.net, c, key, out, now).0, st.flights)
    ensures Apply(env, st, Replays(c)) == State(Replay(env, st.net, c), st.flights)
  {
    hide AfterSuccess, Known, CB.Next, CB.Admits, Degrade;
    var s1 := Apply(env, st, Begin(tid, c, key, now));
    ApplySound(env, st, Begin(tid, c, key, now));
    ApplySound(env, s1, Reach(tid, out));
    assert st.flights[tid := Called(c, key)] - {tid} == st.flights;
  }

  // ---- The condition on a schedule ----

  /** The flight is a mutation of this port that has taken effect and not yet invalidated. */
  predicate Mutates(f: Flight, port: string)
  {
    f.Answered? && f.out.Works? && IsMutation(f.call.name) && f.call.port == port
  }

  ghost predicate Pending<D>(st: State<D>, port: string)
  {
    exists t :: t in st.flights && Mutates(st.flights[t], port)
  }

  /** The flight is a read of this port that was answered and will be written to the cache. */
  predicate WillCache<D>(env: Env<D>, f: Flight, port: string)
  {
    f.Answered? && f.out.Works? && f.call.port == port && Cacheable(env, f.call)
  }

  /**
    No mutation of a port takes effect between a read's adapter call and its cache write, and none takes
    effect without being invalidated later.
   */
  ghost predicate Clean<D>(env: Env<D>, st: State<D>, a: Action)
  {
    match a
    case Reach(tid, out) =>
      tid in st.flights && st.flights[tid].Called? && IsMutation(st.flights[tid].call.name) ==>
        && (out.Throws? ==> !out.applied)
        && (out.Works? ==>
              forall t :: t in st.flights ==> !WillCache(env, st.flights[t], st.flights[tid].call.port))
    case Replays(c) => !IsMutation(c.name)
    case _ => true
  }

  ghost predicate AllClean<D>(env: Env<D>, st: State<D>, acts: seq<Action>, q: set<Call>)
    requires Sound(env, st)
    decreases |acts|
  {
    acts == [] ||
    (&& Clean(env, st, acts[0]) && (acts[0].Begin? || acts[0].Replays? ==> acts[0].call in q)
     && (ApplySound(env, st, acts[0]); AllClean(env, Apply(env, st, acts[0]), acts[1..], q)))
  }

  // ---- The invariant ----

  /** A cached read is the downstream's present answer, unless a mutation is still to invalidate it. */
  ghost predicate Fresh<D>(env: Env<D>, st: State<D>, r: Call)
    requires Sound(env, st)
  {
    CurrentFor(env, st.net, r) || Pending(st, r.port)
  }

  /** The answer a read in flight will cache is the present one. */
  ghost predicate FlightFresh<D>(env: Env<D>, st: State<D>, f: Flight)
    requires Registered(env, st.net)
  {
    WillCache(env, f, f.call.port) ==> f.data == Direct(env, st.net, f.call)
  }

  ghost predicate Ok<D>(env: Env<D>, st: State<D>, q: set<Call>)
  {
    && Sound(env, st) && WellFormed(st.net.cache)
    && (forall t :: t in st.flights ==> st.flights[t].call in q && FlightFresh(env, st, st.flights[t]))
    && (forall r :: r in q ==> Fresh(env, st, r))
  }

  lemma FreshStays<D>(env: Env<D>, st: State<D>, st': State<D>, r: Call)
    requires Sound(env, st) && Sound(env, st') && Fresh(env, st, r)
    requires forall t :: t in st.flights && Mutates(st.flights[t], r.port) ==>
               t in st'.flights && Mutates(st'.flights[t], r.port)
    requires KeptOrLost(Cached(env, st.net.cache, r), Cached(env, st'.net.cache, r))
    requires Cacheable(env, r) ==> Direct(env, st'.net, r) == Direct(env, st.net, r)
    ensures Fresh(env, st', r)
  {
    if Pending(st, r.port) {
      var t :| t in st.flights && Mutates(st.flights[t], r.port);
      assert t in st'.flights && Mutates(st'.flights[t], r.port);
    } else {
      SilentKeepsCurrent(env, st.net, st'.net, r);
    }
  }

  /** Looking, degrading and the gate change no downstream state and write no read. */
  lemma BeginEffect<D>(env: Env<D>, st: State<D>, tid: nat, c: Call, key: Option<string>, now: nat)
    requires Sound(env, st)
    ensures var st' := DoBegin(env, st, tid, c, key, now);
            && Sound(env, st') && st'.net.world == st.net.world
            && (st'.net.cache == st.net.cache || st'.net.cache == Known(env, st.net.cache, c, key, now).0)
            && (st'.flights == st.flights || (tid !in st.flights && st'.flights == st.flights[tid := Called(c, key)]))
  {
    hide Known, CB.Next, CB.Admits;
  }

  lemma KnownWellFormed<D>(env: Env<D>, s: Store<string>, c: Call, key: Option<string>, now: nat)
    requires WellFormed(s)
    ensures WellFormed(Known(env, s, c, key, now).0)
  {
  }

  lemma BeginKeepsOk<D>(env: Env<D>, st: State<D>, tid: nat, c: Call, key: Option<string>, now: nat, q: set<Call>)
    requires Ok(env, st, q) && c in q
    ensures Ok(env, DoBegin(env, st, tid, c, key, now), q)
  {
    hide DoBegin, Known, WellFormed, Cached, Direct, Cacheable;
    var st' := DoBegin(env, st, tid, c, key, now);
    BeginEffect(env, st, tid, c, key, now);
    KnownWellFormed(env, st.net.cache, c, key, now);
    forall t | t in st'.flights ensures st'.flights[t].call in q && FlightFresh(env, st', st'.flights[t]) {
      if t in st.flights {
        assert st'.flights[t] == st.flights[t] && FlightFresh(env, st, st.flights[t]);
        SameAnswer(env, st.net, st'.net, st.flights[t].call);
      }
    }
    forall r | r in q ensures Fresh(env, st', r) {
      KnownOn(env, st.net.cache, c, key, now, r);
      if Cacheable(env, r) {
        CacheablePort(env, r);
        SameAnswer(env, st.net, st'.net, r);
      }
      FreshStays(env, st, st', r);
    }
  }

  lemma CacheablePort<D>(env: Env<D>, r: Call)
    requires Cacheable(env, r)
    ensures r.port in env.ports
  {
  }

  lemma SameAnswer<D>(env: Env<D>, net: Net<D>, net': Net<D>, r: Call)
    requires Registered(env, net) && Registered(env, net') && net'.world == net.world && r.port in env.ports
    ensures Direct(env, net', r) == Direct(env, net, r)
  {
  }

  /** What the adapter's effect means to a read of the port, or of another. */
  lemma ReachAnswers<D(!new)>(env: Env<D>, st: State<D>, tid: nat, out: Outcome, r: Call)
    requires ReadsUnaffected(env) && Sound(env, st) && tid in st.flights && st.flights[tid].Called?
    requires Clean(env, st, Reach(tid, out)) && Cacheable(env, r)
    requires !(IsMutation(st.flights[tid].call.name) && out.Works? && st.flights[tid].call.port == r.port)
    ensures var st' := DoReach(env, st, tid, out);
            Sound(env, st') && Direct(env, st'.net, r) == Direct(env, st.net, r)
  {
    var c := st.flights[tid].call;
    var st' := DoReach(env, st, tid, out);
    if out.Works? || out.applied {
      AnswerUnchanged(env, st.net, st'.net, c, AdapterOf(env, c.port), r);
    }
  }

  lemma ReachKeepsFlights<D(!new)>(env: Env<D>, st: State<D>, tid: nat, out: Outcome, q: set<Call>, t: nat)
    requires ReadsUnaffected(env) && Ok(env, st, q) && tid in st.flights && st.flights[tid].Called?
    requires Clean(env, st, Reach(tid, out)) && t in DoReach(env, st, tid, out).flights
    ensures var st' := DoReach(env, st, tid, out);
            Sound(env, st') && st'.flights[t].call in q && FlightFresh(env, st', st'.flights[t])
  {
    var st' := DoReach(env, st, tid, out);
    var f := st'.flights[t];
    if WillCache(env, f, f.call.port) {
      if t == tid {
        ReachAnswers(env, st, tid, out, f.call);
      } else {
        assert f == st.flights[t] && FlightFresh(env, st, f);
        ReachAnswers(env, st, tid, out, f.call);
      }
    }
  }

  lemma ReachKeepsOk<D(!new)>(env: Env<D>, st: State<D>, tid: nat, out: Outcome, q: set<Call>)
    requires ReadsUnaffected(env) && Ok(env, st, q) && tid in st.flights && st.flights[tid].Called?
    requires Clean(env, st, Reach(tid, out))
    ensures Ok(env, DoReach(env, st, tid, out), q)
  {
    var st' := DoReach(env, st, tid, out);
    ApplySound(env, st, Reach(tid, out));
    forall t | t in st'.flights ensures st'.flights[t].call in q && FlightFresh(env, st', st'.flights[t]) {
      ReachKeepsFlights(env, st, tid, out, q, t);
    }
    var c := st.flights[tid].call;
    forall r | r in q ensures Fresh(env, st', r) {
      if IsMutation(c.name) && out.Works? && c.port == r.port {
        assert tid in st'.flights && Mutates(st'.flights[tid], r.port);
      } else {
        if Cacheable(env, r) {
          ReachAnswers(env, st, tid, out, r);
        }
        FreshStays(env, st, st', r);
      }
    }
  }

  lemma EndKeepsFresh<D>(env: Env<D>, st: State<D>, tid: nat, now: nat, q: set<Call>, r: Call)
    requires CollisionFree(env, q) && Ok(env, st, q) && r in q && tid in st.flights && st.flights[tid].Answered?
    ensures Sound(env, DoEnd(env, st, tid, now)) && Fresh(env, DoEnd(env, st, tid, now), r)
  {
    var st', f := DoEnd(env, st, tid, now), st.flights[tid];
    ApplySound(env, st, End(tid, now));
    if f.out.Works? {
      AfterSuccessOn(env, st.net.cache, f.call, f.key, f.data, now, r, q);
      var after := Cached(env, st'.net.cache, r);
      if r == f.call && Cacheable(env, r) && after.Some? && after.value.value == f.data {
        assert FlightFresh(env, st, f);
        assert CurrentFor(env, st'.net, r);
      } else if Mutates(f, r.port) {
        assert after.None?;
        assert CurrentFor(env, st'.net, r);
      } else {
        FreshStays(env, st, st', r);
      }
    } else {
      FreshStays(env, st, st', r);
    }
  }

  lemma ProcessedWellFormed<D>(env: Env<D>, net: Net<D>, f: Flight, now: nat)
    requires f.Answered? && f.call.port in env.ports && f.call.port in net.breakers && WellFormed(net.cache)
    ensures WellFormed(Processed(env, net, f, now).cache) && Processed(env, net, f, now).world == net.world
  {
  }

  lemma EndKeepsOk<D>(env: Env<D>, st: State<D>, tid: nat, now: nat, q: set<Call>)
    requires CollisionFree(env, q) && Ok(env, st, q) && tid in st.flights && st.flights[tid].Answered?
    ensures Ok(env, DoEnd(env, st, tid, now), q)
  {
    var st' := DoEnd(env, st, tid, now);
    ApplySound(env, st, End(tid, now));
    ProcessedWellFormed(env, st.net, st.flights[tid], now);
    forall t | t in st'.flights ensures st'.flights[t].call in q && FlightFresh(env, st', st'.flights[t]) {
      assert FlightFresh(env, st, st.flights[t]);
    }
    forall r | r in q ensures Fresh(env, st', r) {
      EndKeepsFresh(env, st, tid, now, q, r);
    }
  }

  lemma ReplayKeepsOk<D(!new)>(env: Env<D>, st: State<D>, c: Call, q: set<Call>)
    requires ReadsUnaffected(env) && Ok(env, st, q) && c.port in env.ports && !IsMutation(c.name)
    ensures Ok(env, st.(net := Replay(env, st.net, c)), q)
  {
    var st' := st.(net := Replay(env, st.net, c));
    forall t | t in st'.flights ensures FlightFresh(env, st', st'.flights[t]) {
      var f := st.flights[t];
      assert FlightFresh(env, st, f);
      if WillCache(env, f, f.call.port) {
        AnswerUnchanged(env, st.net, st'.net, c, env.live, f.call);
      }
    }
    forall r | r in q ensures Fresh(env, st', r) {
      if Cacheable(env, r) {
        AnswerUnchanged(env, st.net, st'.net, c, env.live, r);
      }
      FreshStays(env, st, st', r);
    }
  }

  /** Every clean step keeps cached reads and answers in flight fresh. */
  lemma StepKeepsOk<D(!new)>(env: Env<D>, st: State<D>, a: Action, q: set<Call>)
    requires ReadsUnaffected(env) && CollisionFree(env, q) && Ok(env, st, q) && Clean(env, st, a)
    requires a.Begin? || a.Replays? ==> a.call in q
    ensures Ok(env, Apply(env, st, a), q)
  {
    hide Ok, DoBegin, DoReach, DoEnd, Replay;
    OkIsSound(env, st, q);
    match a {
      case Begin(tid, c, key, now) => BeginKeepsOk(env, st, tid, c, key, now, q);
      case Reach(tid, out) =>
        if tid in st.flights && st.flights[tid].Called? {
          ReachKeepsOk(env, st, tid, out, q);
        } else {
          Idle(env, st, a);
        }
      case End(tid, now) =>
        if tid in st.flights && st.flights[tid].Answered? {
          EndKeepsOk(env, st, tid, now, q);
        } else {
          Idle(env, st, a);
        }
      case Replays(c) => if c.port in env.ports { ReplayKeepsOk(env, st, c, q); }
    }
  }

  lemma OkIsSound<D>(env: Env<D>, st: State<D>, q: set<Call>)
    requires Ok(env, st, q)
    ensures Sound(env, st)
  {
  }

  lemma Idle<D>(env: Env<D>, st: State<D>, a: Action)
    requires Sound(env, st) && (a.Reach? || a.End?)
    requires a.tid !in st.flights || (if a.Reach? then !st.flights[a.tid].Called? else !st.flights[a.tid].Answered?)
    ensures Apply(env, st, a) == st
  {
  }

  lemma {:induction false} GoKeepsOk<D(!new)>(env: Env<D>, st: State<D>, acts: seq<Action>, q: set<Call>)
    requires ReadsUnaffected(env) && CollisionFree(env, q) && Ok(env, st, q) && AllClean(env, st, acts, q)
    ensures Ok(env, Go(env, st, acts), q)
    decreases |acts|
  {
    hide Ok, Apply, Clean;
    OkIsSound(env, st, q);
    if acts != [] {
      ApplySound(env, st, acts[0]);
      StepKeepsOk(env, st, acts[0], q);
      GoKeepsOk(env, Apply(env, st, acts[0]), acts[1..], q);
    }
  }

  /**
    Transparency under overlap: in every interleaving in which no mutation of a port takes effect between
    a read's adapter call and its cache write, a call answered from the cache gets exactly what a direct
    adapter call would return then, unless a mutation of the port is at that moment between its effect
    and its invalidation.
   */
  lemma CleanOverlapIsTransparent<D(!new)>(env: Env<D>, net: Net<D>, acts: seq<Action>, c: Call, key: Option<string>,
                                           now: nat, q: set<Call>)
    requires ReadsUnaffected(env) && CollisionFree(env, q) && c in q && c.port in env.ports
    requires Registered(env, net) && net.cache == Store([], map[])
    requires Sound(env, State(net, map[])) && AllClean(env, State(net, map[]), acts, q)
    ensures var st := Go(env, State(net, map[]), acts);
            var known := Known(env, st.net.cache, c, key, now).1;
            var direct := if env.mockMode || c.port in env.mockPorts
                          then env.mock(c.port, c.name, c.params, st.net.world[c.port])
                          else env.live(c.port, c.name, c.params, st.net.world[c.port]);
            known.Some? && known.value.FromCache? && !Pending(st, c.port) ==> known.value.data == direct.0
  {
    GoKeepsOk(env, State(net, map[]), acts, q);
    var st := Go(env, State(net, map[]), acts);
    assert Fresh(env, st, c);
    KnownAnswer(env, st.net.cache, c, key, now);
  }

  // ---- A read in flight across a mutation ----

  /** A read's cache write leaves a current entry if and only if the answer has not changed since its adapter call. */
  lemma LateWriteIsCurrentExactly<D>(env: Env<D>, st: State<D>, tid: nat, now: nat)
    requires Sound(env, st) && tid in st.flights && WillCache(env, st.flights[tid], st.flights[tid].call.port)
    requires st.flights[tid].key == None
    ensures var st', r := DoEnd(env, st, tid, now), st.flights[tid].call;
            && Sound(env, st') && Cached(env, st'.net.cache, r).Some?
            && (CurrentFor(env, st'.net, r) <==> st.flights[tid].data == Direct(env, st.net, r))
  {
    var f := st.flights[tid];
    ApplySound(env, st, End(tid, now));
    SetLooks(env.cacheCfg, Invalidated(env, st.net.cache, f.call), CacheKey(env, f.call), f.data,
             env.ports[f.call.port].cacheTtl, now, FullKey(env.cacheCfg, CacheKey(env, f.call)));
  }

  /** Begin, effect and processing of a mutation, between a read's adapter call and its cache write. */
  function Crossing(r: Call, w: Call, now: nat): seq<Action>
  {
    [Begin(1, r, None, now), Reach(1, Works),
     Begin(2, w, None, now), Reach(2, Works), End(2, now),
     End(1, now)]
  }

  lemma GoStep<D>(env: Env<D>, st: State<D>, acts: seq<Action>)
    requires Sound(env, st) && acts != []
    ensures Sound(env, Apply(env, st, acts[0]))
    ensures Go(env, st, acts) == Go(env, Apply(env, st, acts[0]), acts[1..])
  {
    hide Apply;
    ApplySound(env, st, acts[0]);
  }

  /** The read has been answered; the mutation begins with the old answer under way. */
  lemma ReadUnderWay<D>(env: Env<D>, net: Net<D>, r: Call, now: nat)
    requires FreshRead(env, net, r)
    ensures var st := State(net, map[]);
            Sound(env, st) &&
            var s1 := DoBegin(env, st, 1, r, None, now);
            Sound(env, s1) &&
            var s2 := DoReach(env, s1, 1, Works);
            && s2.flights == map[1 := Answered(r, None, Works, Direct(env, net, r))]
            && s2.net.world == net.world && s2.net.cache == net.cache && s2.net.breakers[r.port].mode == CB.Closed
            && Sound(env, s2)
  {
    assert Lookup(net.cache, FullKey(env.cacheCfg, CacheKey(env, r))).None?;
    assert Known(env, net.cache, r, None, now) == (net.cache, None);
  }

  lemma MutationBegins<D>(env: Env<D>, st: State<D>, w: Call, now: nat)
    requires Sound(env, st) && 2 !in st.flights && st.net.cache == Store([], map[])
    requires w.port in env.ports && IsMutation(w.name) && st.net.breakers[w.port].mode == CB.Closed
    ensures var s1 := DoBegin(env, st, 2, w, None, now);
            && Sound(env, s1) && s1.flights == st.flights[2 := Called(w, None)]
            && s1.net.cache == st.net.cache && s1.net.world == st.net.world
  {
    assert Known(env, st.net.cache, w, None, now) == (st.net.cache, None);
  }

  lemma MutationEnds<D>(env: Env<D>, st: State<D>, w: Call, data: string, now: nat)
    requires Sound(env, st) && st.net.cache == Store([], map[]) && IsMutation(w.name)
    requires 2 in st.flights && st.flights[2] == Answered(w, None, Works, data)
    ensures var s1 := DoEnd(env, st, 2, now);
            && Sound(env, s1) && s1.flights == st.flights - {2}
            && s1.net.cache == st.net.cache && s1.net.world == st.net.world
  {
    hide CB.Next;
    assert Invalidated(env, st.net.cache, w) == st.net.cache;
  }

  lemma MutationPasses<D>(env: Env<D>, st: State<D>, f: Flight, w: Call, now: nat)
    requires Sound(env, st) && st.flights == map[1 := f] && st.net.cache == Store([], map[])
    requires w.port in env.ports && IsMutation(w.name) && st.net.breakers[w.port].mode == CB.Closed
    ensures var s1 := DoBegin(env, st, 2, w, None, now);
            Sound(env, s1) &&
            var s2 := DoReach(env, s1, 2, Works);
            Sound(env, s2) &&
            var s3 := DoEnd(env, s2, 2, now);
            && Sound(env, s3) && s3.flights == map[1 := f] && s3.net.cache == Store([], map[])
            && s3.net.world == st.net.world[w.port := AdapterOf(env, w.port)(w.port, w.name, w.params,
                                                                            st.net.world[w.port]).1]
  {
    hide DoBegin, DoEnd;
    MutationBegins(env, st, w, now);
    var s1 := DoBegin(env, st, 2, w, None, now);
    var s2 := DoReach(env, s1, 2, Works);
    MutationEnds(env, s2, w, s2.flights[2].data, now);
    assert s2.flights - {2} == map[1 := f];
  }

  /**
    The run that serves a stale read: a mutation takes effect, and even invalidates, between a read's
    adapter call and its cache write. The old answer is then cached, nothing is under way any more, and
    the next read within the lifetime gets it.
   */
  lemma CrossingServesStaleReads<D>(env: Env<D>, net: Net<D>, r: Call, w: Call, now: nat)
    requires FreshRead(env, net, r) && w.port == r.port && IsMutation(w.name)
    requires !AnswerKept(env, AdapterOf(env, w.port), w, r, net.world[r.port])
    ensures var st := State(net, map[]);
            Sound(env, st) &&
            var at := Go(env, st, Crossing(r, w, now));
            && at.flights == map[]
            && Execute(env, at.net, r, None, Works, now).1 == FromCache(Direct(env, net, r))
            && Direct(env, net, r) != Direct(env, at.net, r)
  {
    hide Go, DoBegin, DoReach, DoEnd;
    var acts := Crossing(r, w, now);
    var st := State(net, map[]);
    ReadUnderWay(env, net, r, now);
    var s1 := Apply(env, st, acts[0]);
    var s2 := Apply(env, s1, acts[1]);
    MutationPasses(env, s2, s2.flights[1], w, now);
    var s3 := Apply(env, s2, acts[2]);
    var s4 := Apply(env, s3, acts[3]);
    var s5 := Apply(env, s4, acts[4]);
    var s6 := LastEnd(env, s5, r, Direct(env, net, r), now);
    assert acts[1..][1..] == acts[2..] && acts[2..][1..] == acts[3..] && acts[3..][1..] == acts[4..] &&
        acts[4..][1..] == acts[5..] && acts[5..][1..] == [];
    GoStep(env, st, acts);
    GoStep(env, s1, acts[1..]);
    GoStep(env, s2, acts[2..]);
    GoStep(env, s3, acts[3..]);
    GoStep(env, s4, acts[4..]);
    GoStep(env, s5, acts[5..]);
    GoNothing(env, s6);
    CachedReadIsServed(env, s6.net, r, Works, now);
  }

  lemma GoNothing<D>(env: Env<D>, st: State<D>)
    requires Sound(env, st)
    ensures Go(env, st, []) == st
  {
  }

  lemma LastEnd<D>(env: Env<D>, st: State<D>, r: Call, data: string, now: nat) returns (st': State<D>)
    requires Sound(env, st) && Cacheable(env, r) && st.flights == map[1 := Answered(r, None, Works, data)]
    ensures st' == Apply(env, st, End(1, now)) && Sound(env, st') && st'.flights == map[]
    ensures st'.net.world == st.net.world
    ensures Cached(env, st'.net.cache, r) == Some(Entry(data, Some(now + env.ports[r.port].cacheTtl * 1000)))
  {
    st' := Apply(env, st, End(1, now));
    ApplySound(env, st, End(1, now));
    SetLooks(env.cacheCfg, st.net.cache, CacheKey(env, r), data, env.ports[r.port].cacheTtl, now,
             FullKey(env.cacheCfg, CacheKey(env, r)));
  }
}
