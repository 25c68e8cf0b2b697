/**
  Schedules of overlapping binds: one that exceeds every bound, the ones without overlap, and what the
  unsynchronised counter loses when two bumps of it overlap.
 */
module OverlapRuns {
  import opened Prelude
  import opened MemoryCache
  import opened BindingKeys
  import opened BindingData
  import opened RateLimiter
  import opened BindingService
  import opened BindingRates
  import opened BindingEvictions
  import opened CacheRoom
  import opened BindingOverlap
  import CS = CustomerService

  // ---- n binds that all check before any of them records ----

  function Asks(user: string, session: string, ref: string, t: nat, base: nat, n: nat): seq<Action>
    decreases n
  {
    if n == 0 then [] else [Ask(base, user, session, ref, t)] + Asks(user, session, ref, t, base + 1, n - 1)
  }

  function Refusals(t: nat, base: nat, n: nat): seq<Action>
    decreases n
  {
    if n == 0 then [] else [Answer(base, "", Refused, t)] + Refusals(t, base + 1, n - 1)
  }

  /** The secret may be tried, and asking changes nothing. */
  ghost predicate Ready(cfg: Config, sys: System, user: string, session: string, ref: string, t: nat)
  {
    AskBind(cfg, sys, user, session, ref, t) == (sys, None)
  }

  ghost predicate Holds(st: State, user: string, ref: string, base: nat, n: nat)
  {
    forall i :: base <= i < base + n ==> i in st.waiting && st.waiting[i].user == user && st.waiting[i].ref == ref
  }

  ghost predicate NoneEvicts(cfg: Config, st: State, acts: seq<Action>)
  {
    forall id :: ScheduleSpares(cfg, st, acts, id)
  }

  lemma OneMoreEvictsNothing(cfg: Config, st: State, a: Action, acts: seq<Action>)
    requires NoneEvicts(cfg, Apply(cfg, st, a), acts) && forall id :: ActionSpares(cfg, st, a, id)
    ensures NoneEvicts(cfg, st, [a] + acts)
  {
    hide Apply, ActionSpares;
    var all := [a] + acts;
    assert all[0] == a && all[1..] == acts;
    forall id ensures ScheduleSpares(cfg, st, all, id) {
      assert ActionSpares(cfg, st, a, id) && ScheduleSpares(cfg, Apply(cfg, st, a), acts, id);
    }
  }

  ghost predicate AllAt(acts: seq<Action>, t: nat)
  {
    forall i :: 0 <= i < |acts| ==> ProperAction(acts[i]) && TimeOf(acts[i]) == t
  }

  lemma {:induction false} AllAtInSequence(acts: seq<Action>, clock: nat, t: nat)
    requires AllAt(acts, t) && clock <= t
    ensures InSequence(clock, acts)
    decreases |acts|
  {
    if acts != [] {
      AllAtInSequence(acts[1..], t, t);
    }
  }

  lemma AsksSpareAll(cfg: Config, st: State, a: Action)
    requires a.Ask?
    ensures forall id :: ActionSpares(cfg, st, a, id)
  {
  }

  lemma AskReady(cfg: Config, st: State, user: string, session: string, ref: string, t: nat, tid: nat)
    requires Ready(cfg, st.sys, user, session, ref, t) && tid !in st.waiting
    ensures Apply(cfg, st, Ask(tid, user, session, ref, t)) ==
            State(st.sys, st.waiting[tid := Waiting(user, session, ref, t, |st.sys.hist|)])
  {
    hide AskBind;
  }

  /** Asking n times leaves the system alone and n binds under way. */
  lemma {:induction false} RunAsks(cfg: Config, st: State, user: string, session: string, ref: string, t: nat,
                                   base: nat, n: nat)
    requires ':' !in user && Ready(cfg, st.sys, user, session, ref, t)
    requires forall i :: i in st.waiting ==> i < base
    ensures var acts := Asks(user, session, ref, t, base, n);
            var st' := Run(cfg, st, acts);
            && AllAt(acts, t) && NoneEvicts(cfg, st, acts) && st'.sys == st.sys && Holds(st', user, ref, base, n)
            && forall i :: i in st.waiting ==> i in st'.waiting && st'.waiting[i] == st.waiting[i]
    decreases n
  {
    hide Apply, Ready;
    if n > 0 {
      var acts := Asks(user, session, ref, t, base, n);
      var next := Apply(cfg, st, acts[0]);
      AskReady(cfg, st, user, session, ref, t, base);
      RunAsks(cfg, next, user, session, ref, t, base + 1, n - 1);
      assert acts[1..] == Asks(user, session, ref, t, base + 1, n - 1);
      assert base in next.waiting;
      AsksSpareAll(cfg, st, acts[0]);
      OneMoreEvictsNothing(cfg, st, acts[0], acts[1..]);
    }
  }

  lemma RefuseOne(cfg: Config, st: State, keys: set<string>, user: string, ref: string, t: nat, tid: nat)
    requires Room(cfg, st.sys.cache, keys) && HoldsPair(cfg, keys, user, ref)
    requires tid in st.waiting && st.waiting[tid].user == user && st.waiting[tid].ref == ref
    ensures var a := Answer(tid, "", Refused, t);
            var st' := Apply(cfg, st, a);
            && Room(cfg, st'.sys.cache, keys) && (forall id :: ActionSpares(cfg, st, a, id))
            && st'.waiting == st.waiting - {tid}
            && st'.sys.hist == st.sys.hist + [FailedVerify(user, ref, st.waiting[tid].asked, t)]
  {
    forall id ensures ActionSpares(cfg, st, Answer(tid, "", Refused, t), id) {
      RecordFailureInRoom(cfg, st.sys.cache, keys, user, ref, t, id);
    }
    RecordFailureInRoom(cfg, st.sys.cache, keys, user, ref, t, PairGate(user, ref));
  }

  /** ... and n refusals are n failed verifications, locks or no locks. */
  lemma {:induction false} RunRefusals(cfg: Config, st: State, keys: set<string>, user: string, ref: string, t: nat,
                                       base: nat, n: nat, id: GateId)
    requires Room(cfg, st.sys.cache, keys) && HoldsPair(cfg, keys, user, ref) && Holds(st, user, ref, base, n)
    requires Covers(id, user, ref)
    ensures var acts := Refusals(t, base, n);
            && AllAt(acts, t) && NoneEvicts(cfg, st, acts)
            && FailedVerifies(Run(cfg, st, acts).sys.hist, id, t, t + 1) ==
               FailedVerifies(st.sys.hist, id, t, t + 1) + n
    decreases n
  {
    hide Apply, ActionSpares, HoldsPair, Room;
    if n > 0 {
      var acts := Refusals(t, base, n);
      var next := Apply(cfg, st, acts[0]);
      RefuseOne(cfg, st, keys, user, ref, t, base);
      FailedVerifiesAppend(st.sys.hist, FailedVerify(user, ref, st.waiting[base].asked, t), id, t, t + 1);
      assert acts[1..] == Refusals(t, base + 1, n - 1);
      RunRefusals(cfg, next, keys, user, ref, t, base + 1, n - 1, id);
      OneMoreEvictsNothing(cfg, st, acts[0], acts[1..]);
    }
  }

  lemma {:induction false} RunConcat(cfg: Config, st: State, a: seq<Action>, b: seq<Action>)
    ensures Run(cfg, st, a + b) == Run(cfg, Run(cfg, st, a), b)
    decreases |a|
  {
    hide Apply;
    if a == [] {
      assert a + b == b;
    } else {
      assert (a + b)[1..] == a[1..] + b;
      RunConcat(cfg, Apply(cfg, st, a[0]), a[1..], b);
    }
  }

  lemma {:induction false} SparesConcat(cfg: Config, st: State, a: seq<Action>, b: seq<Action>, id: GateId)
    requires ScheduleSpares(cfg, st, a, id) && ScheduleSpares(cfg, Run(cfg, st, a), b, id)
    ensures ScheduleSpares(cfg, st, a + b, id)
    decreases |a|
  {
    hide Apply, ActionSpares;
    if a == [] {
      assert a + b == b;
    } else {
      assert (a + b)[1..] == a[1..] + b;
      SparesConcat(cfg, Apply(cfg, st, a[0]), a[1..], b, id);
    }
  }

  /** A bind-init on an empty cache with room: everything is ready. */
  lemma InitMakesReady(cfg: Config, seeds: seq<CS.Customer>, user: string, session: string, phone: string, ref: string,
                       t: nat)
    requires cfg.maxEntries >= 7 && Reachable(FreshSystem(seeds).customers, user, phone, ref)
    ensures var call := InitCall(user, session, Some(phone), t);
            var sys := Step(cfg, FreshSystem(seeds), call);
            && Ready(cfg, sys, user, session, ref, t) && Room(cfg, sys.cache, SevenKeys(cfg, user, session, ref))
            && sys.hist == [Inited(session, CS.Resolve(FreshSystem(seeds).customers, phone), t)]
            && forall id :: CallSpares(cfg, FreshSystem(seeds), call, id)
  {
    var start := FreshSystem(seeds);
    var result := CS.Resolve(start.customers, phone);
    var sys := Step(cfg, start, InitCall(user, session, Some(phone), t));
    InitStores(cfg, start, user, session, phone, t);
    SevenKeysFit(cfg, user, session, ref);
    SetInRoom(cfg, start.cache, SevenKeys(cfg, user, session, ref), Encode(InitKey(session)), Init(result),
              INIT_TTL_SEC, t);
    InitKeepsLimiterGone(cfg, start, user, session, phone, t);
    UnlockedWithoutLimiter(cfg, sys.cache, user, ref, t);
    AskGranted(cfg, sys, user, session, ref, result, t);
  }

  lemma RunOne(cfg: Config, st: State, a: Action)
    ensures Run(cfg, st, [a]) == Apply(cfg, st, a)
    ensures forall id :: ScheduleSpares(cfg, st, [a], id) <==> ActionSpares(cfg, st, a, id)
  {
    assert [a][1..] == [];
    forall id ensures ScheduleSpares(cfg, Apply(cfg, st, a), [a][1..], id) {
    }
  }

  /** A bind-init, n checks, n refusals. */
  function Rush(user: string, session: string, phone: string, ref: string, t: nat, n: nat): seq<Action>
  {
    [Whole(InitCall(user, session, Some(phone), t))] + Asks(user, session, ref, t, 0, n) + Refusals(t, 0, n)
  }

  /**
    Overlap lifts every bound: for any number n, n binds of one user that all check before any of them
    records make n failed verifications of one customer within one millisecond, though no write evicts
    anything.
   */
  lemma OverlapLiftsEveryBound(cfg: Config, seeds: seq<CS.Customer>, user: string, session: string, phone: string,
                               ref: string, t: nat, n: nat, id: GateId)
    requires cfg.maxEntries >= 7 && Reachable(FreshSystem(seeds).customers, user, phone, ref) && Covers(id, user, ref)
    ensures var acts := Rush(user, session, phone, ref, t, n);
            && InSequence(0, acts) && NoneEvicts(cfg, Start(seeds), acts)
            && FailedVerifies(Run(cfg, Start(seeds), acts).sys.hist, id, t, t + 1) == n
  {
    hide Apply, ActionSpares, Step, Ready, Room, HoldsPair, SevenKeys, CallSpares, Asks, Refusals, ScheduleSpares,
      Covers;
    var init := Whole(InitCall(user, session, Some(phone), t));
    var asks, refusals := Asks(user, session, ref, t, 0, n), Refusals(t, 0, n);
    var st1 := Apply(cfg, Start(seeds), init);
    InitMakesReady(cfg, seeds, user, session, phone, ref, t);
    ApplyInit(cfg, seeds, init.call);
    RunAsks(cfg, st1, user, session, ref, t, 0, n);
    var st2 := Run(cfg, st1, asks);
    SevenKeysFit(cfg, user, session, ref);
    RunRefusals(cfg, st2, SevenKeys(cfg, user, session, ref), user, ref, t, 0, n, id);
    RunOne(cfg, Start(seeds), init);
    RunConcat(cfg, Start(seeds), [init], asks);
    RunConcat(cfg, Start(seeds), [init] + asks, refusals);
    forall other ensures ScheduleSpares(cfg, Start(seeds), [init] + asks + refusals, other) {
      SparesConcat(cfg, Start(seeds), [init], asks, other);
      SparesConcat(cfg, Start(seeds), [init] + asks, refusals, other);
    }
    AllAtInSequence([init] + asks + refusals, 0, t);
    FailedVerifiesAppend([], st1.sys.hist[0], id, t, t + 1);
    assert [] + [st1.sys.hist[0]] == st1.sys.hist;
  }

  lemma ApplyInit(cfg: Config, seeds: seq<CS.Customer>, call: Call)
    requires !call.BindCall? && forall id :: CallSpares(cfg, FreshSystem(seeds), call, id)
    ensures Apply(cfg, Start(seeds), Whole(call)) == State(Step(cfg, FreshSystem(seeds), call), map[])
    ensures forall id :: ActionSpares(cfg, Start(seeds), Whole(call), id)
  {
    hide Step, CallSpares;
  }

  // ---- Serialised runs are the schedules with one bind under way ----

  function Steps(call: Call): seq<Action>
  {
    if call.BindCall? then [Ask(0, call.user, call.session, call.ref, call.now),
                            Answer(0, call.factor, call.verdict, call.answered)]
    else [Whole(call)]
  }

  function Serial(calls: seq<Call>): seq<Action>
  {
    if calls == [] then [] else Steps(calls[0]) + Serial(calls[1..])
  }

  lemma {:induction false} UnderWayConcat(cfg: Config, st: State, a: seq<Action>, b: seq<Action>, id: GateId, k: nat)
    requires AtMostUnderWay(cfg, st, a, id, k) && AtMostUnderWay(cfg, Run(cfg, st, a), b, id, k)
    ensures AtMostUnderWay(cfg, st, a + b, id, k)
    decreases |a|
  {
    hide Apply, Under;
    if a == [] {
      assert a + b == b;
    } else {
      assert (a + b)[1..] == a[1..] + b;
      UnderWayConcat(cfg, Apply(cfg, st, a[0]), a[1..], b, id, k);
    }
  }

  lemma FewUnder(st: State, tid: nat, id: GateId)
    requires forall i :: i in st.waiting ==> i == tid
    ensures |Under(st, id)| <= 1
  {
    if tid in Under(st, id) {
      assert Under(st, id) == {tid};
    } else {
      assert Under(st, id) == {};
    }
  }

  lemma CallIsSchedule(cfg: Config, sys: System, call: Call, id: GateId)
    ensures var st := State(sys, map[]);
            && Run(cfg, st, Steps(call)) == State(Step(cfg, sys, call), map[])
            && AtMostUnderWay(cfg, st, Steps(call), id, 1)
  {
    hide Step, AskBind, Settled, Under;
    var st, acts := State(sys, map[]), Steps(call);
    FewUnder(st, 0, id);
    var st1 := Apply(cfg, st, acts[0]);
    FewUnder(st1, 0, id);
    if call.BindCall? {
      AskThenAnswerIsBind(cfg, sys, map[], 0, call);
      var st2 := Apply(cfg, st1, acts[1]);
      FewUnder(st2, 0, id);
      assert acts[1..] == [acts[1]];
      RunOne(cfg, st1, acts[1]);
      assert [acts[1]][1..] == [];
      assert AtMostUnderWay(cfg, st2, [], id, 1);
      assert AtMostUnderWay(cfg, st1, [acts[1]], id, 1);
    } else {
      RunOne(cfg, st, acts[0]);
      assert acts[1..] == [];
      assert AtMostUnderWay(cfg, st1, [], id, 1);
    }
  }

  /** One call at a time: the same systems, and never more than one bind under way. */
  lemma {:induction false} SerialRunsAreSchedules(cfg: Config, sys: System, calls: seq<Call>, id: GateId)
    ensures Run(cfg, State(sys, map[]), Serial(calls)) == State(Exec(cfg, sys, calls), map[])
    ensures AtMostUnderWay(cfg, State(sys, map[]), Serial(calls), id, 1)
    decreases |calls|
  {
    hide Step, Apply, Under, Steps;
    if calls == [] {
      FewUnder(State(sys, map[]), 0, id);
    } else {
      var st, acts := State(sys, map[]), Steps(calls[0]);
      CallIsSchedule(cfg, sys, calls[0], id);
      SerialRunsAreSchedules(cfg, Step(cfg, sys, calls[0]), calls[1..], id);
      RunConcat(cfg, st, acts, Serial(calls[1..]));
      UnderWayConcat(cfg, st, acts, Serial(calls[1..]), id, 1);
    }
  }

  // ---- Bumps of one counter that overlap ----

  /** The second half of a bump: writing the counter computed from what was read before. */
  function WriteCounter(cfg: Config, s: Cache, key: string, read: Option<Value>, windowSec: nat, now: nat): Cache
  {
    Set(cfg, s, key, NextCounter(read, windowSec, now), windowSec, now)
  }

  /** n writes, all computed from the same reading. */
  function Writes(cfg: Config, s: Cache, key: string, read: Option<Value>, windowSec: nat, now: nat, n: nat): Cache
  {
    if n == 0 then s
    else WriteCounter(cfg, Writes(cfg, s, key, read, windowSec, now, n - 1), key, read, windowSec, now)
  }

  lemma UnbrokenBump(cfg: Config, s: Cache, key: string, windowSec: nat, now: nat)
    ensures var (s1, read) := Get(cfg, s, key, now);
            Bump(cfg, s, key, windowSec, now).0 == WriteCounter(cfg, s1, key, read, windowSec, now)
  {
  }

  /** n failures whose bumps all read before any of them writes are counted once. */
  lemma OverlappingBumpsCountOnce(cfg: Config, s: Cache, key: string, windowSec: nat, now: nat, n: nat)
    requires n >= 1
    ensures var (s1, read) := Get(cfg, s, key, now);
            var e := Lookup(Writes(cfg, s1, key, read, windowSec, now, n), FullKey(cfg, key));
            && e.Some? && e.value.value == NextCounter(read, windowSec, now)
            && e.value.value.n == Bump(cfg, s, key, windowSec, now).1
  {
    var (s1, read) := Get(cfg, s, key, now);
    var before := Writes(cfg, s1, key, read, windowSec, now, n - 1);
    SetLooks(cfg, before, key, NextCounter(read, windowSec, now), windowSec, now, FullKey(cfg, key));
  }

  /** The count still running at this time. */
  function RunningCount(v: Option<Value>, windowSec: nat, now: nat): Option<Value>
  {
    if v.Some? && v.value.Counter? && now - v.value.since < windowSec * 1000 then v else None
  }

  /** A write counts its failure if and only if the running count is still the one that was read. */
  lemma StaleBumpLosesExactly(cfg: Config, s: Cache, key: string, read: Option<Value>, windowSec: nat, now: nat)
    requires read.Some? && read.value.Counter? ==> read.value.n >= 1
    requires Get(cfg, s, key, now).1.Some? && Get(cfg, s, key, now).1.value.Counter? ==>
               Get(cfg, s, key, now).1.value.n >= 1
    ensures var stored := Get(cfg, s, key, now).1;
            Lookup(WriteCounter(cfg, s, key, read, windowSec, now), FullKey(cfg, key)) ==
            Lookup(Bump(cfg, s, key, windowSec, now).0, FullKey(cfg, key))
            <==> RunningCount(read, windowSec, now) == RunningCount(stored, windowSec, now)
  {
    var (s1, stored) := Get(cfg, s, key, now);
    SetLooks(cfg, s, key, NextCounter(read, windowSec, now), windowSec, now, FullKey(cfg, key));
    SetLooks(cfg, s1, key, NextCounter(stored, windowSec, now), windowSec, now, FullKey(cfg, key));
  }
}
