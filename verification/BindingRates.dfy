/**
  How often a secret can be guessed: bounds over whole serialised runs of the binding service. The
  limiter's state is related to the history alone, through the gates, for every ceiling whose running
  counter and lock the cache does not evict.
 */
module BindingRates {
  import opened Prelude
  import opened MemoryCache
  import opened LockoutGate
  import opened BindingKeys
  import opened BindingData
  import opened RateLimiter
  import opened BindingService
  import opened KeyLosses
  import CS = CustomerService

  type BindingEvent = BindingService.Event

  /** A verification was asked for, however it went. */
  predicate IsAttempt(e: BindingEvent, id: GateId)
  {
    (e.FailedVerify? || e.Succeeded? || e.Broken?) && Covers(id, e.user, e.ref)
  }

  /** What an event means to one ceiling: customer-wide counters are never cleared. */
  function Seen(e: BindingEvent, id: GateId): seq<LockoutGate.Event>
  {
    if e.FailedVerify? && Covers(id, e.user, e.ref) then [Fail(e.at)]
    else if e.Succeeded? && !id.CustomerGate? && Covers(id, e.user, e.ref) then [Clear(e.at)]
    else []
  }

  function Project(hist: seq<BindingEvent>, id: GateId): seq<LockoutGate.Event>
  {
    if hist == [] then [] else Project(hist[..|hist| - 1], id) + Seen(hist[|hist| - 1], id)
  }

  /** The gate that the history alone prescribes. */
  function GateOf(hist: seq<BindingEvent>, id: GateId): Gate
  {
    GateAfter(CeilingOf(id), Project(hist, id))
  }

  predicate UnlockedAt(hist: seq<BindingEvent>, j: nat, id: GateId)
    requires j < |hist|
  {
    IsAttempt(hist[j], id) ==> !Locked(GateOf(hist[..j], id), hist[j].asked)
  }

  /** Every verification covered by the ceiling was asked for while its gate was not locked. */
  ghost predicate AttemptsUnlocked(hist: seq<BindingEvent>, id: GateId)
  {
    forall j :: 0 <= j < |hist| ==> UnlockedAt(hist, j, id)
  }

  ghost predicate EventsUpTo(evs: seq<LockoutGate.Event>, clock: nat)
  {
    forall i :: 0 <= i < |evs| ==> evs[i].at <= clock
  }

  ghost predicate GateInv(hist: seq<BindingEvent>, id: GateId, clock: nat)
  {
    View(CeilingOf(id), Project(hist, id), clock) && AttemptsUnlocked(hist, id)
  }

  ghost predicate Inv(cfg: Config, sys: System, id: GateId, clock: nat)
  {
    GateInv(sys.hist, id, clock) && Sim(cfg, sys.cache, id, GateOf(sys.hist, id), clock)
  }

  lemma ProjectAppend(hist: seq<BindingEvent>, e: BindingEvent, id: GateId)
    ensures Project(hist + [e], id) == Project(hist, id) + Seen(e, id)
  {
  }

  /** The step a gate takes for an event. */
  function SeenStep(g: Gate, e: BindingEvent, id: GateId): Gate
  {
    if Seen(e, id) == [] then g else GateStep(CeilingOf(id), g, Seen(e, id)[0])
  }

  lemma GateOfAppend(hist: seq<BindingEvent>, e: BindingEvent, id: GateId)
    ensures GateOf(hist + [e], id) == SeenStep(GateOf(hist, id), e, id)
  {
    ProjectAppend(hist, e, id);
    var evs := Project(hist, id);
    assert Seen(e, id) == [] ==> evs + Seen(e, id) == evs;
    assert Seen(e, id) != [] ==> (evs + Seen(e, id))[..|evs|] == evs;
  }

  lemma AttemptsAppend(hist: seq<BindingEvent>, e: BindingEvent, id: GateId)
    requires AttemptsUnlocked(hist, id)
    requires IsAttempt(e, id) ==> !Locked(GateOf(hist, id), e.asked)
    ensures AttemptsUnlocked(hist + [e], id)
  {
    var h := hist + [e];
    assert h[..|hist|] == hist;
    forall j | 0 <= j < |h| ensures UnlockedAt(h, j, id) {
      assert j < |hist| ==> UnlockedAt(hist, j, id) && h[..j] == hist[..j];
    }
  }

  /** A gate's own view of the history. */
  ghost predicate View(c: Ceiling, evs: seq<LockoutGate.Event>, clock: nat)
  {
    Ordered(evs) && Admitted(c, evs) && EventsUpTo(evs, clock)
  }

  /** What one more event does to it. */
  lemma SeenKeepsView(c: Ceiling, evs: seq<LockoutGate.Event>, e: LockoutGate.Event, clock: nat)
    requires View(c, evs, clock) && clock <= e.at && (e.Fail? ==> !Locked(GateAfter(c, evs), e.at))
    ensures View(c, evs + [e], e.at) && GateAfter(c, evs + [e]) == GateStep(c, GateAfter(c, evs), e)
  {
    AdmittedAppend(c, evs, e);
  }

  lemma ViewLater(c: Ceiling, evs: seq<LockoutGate.Event>, clock: nat, now: nat)
    requires View(c, evs, clock) && clock <= now
    ensures View(c, evs, now)
  {
  }

  lemma AppendKeepsView(e: BindingEvent, id: GateId, clock: nat,
                        evs: seq<LockoutGate.Event>, evs': seq<LockoutGate.Event>)
    requires evs' == evs + Seen(e, id) && View(CeilingOf(id), evs, clock) && clock <= e.at
    requires e.FailedVerify? && IsAttempt(e, id) ==> e.asked <= e.at && !Locked(GateAfter(CeilingOf(id), evs), e.asked)
    ensures View(CeilingOf(id), evs', e.at)
  {
    if Seen(e, id) == [] {
      ViewLater(CeilingOf(id), evs, clock, e.at);
      assert evs' == evs;
    } else {
      SeenKeepsView(CeilingOf(id), evs, Seen(e, id)[0], clock);
      assert evs' == evs + [Seen(e, id)[0]];
    }
  }

  /** Appending an event keeps the history facts. */
  lemma AppendKeepsGateInv(hist: seq<BindingEvent>, e: BindingEvent, id: GateId, clock: nat)
    requires GateInv(hist, id, clock) && clock <= e.at
    requires IsAttempt(e, id) ==> e.asked <= e.at && !Locked(GateOf(hist, id), e.asked)
    ensures GateInv(hist + [e], id, e.at)
  {
    AttemptsAppend(hist, e, id);
    ProjectAppend(hist, e, id);
    AppendKeepsView(e, id, clock, Project(hist, id), Project(hist + [e], id));
  }

  /** An unlocked check speaks for every ceiling that covers the attempt. */
  lemma UnlockedCheck(cfg: Config, s: Cache, user: string, ref: string, now: nat, id: GateId, g: Gate)
    requires Sim(cfg, s, id, g, now) && Covers(id, user, ref)
    requires CheckLocked(cfg, s, user, ref, now).1.Unlocked?
    ensures !Locked(g, now)
  {
  }

  // ---- Every operation moves the cached ceilings as its event says ----

  /** Consuming a token and warming the guard cache touch no limiter key. */
  lemma ConsumeKeepsSim(cfg: Config, s: Cache, session: string, user: string, v: Value, now: nat, id: GateId, g: Gate)
    requires ':' !in user && ColonFreeGate(id) && Sim(cfg, s, id, g, now)
    requires Spares(cfg, Delete(cfg, s, Encode(InitKey(session))), BoundKey(user), id, now)
    ensures var s1 := Delete(cfg, s, Encode(InitKey(session)));
            Sim(cfg, Set(cfg, s1, Encode(BoundKey(user)), v, BINDING_TTL_SEC, now), id, g, now)
  {
    DeleteKeepsSim(cfg, s, InitKey(session), id, g, now);
    var s1 := Delete(cfg, s, Encode(InitKey(session)));
    ForeignWriteKeepsSimExactly(cfg, s1, BoundKey(user), v, BINDING_TTL_SEC, id, g, now);
  }

  /** Reading the token and checking the locks: the ceiling is as before, and an unlocked check speaks for it. */
  lemma AskKeepsSim(cfg: Config, sys: System, user: string, session: string, ref: string, asked: nat,
                    id: GateId, g: Gate, clock: nat)
    requires Sim(cfg, sys.cache, id, g, clock) && clock <= asked
    ensures var (sys', refused) := AskBind(cfg, sys, user, session, ref, asked);
            && sys'.hist == sys.hist && Sim(cfg, sys'.cache, id, g, asked)
            && (refused.None? && Covers(id, user, ref) ==> !Locked(g, asked))
  {
    var initKey := Encode(InitKey(session));
    var s1 := Get(cfg, sys.cache, initKey, asked).0;
    TimePasses(cfg, sys.cache, id, g, clock, asked);
    GetKeepsSim(cfg, sys.cache, initKey, id, g, asked);
    CheckLockedKeepsSim(cfg, s1, user, ref, asked, id, g);
    if CheckLocked(cfg, s1, user, ref, asked).1.Unlocked? && Covers(id, user, ref) {
      UnlockedCheck(cfg, s1, user, ref, asked, id, g);
    }
  }

  /** The event a settled bind leaves. */
  function SettleEvent(user: string, session: string, ref: string, verdict: Verdict, asked: nat, now: nat): BindingEvent
  {
    if verdict.Refused? then FailedVerify(user, ref, asked, now)
    else if Binds(verdict) then Succeeded(user, session, ref, asked, now)
    else Broken(user, ref, asked, now)
  }

  /** A failure is one failure step of every covering gate, a success clears the pair's and the user's. */
  lemma SettleKeepsSim(cfg: Config, sys: System, user: string, session: string, ref: string, factor: string,
                       verdict: Verdict, asked: nat, now: nat, id: GateId, g: Gate)
    requires ':' !in user && ColonFreeGate(id) && Sim(cfg, sys.cache, id, g, now)
    requires SettleSpares(cfg, sys.cache, user, session, ref, verdict, now, id)
    ensures var sys' := SettleBind(cfg, sys, user, session, ref, factor, verdict, asked, now).0;
            var e := SettleEvent(user, session, ref, verdict, asked, now);
            sys'.hist == sys.hist + [e] && Sim(cfg, sys'.cache, id, SeenStep(g, e, id), now)
  {
    match verdict {
      case Refused => RecordFailureRefinesGates(cfg, sys.cache, user, ref, now, id, g);
      case Confirmed(cid, nonce, Done) =>
        var v := Binding(BindingEntry(EncryptIfNeeded(cid, nonce), ref, now));
        ClearFailuresRefinesGates(cfg, sys.cache, user, ref, now, id, g);
        ConsumeKeepsSim(cfg, ClearFailures(cfg, sys.cache, user, ref), session, user, v, now, id,
                        SeenStep(g, SettleEvent(user, session, ref, verdict, asked, now), id));
      case _ =>
    }
  }

  lemma RegisterKeepsSim(cfg: Config, sys: System, user: string, session: string, phone: Option<string>,
                         nonce: nat, upsert: DbCall, now: nat, id: GateId, g: Gate)
    requires ':' !in user && ColonFreeGate(id) && Sim(cfg, sys.cache, id, g, now)
    requires Register(cfg, sys, user, session, phone, nonce, upsert, now).1.RegisteredAs? ==>
               Spares(cfg, Delete(cfg, sys.cache, Encode(InitKey(session))), BoundKey(user), id, now)
    ensures Sim(cfg, Register(cfg, sys, user, session, phone, nonce, upsert, now).0.cache, id, g, now)
  {
    if Register(cfg, sys, user, session, phone, nonce, upsert, now).1.RegisteredAs? {
      var c := CS.Create(sys.customers, phone.value).1.value;
      ConsumeKeepsSim(cfg, sys.cache, session, user,
                      Binding(BindingEntry(EncryptIfNeeded(c.customerId, nonce), c.ref, now)), now, id, g);
    }
  }

  lemma GuardKeepsSim(cfg: Config, sys: System, user: string, ref: string, now: nat, id: GateId, g: Gate)
    requires ':' !in user && ColonFreeGate(id) && Sim(cfg, sys.cache, id, g, now)
    requires CallSpares(cfg, sys, GuardCall(user, ref, now), id)
    ensures Sim(cfg, ResolveBinding(cfg, sys, user, ref, now).0.cache, id, g, now)
  {
    var key := Encode(BoundKey(user));
    GetKeepsSim(cfg, sys.cache, key, id, g, now);
    if (user, ref) in sys.table {
      var row := sys.table[(user, ref)];
      ForeignWriteKeepsSimExactly(cfg, Get(cfg, sys.cache, key, now).0, BoundKey(user),
                                  Binding(BindingEntry(row.cipher, ref, row.verifiedAt)), BINDING_TTL_SEC, id, g, now);
    }
  }

  lemma CleanupKeepsSim(cfg: Config, s: Cache, id: GateId, g: Gate, now: nat)
    requires Sim(cfg, s, id, g, now)
    ensures Sim(cfg, Cleanup(s, now), id, g, now)
  {
  }

  /** The calls that are no binds mean nothing to a ceiling. */
  lemma OtherCallKeepsSim(cfg: Config, sys: System, call: Call, id: GateId, g: Gate)
    requires !call.BindCall? && Proper(call) && ColonFreeGate(id)
    requires Sim(cfg, sys.cache, id, g, call.now) && CallSpares(cfg, sys, call, id)
    ensures Sim(cfg, Step(cfg, sys, call).cache, id, g, call.now)
  {
    match call {
      case InitCall(_, session, phone, now) =>
        if HasPhone(phone) {
          ForeignWriteKeepsSimExactly(cfg, sys.cache, InitKey(session), Init(CS.Resolve(sys.customers, phone.value)),
                                      INIT_TTL_SEC, id, g, now);
        }
      case RegisterCall(user, session, phone, nonce, upsert, now) =>
        RegisterKeepsSim(cfg, sys, user, session, phone, nonce, upsert, now, id, g);
      case GuardCall(user, ref, now) => GuardKeepsSim(cfg, sys, user, ref, now, id, g);
      case CleanupCall(now) => CleanupKeepsSim(cfg, sys.cache, id, g, now);
      case ForeignSet(key, data, ttl, now) =>
        ForeignWriteKeepsSimExactly(cfg, sys.cache, ForeignKey(key), Other(data), ttl, id, g, now);
      case ForeignDelete(key, now) => DeleteKeepsSim(cfg, sys.cache, ForeignKey(key), id, g, now);
    }
  }

  /** ... and leave at most an event that means nothing to it either. */
  lemma OtherCallEvent(cfg: Config, sys: System, call: Call) returns (e: Option<BindingEvent>)
    requires !call.BindCall?
    ensures Step(cfg, sys, call).hist == if e.Some? then sys.hist + [e.value] else sys.hist
    ensures e.Some? ==> (e.value.Inited? || e.value.Registered?) && e.value.at == call.now
  {
    var hist' := Step(cfg, sys, call).hist;
    e := if |hist'| > |sys.hist| then Some(hist'[|sys.hist|]) else None;
  }

  // ---- Serialised runs ----

  lemma StillLater(hist: seq<BindingEvent>, id: GateId, clock: nat, now: nat)
    requires GateInv(hist, id, clock) && clock <= now
    ensures GateInv(hist, id, now)
  {
  }

  lemma SettleKeepsInv(cfg: Config, sys: System, user: string, session: string, ref: string, factor: string,
                       verdict: Verdict, asked: nat, now: nat, id: GateId, clock: nat)
    requires ':' !in user && ColonFreeGate(id) && clock <= asked <= now
    requires GateInv(sys.hist, id, clock) && Sim(cfg, sys.cache, id, GateOf(sys.hist, id), asked)
    requires SettleSpares(cfg, sys.cache, user, session, ref, verdict, now, id)
    requires Covers(id, user, ref) ==> !Locked(GateOf(sys.hist, id), asked)
    ensures Inv(cfg, SettleBind(cfg, sys, user, session, ref, factor, verdict, asked, now).0, id, now)
  {
    var g := GateOf(sys.hist, id);
    var e := SettleEvent(user, session, ref, verdict, asked, now);
    TimePasses(cfg, sys.cache, id, g, asked, now);
    SettleKeepsSim(cfg, sys, user, session, ref, factor, verdict, asked, now, id, g);
    AppendKeepsGateInv(sys.hist, e, id, clock);
    GateOfAppend(sys.hist, e, id);
  }

  lemma BindKeepsInv(cfg: Config, sys: System, call: Call, id: GateId, clock: nat)
    requires call.BindCall? && ':' !in call.user && ColonFreeGate(id)
    requires Inv(cfg, sys, id, clock) && clock <= call.now <= call.answered && CallSpares(cfg, sys, call, id)
    ensures Inv(cfg, Step(cfg, sys, call), id, call.answered)
  {
    var BindCall(user, session, ref, factor, verdict, asked, now) := call;
    var (sys1, refused) := AskBind(cfg, sys, user, session, ref, asked);
    AskKeepsSim(cfg, sys, user, session, ref, asked, id, GateOf(sys.hist, id), clock);
    if refused.None? {
      SettleKeepsInv(cfg, sys1, user, session, ref, factor, verdict, asked, now, id, clock);
    } else {
      StillLater(sys.hist, id, clock, now);
      TimePasses(cfg, sys1.cache, id, GateOf(sys.hist, id), asked, now);
    }
  }

  lemma OtherCallKeepsInv(cfg: Config, sys: System, call: Call, id: GateId, clock: nat)
    requires !call.BindCall? && Proper(call) && ColonFreeGate(id)
    requires Inv(cfg, sys, id, clock) && clock <= call.now && CallSpares(cfg, sys, call, id)
    ensures Inv(cfg, Step(cfg, sys, call), id, call.now)
  {
    hide Step, CallSpares;
    var g := GateOf(sys.hist, id);
    TimePasses(cfg, sys.cache, id, g, clock, call.now);
    OtherCallKeepsSim(cfg, sys, call, id, g);
    var e := OtherCallEvent(cfg, sys, call);
    if e.Some? {
      AppendKeepsGateInv(sys.hist, e.value, id, clock);
      GateOfAppend(sys.hist, e.value, id);
    } else {
      StillLater(sys.hist, id, clock, call.now);
    }
  }

  lemma StepKeepsInv(cfg: Config, sys: System, call: Call, id: GateId, clock: nat)
    requires Proper(call) && ColonFreeGate(id)
    requires Inv(cfg, sys, id, clock) && clock <= call.now <= EndOf(call) && CallSpares(cfg, sys, call, id)
    ensures Inv(cfg, Step(cfg, sys, call), id, EndOf(call))
  {
    hide Step, CallSpares;
    if call.BindCall? {
      BindKeepsInv(cfg, sys, call, id, clock);
    } else {
      OtherCallKeepsInv(cfg, sys, call, id, clock);
    }
  }

  /** The cache of a whole run refines the gates that its history prescribes. */
  lemma {:induction false} RunRefinesGates(cfg: Config, sys: System, calls: seq<Call>, id: GateId, clock: nat)
    requires ColonFreeGate(id) && Legal(clock, calls) && RunSpares(cfg, sys, calls, id) && Inv(cfg, sys, id, clock)
    ensures Inv(cfg, Exec(cfg, sys, calls), id, EndTime(clock, calls))
    decreases |calls|
  {
    hide Step, CallSpares;
    if calls != [] {
      StepKeepsInv(cfg, sys, calls[0], id, clock);
      RunRefinesGates(cfg, Step(cfg, sys, calls[0]), calls[1..], id, EndOf(calls[0]));
    }
  }

  // ---- The bounds ----

  /** Number of failed verifications covered by a ceiling in the half-open interval [a, b). */
  function FailedVerifies(hist: seq<BindingEvent>, id: GateId, a: nat, b: nat): nat
  {
    if hist == [] then 0
    else
      var e := hist[|hist| - 1];
      FailedVerifies(hist[..|hist| - 1], id, a, b) +
      if e.FailedVerify? && Covers(id, e.user, e.ref) && a <= e.at < b then 1 else 0
  }

  lemma FailedVerifiesAppend(hist: seq<BindingEvent>, e: BindingEvent, id: GateId, a: nat, b: nat)
    ensures FailedVerifies(hist + [e], id, a, b) == FailedVerifies(hist, id, a, b) +
            if e.FailedVerify? && Covers(id, e.user, e.ref) && a <= e.at < b then 1 else 0
  {
    assert (hist + [e])[..|hist|] == hist;
  }

  lemma SeenCounts(evs: seq<LockoutGate.Event>, e: BindingEvent, id: GateId, a: nat, b: nat)
    ensures Fails(evs + Seen(e, id), a, b) ==
            Fails(evs, a, b) + if e.FailedVerify? && Covers(id, e.user, e.ref) && a <= e.at < b then 1 else 0
  {
    var seen := Seen(e, id);
    if seen == [] {
      assert evs + seen == evs;
    } else {
      FailsAppend(evs, seen[0], a, b);
      assert seen == [seen[0]];
    }
  }

  lemma {:induction false} ProjectionCounts(hist: seq<BindingEvent>, id: GateId, a: nat, b: nat)
    ensures Fails(Project(hist, id), a, b) == FailedVerifies(hist, id, a, b)
  {
    if hist != [] {
      var init := hist[..|hist| - 1];
      ProjectionCounts(init, id, a, b);
      SeenCounts(Project(init, id), hist[|hist| - 1], id, a, b);
    }
  }

  /** No successful bind clears the ceiling's counter within [a, b). */
  predicate NoSuccess(hist: seq<BindingEvent>, id: GateId, a: nat, b: nat)
  {
    forall j :: 0 <= j < |hist| && hist[j].Succeeded? && Covers(id, hist[j].user, hist[j].ref) ==>
      !(a <= hist[j].at < b)
  }

  lemma {:induction false} ProjectionClears(hist: seq<BindingEvent>, id: GateId, a: nat, b: nat)
    requires id.CustomerGate? || NoSuccess(hist, id, a, b)
    ensures NoClear(Project(hist, id), a, b)
  {
    if hist != [] {
      ProjectionClears(hist[..|hist| - 1], id, a, b);
    }
  }

  lemma ProjectedRateBound(c: Ceiling, evs: seq<LockoutGate.Event>, a: nat, b: nat, n: nat)
    requires Sane(c) && b == a + c.windowSec * 1000 && Ordered(evs) && Admitted(c, evs) && NoClear(evs, a, b)
    requires Fails(evs, a, b) == n
    ensures n <= 2 * c.limit - 2
  {
    WindowBound(c, evs, a);
  }

  lemma HistoryRateBound(hist: seq<BindingEvent>, id: GateId, clock: nat, a: nat, b: nat)
    requires View(CeilingOf(id), Project(hist, id), clock) && b == a + CeilingOf(id).windowSec * 1000
    requires id.CustomerGate? || NoSuccess(hist, id, a, b)
    ensures FailedVerifies(hist, id, a, b) <= 2 * CeilingOf(id).limit - 2
  {
    ProjectionCounts(hist, id, a, b);
    ProjectionClears(hist, id, a, b);
    ProjectedRateBound(CeilingOf(id), Project(hist, id), a, b, FailedVerifies(hist, id, a, b));
  }

  lemma RateBound(cfg: Config, seeds: seq<CS.Customer>, calls: seq<Call>, id: GateId, a: nat, b: nat)
    requires ColonFreeGate(id) && Legal(0, calls) && RunSpares(cfg, FreshSystem(seeds), calls, id)
    requires b == a + CeilingOf(id).windowSec * 1000
    requires id.CustomerGate? || NoSuccess(Exec(cfg, FreshSystem(seeds), calls).hist, id, a, b)
    ensures FailedVerifies(Exec(cfg, FreshSystem(seeds), calls).hist, id, a, b) <= 2 * CeilingOf(id).limit - 2
  {
    hide Step, CallSpares;
    RunRefinesGates(cfg, FreshSystem(seeds), calls, id, 0);
    HistoryRateBound(Exec(cfg, FreshSystem(seeds), calls).hist, id, EndTime(0, calls), a, b);
  }

  /** Any hour holds at most 18 failed verifications of one customer, over all users and successes. */
  lemma AtMost18FailuresPerCustomerHour(cfg: Config, seeds: seq<CS.Customer>, calls: seq<Call>, ref: string, a: nat)
    requires Legal(0, calls) && RunSpares(cfg, FreshSystem(seeds), calls, CustomerGate(ref))
    ensures FailedVerifies(Exec(cfg, FreshSystem(seeds), calls).hist, CustomerGate(ref), a, a + 3_600_000) <= 18
  {
    RateBound(cfg, seeds, calls, CustomerGate(ref), a, a + 3_600_000);
  }

  /** Any quarter hour in which a user binds nothing holds at most 8 of that user's failures, over all customers. */
  lemma AtMost8FailuresPerUserQuarterHour(cfg: Config, seeds: seq<CS.Customer>, calls: seq<Call>, user: string, a: nat)
    requires ':' !in user && Legal(0, calls) && RunSpares(cfg, FreshSystem(seeds), calls, TotalGate(user))
    requires NoSuccess(Exec(cfg, FreshSystem(seeds), calls).hist, TotalGate(user), a, a + 900_000)
    ensures FailedVerifies(Exec(cfg, FreshSystem(seeds), calls).hist, TotalGate(user), a, a + 900_000) <= 8
  {
    RateBound(cfg, seeds, calls, TotalGate(user), a, a + 900_000);
  }

  /** ... and at most 4 on one customer, if the user does not bind that customer meanwhile. */
  lemma AtMost4FailuresPerPairQuarterHour(cfg: Config, seeds: seq<CS.Customer>, calls: seq<Call>,
                                          user: string, ref: string, a: nat)
    requires ':' !in user && Legal(0, calls) && RunSpares(cfg, FreshSystem(seeds), calls, PairGate(user, ref))
    requires NoSuccess(Exec(cfg, FreshSystem(seeds), calls).hist, PairGate(user, ref), a, a + 900_000)
    ensures FailedVerifies(Exec(cfg, FreshSystem(seeds), calls).hist, PairGate(user, ref), a, a + 900_000) <= 4
  {
    RateBound(cfg, seeds, calls, PairGate(user, ref), a, a + 900_000);
  }

  // ---- Locks over runs ----

  /** Event i of the history pushed the ceiling's counter to its limit. */
  predicate Arms(hist: seq<BindingEvent>, i: nat, id: GateId)
    requires i < |hist|
  {
    && hist[i].FailedVerify? && Covers(id, hist[i].user, hist[i].ref)
    && Bumped(CeilingOf(id), GateOf(hist[..i], id), hist[i].at).n >= CeilingOf(id).limit
  }

  lemma {:induction false} ProjectSplits(hist: seq<BindingEvent>, i: nat, j: nat, id: GateId)
    returns (more: seq<LockoutGate.Event>)
    requires i <= j <= |hist|
    ensures Project(hist[..j], id) == Project(hist[..i], id) + more
    decreases j
  {
    if i == j {
      more := [];
    } else {
      var rest := ProjectSplits(hist, i, j - 1, id);
      assert hist[..j][..j - 1] == hist[..j - 1];
      more := rest + Seen(hist[j - 1], id);
    }
  }

  lemma OrderedPrefix(evs: seq<LockoutGate.Event>, more: seq<LockoutGate.Event>)
    requires Ordered(evs + more)
    ensures Ordered(evs)
  {
    assert forall i :: 0 <= i < |evs| ==> (evs + more)[i] == evs[i];
  }

  /** Once event i has armed the ceiling, its gate stays locked for the full duration. */
  lemma ArmedGateStaysLocked(hist: seq<BindingEvent>, id: GateId, i: nat, j: nat, now: nat)
    requires Ordered(Project(hist, id)) && i < j <= |hist| && Arms(hist, i, id)
    requires now <= hist[i].at + CeilingOf(id).lockSec * 1000
    ensures Locked(GateOf(hist[..j], id), now)
  {
    hide Project, Locked, CeilingOf, GateAfter, Ordered;
    var evs := Project(hist[..i], id);
    ProjectAppend(hist[..i], hist[i], id);
    assert hist[..i] + [hist[i]] == hist[..i + 1];
    var more := ProjectSplits(hist, i + 1, j, id);
    var tail := ProjectSplits(hist, j, |hist|, id);
    assert hist[..|hist|] == hist;
    var before := evs + [Fail(hist[i].at)] + more;
    assert Project(hist[..j], id) == before;
    OrderedPrefix(before, tail);
    ArmedLockPersists(CeilingOf(id), evs, hist[i].at, more, now);
  }

  /**
    Lock persistence: once event i of a run has armed a ceiling, every lock check it covers (all
    customers for the user's total, all users for a customer), at any later point of the run and until
    the full duration has passed, reports a lock, whatever anybody did meanwhile, successes included.
   */
  lemma ArmedLockIsReported(cfg: Config, seeds: seq<CS.Customer>, calls: seq<Call>, id: GateId, i: nat,
                            user: string, ref: string, now: nat)
    requires ColonFreeGate(id) && Legal(0, calls) && RunSpares(cfg, FreshSystem(seeds), calls, id)
    requires var hist := Exec(cfg, FreshSystem(seeds), calls).hist;
             i < |hist| && Arms(hist, i, id) && EndTime(0, calls) <= now <= hist[i].at + CeilingOf(id).lockSec * 1000
    requires Covers(id, user, ref)
    ensures CheckLocked(cfg, Exec(cfg, FreshSystem(seeds), calls).cache, user, ref, now).1.LockedFor?
  {
    hide Step, CallSpares;
    var sys := Exec(cfg, FreshSystem(seeds), calls);
    RunRefinesGates(cfg, FreshSystem(seeds), calls, id, 0);
    ArmedGateStaysLocked(sys.hist, id, i, |sys.hist|, now);
    assert sys.hist[..|sys.hist|] == sys.hist;
    LockedGateIsReported(cfg, sys.cache, user, ref, EndTime(0, calls), now, id, GateOf(sys.hist, id));
  }

  lemma LockedGateIsReported(cfg: Config, s: Cache, user: string, ref: string, clock: nat, now: nat, id: GateId,
                             g: Gate)
    requires Sim(cfg, s, id, g, clock) && clock <= now && Covers(id, user, ref) && Locked(g, now)
    ensures CheckLocked(cfg, s, user, ref, now).1.LockedFor?
  {
    TimePasses(cfg, s, id, g, clock, now);
    if CheckLocked(cfg, s, user, ref, now).1.Unlocked? {
      UnlockedCheck(cfg, s, user, ref, now, id, g);
    }
  }

  /** ... so no verification it covers is attempted until then. */
  lemma NoVerifyUnderArmedLock(cfg: Config, seeds: seq<CS.Customer>, calls: seq<Call>, id: GateId, i: nat, j: nat)
    requires ColonFreeGate(id) && Legal(0, calls) && RunSpares(cfg, FreshSystem(seeds), calls, id)
    requires var hist := Exec(cfg, FreshSystem(seeds), calls).hist;
             i < j < |hist| && Arms(hist, i, id) && IsAttempt(hist[j], id)
    ensures var hist := Exec(cfg, FreshSystem(seeds), calls).hist;
            hist[j].asked > hist[i].at + CeilingOf(id).lockSec * 1000
  {
    hide Step, CallSpares;
    RunRefinesGates(cfg, FreshSystem(seeds), calls, id, 0);
    var hist := Exec(cfg, FreshSystem(seeds), calls).hist;
    assert UnlockedAt(hist, j, id);
    if hist[j].asked <= hist[i].at + CeilingOf(id).lockSec * 1000 {
      ArmedGateStaysLocked(hist, id, i, j, hist[j].asked);
    }
  }

  // ---- Stored counts ----

  /** The ceiling's cached counter, if any, is at least 1 and below its limit. */
  ghost predicate Below(cfg: Config, s: Cache, id: GateId)
  {
    var e := EntryOf(cfg, s, FailKey(id));
    e.Some? ==> e.value.value.Counter? && 1 <= e.value.value.n < CeilingOf(id).limit
  }

  lemma LossKeepsBelow(cfg: Config, s: Cache, s': Cache, id: GateId)
    requires Below(cfg, s, id) && KeptOrLost(s, s', FullKey(cfg, Encode(FailKey(id))))
    ensures Below(cfg, s', id)
  {
  }

  /** A count that reaches its limit is deleted in the same call. */
  lemma OwnTripKeepsBelow(cfg: Config, s: Cache, id: GateId, now: nat)
    requires Below(cfg, s, id)
    ensures Below(cfg, Trip(cfg, s, id, now).0, id)
  {
  }

  lemma TripKeepsBelow(cfg: Config, s: Cache, tripped: GateId, now: nat, id: GateId)
    requires Below(cfg, s, id) && ColonFreeGate(tripped) && ColonFreeGate(id)
    ensures Below(cfg, Trip(cfg, s, tripped, now).0, id)
  {
    if tripped == id {
      OwnTripKeepsBelow(cfg, s, id, now);
    } else {
      TripLoses(cfg, s, tripped, now, FailKey(id));
      LossKeepsBelow(cfg, s, Trip(cfg, s, tripped, now).0, id);
    }
  }

  lemma SettleKeepsBelow(cfg: Config, sys: System, user: string, session: string, ref: string, factor: string,
                         verdict: Verdict, asked: nat, now: nat, id: GateId)
    requires ':' !in user && ColonFreeGate(id) && Below(cfg, sys.cache, id)
    ensures Below(cfg, SettleBind(cfg, sys, user, session, ref, factor, verdict, asked, now).0.cache, id)
  {
    match verdict {
      case Refused =>
        var s1 := Trip(cfg, sys.cache, PairGate(user, ref), now).0;
        var s2 := Trip(cfg, s1, CustomerGate(ref), now).0;
        TripKeepsBelow(cfg, sys.cache, PairGate(user, ref), now, id);
        TripKeepsBelow(cfg, s1, CustomerGate(ref), now, id);
        TripKeepsBelow(cfg, s2, TotalGate(user), now, id);
      case Confirmed(cid, nonce, Done) =>
        var s1 := ClearFailures(cfg, sys.cache, user, ref);
        var entry := BindingEntry(EncryptIfNeeded(cid, nonce), ref, now);
        ConsumeLoses(cfg, s1, session, user, entry, now, FailKey(id));
        LossKeepsBelow(cfg, sys.cache, s1, id);
        LossKeepsBelow(cfg, s1, Verified(cfg, sys, user, session, ref, factor, cid, nonce, asked, now).cache, id);
      case _ =>
    }
  }

  lemma StepKeepsBelow(cfg: Config, sys: System, call: Call, id: GateId)
    requires Proper(call) && ColonFreeGate(id) && Below(cfg, sys.cache, id)
    ensures Below(cfg, Step(cfg, sys, call).cache, id)
  {
    if call.BindCall? {
      var BindCall(user, session, ref, factor, verdict, asked, now) := call;
      var sys1 := AskBind(cfg, sys, user, session, ref, asked).0;
      AskBindLoses(cfg, sys, user, session, ref, asked, FullKey(cfg, Encode(FailKey(id))));
      LossKeepsBelow(cfg, sys.cache, sys1.cache, id);
      SettleKeepsBelow(cfg, sys1, user, session, ref, factor, verdict, asked, now, id);
    } else {
      StepLoses(cfg, sys, call, FailKey(id));
      LossKeepsBelow(cfg, sys.cache, Step(cfg, sys, call).cache, id);
    }
  }

  lemma {:induction false} RunKeepsBelow(cfg: Config, sys: System, calls: seq<Call>, clock: nat, id: GateId)
    requires ColonFreeGate(id) && Legal(clock, calls) && Below(cfg, sys.cache, id)
    ensures Below(cfg, Exec(cfg, sys, calls).cache, id)
    decreases |calls|
  {
    hide Step;
    if calls != [] {
      StepKeepsBelow(cfg, sys, calls[0], id);
      RunKeepsBelow(cfg, Step(cfg, sys, calls[0]), calls[1..], EndOf(calls[0]), id);
    }
  }

  /** Between calls of any legal run, whatever was evicted, every stored counter is strictly below its limit. */
  lemma StoredCountsBelowLimits(cfg: Config, seeds: seq<CS.Customer>, calls: seq<Call>, id: GateId)
    requires ColonFreeGate(id) && Legal(0, calls)
    ensures var e := EntryOf(cfg, Exec(cfg, FreshSystem(seeds), calls).cache, FailKey(id));
            e.Some? ==> e.value.value.Counter? && 1 <= e.value.value.n < CeilingOf(id).limit
  {
    RunKeepsBelow(cfg, FreshSystem(seeds), calls, 0, id);
  }
}
