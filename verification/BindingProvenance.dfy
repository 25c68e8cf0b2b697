/** Where every binding comes from: facts about whole serialised runs, evictions included. */
module BindingProvenance {
  import opened Prelude
  import opened MemoryCache
  import opened BindingKeys
  import opened BindingData
  import opened RateLimiter
  import opened CustomerService
  import opened BindingService
  import opened KeyLosses

  /** Does this event use up (or replace) the stored resolve result of the session? */
  predicate Consumes(e: Event, session: string)
  {
    (e.Succeeded? || e.Registered?) && e.session == session
  }

  /** The resolve result that still stands for a session: the last one stored and not consumed. */
  function Standing(hist: seq<Event>, session: string): Option<(ResolveResult, nat)>
  {
    if hist == [] then None
    else
      var e := hist[|hist| - 1];
      if e.Inited? && e.session == session then Some((e.result, e.at))
      else if Consumes(e, session) then None
      else Standing(hist[..|hist| - 1], session)
  }

  /** A cached resolve result is the standing one, with its five-minute expiry. */
  ghost predicate TokenOk(e: Option<Entry<Value>>, standing: Option<(ResolveResult, nat)>)
  {
    e.None? ||
    (standing.Some? && e.value == Entry(Init(standing.value.0), Some(standing.value.1 + INIT_TTL_SEC * 1000)))
  }

  ghost predicate TokenInv(cfg: Config, sys: System, session: string)
  {
    TokenOk(EntryOf(cfg, sys.cache, InitKey(session)), Standing(sys.hist, session))
  }

  lemma StandingAppend(hist: seq<Event>, e: Event, session: string)
    ensures Standing(hist + [e], session) ==
            if e.Inited? && e.session == session then Some((e.result, e.at))
            else if Consumes(e, session) then None
            else Standing(hist, session)
  {
  }

  lemma LossKeepsToken(cfg: Config, s: Cache, s': Cache, session: string, hist: seq<Event>, hist': seq<Event>)
    requires TokenOk(EntryOf(cfg, s, InitKey(session)), Standing(hist, session))
    requires KeptOrLost(s, s', FullKey(cfg, Encode(InitKey(session))))
    requires Standing(hist', session) == Standing(hist, session) || EntryOf(cfg, s', InitKey(session)).None?
    ensures TokenOk(EntryOf(cfg, s', InitKey(session)), Standing(hist', session))
  {
  }

  /** A call that appends no event about the session, or one that consumes its token. */
  lemma EventKeepsToken(cfg: Config, sys: System, sys': System, e: Event, session: string)
    requires TokenInv(cfg, sys, session) && sys'.hist == sys.hist + [e] && !(e.Inited? && e.session == session)
    requires KeptOrLost(sys.cache, sys'.cache, FullKey(cfg, Encode(InitKey(session))))
    requires Consumes(e, session) ==> EntryOf(cfg, sys'.cache, InitKey(session)).None?
    ensures TokenInv(cfg, sys', session)
  {
    StandingAppend(sys.hist, e, session);
    LossKeepsToken(cfg, sys.cache, sys'.cache, session, sys.hist, sys'.hist);
  }

  lemma SettleKeepsTokens(cfg: Config, sys: System, user: string, consumed: string, ref: string, factor: string,
                          verdict: Verdict, asked: nat, now: nat, session: string)
    requires ':' !in user && TokenInv(cfg, sys, session)
    ensures TokenInv(cfg, SettleBind(cfg, sys, user, consumed, ref, factor, verdict, asked, now).0, session)
  {
    var sys' := SettleBind(cfg, sys, user, consumed, ref, factor, verdict, asked, now).0;
    SettleLoses(cfg, sys, user, consumed, ref, factor, verdict, asked, now, InitKey(session));
    assert sys'.hist == sys.hist + [sys'.hist[|sys.hist|]];
    EventKeepsToken(cfg, sys, sys', sys'.hist[|sys.hist|], session);
  }

  lemma AskKeepsTokens(cfg: Config, sys: System, user: string, consumed: string, ref: string, asked: nat,
                       session: string)
    requires TokenInv(cfg, sys, session)
    ensures TokenInv(cfg, AskBind(cfg, sys, user, consumed, ref, asked).0, session)
  {
    AskBindLoses(cfg, sys, user, consumed, ref, asked, FullKey(cfg, Encode(InitKey(session))));
    LossKeepsToken(cfg, sys.cache, AskBind(cfg, sys, user, consumed, ref, asked).0.cache, session, sys.hist, sys.hist);
  }

  lemma InitKeepsTokens(cfg: Config, sys: System, inited: string, phone: Option<string>, now: nat, session: string)
    requires TokenInv(cfg, sys, session)
    ensures TokenInv(cfg, BindInit(cfg, sys, inited, phone, now).0, session)
  {
    if HasPhone(phone) {
      var sys' := BindInit(cfg, sys, inited, phone, now).0;
      var result := Resolve(sys.customers, phone.value);
      if inited != session {
        WriteLoses(cfg, sys.cache, InitKey(inited), Init(result), INIT_TTL_SEC, now, InitKey(session));
        EventKeepsToken(cfg, sys, sys', Inited(inited, result, now), session);
      } else {
        StandingAppend(sys.hist, Inited(inited, result, now), session);
        StoredTokenStands(cfg, sys.cache, session, result, now, sys'.hist);
      }
    }
  }

  lemma StoredTokenStands(cfg: Config, s: Cache, session: string, result: ResolveResult, now: nat, hist: seq<Event>)
    requires Standing(hist, session) == Some((result, now))
    ensures TokenOk(EntryOf(cfg, Set(cfg, s, Encode(InitKey(session)), Init(result), INIT_TTL_SEC, now),
                            InitKey(session)),
                    Standing(hist, session))
  {
  }

  lemma RegisterKeepsTokens(cfg: Config, sys: System, user: string, consumed: string, phone: Option<string>,
                            nonce: nat, upsert: DbCall, now: nat, session: string)
    requires ':' !in user && TokenInv(cfg, sys, session)
    ensures TokenInv(cfg, Register(cfg, sys, user, consumed, phone, nonce, upsert, now).0, session)
  {
    var (sys', made) := Register(cfg, sys, user, consumed, phone, nonce, upsert, now);
    RegisterLoses(cfg, sys, user, consumed, phone, nonce, upsert, now, InitKey(session));
    if made.RegisteredAs? {
      var c := Create(sys.customers, phone.value).1.value;
      EventKeepsToken(cfg, sys, sys', Registered(user, consumed, c.ref, now), session);
    } else {
      LossKeepsToken(cfg, sys.cache, sys'.cache, session, sys.hist, sys'.hist);
    }
  }

  lemma StepKeepsTokens(cfg: Config, sys: System, call: Call, session: string)
    requires Proper(call) && TokenInv(cfg, sys, session)
    ensures TokenInv(cfg, Step(cfg, sys, call), session)
  {
    match call {
      case BindCall(user, consumed, ref, factor, verdict, asked, now) =>
        AskKeepsTokens(cfg, sys, user, consumed, ref, asked, session);
        SettleKeepsTokens(cfg, AskBind(cfg, sys, user, consumed, ref, asked).0, user, consumed, ref, factor, verdict,
                          asked, now, session);
      case InitCall(_, inited, phone, now) => InitKeepsTokens(cfg, sys, inited, phone, now, session);
      case RegisterCall(user, consumed, phone, nonce, upsert, now) =>
        RegisterKeepsTokens(cfg, sys, user, consumed, phone, nonce, upsert, now, session);
      case _ =>
        StepLoses(cfg, sys, call, InitKey(session));
        LossKeepsToken(cfg, sys.cache, Step(cfg, sys, call).cache, session, sys.hist, sys.hist);
    }
  }

  // ---- Every success in the history is backed ----

  /** The success `e` was backed when it happened, `hist` being what had happened before. */
  ghost predicate Backed(hist: seq<Event>, e: Event)
  {
    e.Succeeded? ==>
      var st := Standing(hist, e.session);
      && st.Some?
      && e.asked <= st.value.1 + INIT_TTL_SEC * 1000
      && e.ref in AllowedRefs(st.value.0)
  }

  ghost predicate AllBacked(hist: seq<Event>)
  {
    forall j :: 0 <= j < |hist| ==> Backed(hist[..j], hist[j])
  }

  /** What `Resolve` promises of its answers: a capped one lists nobody. */
  ghost predicate WellShaped(r: ResolveResult)
  {
    r.capped ==> r.status == Many && r.candidates.None?
  }

  lemma ResolveIsWellShaped(cs: Customers, phone: string)
    ensures WellShaped(Resolve(cs, phone))
  {
  }

  ghost predicate Resolved(e: Event)
  {
    e.Inited? ==> WellShaped(e.result)
  }

  ghost predicate HistInv(hist: seq<Event>)
  {
    AllBacked(hist) && forall j :: 0 <= j < |hist| ==> Resolved(hist[j])
  }

  lemma AppendHistInv(hist: seq<Event>, e: Event)
    requires HistInv(hist) && Backed(hist, e) && Resolved(e)
    ensures HistInv(hist + [e])
  {
    var h := hist + [e];
    forall j | 0 <= j < |h| ensures Backed(h[..j], h[j]) {
      assert h[..j] == hist[..j];
      assert hist[..|hist|] == hist;
    }
  }

  lemma StepKeepsHistInv(cfg: Config, sys: System, call: Call)
    requires HistInv(sys.hist)
    requires call.BindCall? ==> TokenInv(cfg, sys, call.session)
    ensures HistInv(Step(cfg, sys, call).hist)
  {
    hide RecordFailure, CheckLocked, Set, Delete, NormalizePhone;
    var hist' := Step(cfg, sys, call).hist;
    if hist' != sys.hist {
      var e := hist'[|sys.hist|];
      assert hist' == sys.hist + [e];
      if call.InitCall? {
        ResolveIsWellShaped(sys.customers, call.phone.value);
      }
      AppendHistInv(sys.hist, e);
    }
  }

  lemma {:induction false} RunKeepsHistInv(cfg: Config, sys: System, calls: seq<Call>, clock: nat)
    requires Legal(clock, calls) && HistInv(sys.hist)
    requires forall session :: TokenInv(cfg, sys, session)
    ensures HistInv(Exec(cfg, sys, calls).hist)
    decreases |calls|
  {
    hide Step;
    if calls != [] {
      var next := Step(cfg, sys, calls[0]);
      StepKeepsHistInv(cfg, sys, calls[0]);
      forall session ensures TokenInv(cfg, next, session) {
        StepKeepsTokens(cfg, sys, calls[0], session);
      }
      RunKeepsHistInv(cfg, next, calls[1..], EndOf(calls[0]));
    }
  }

  lemma {:induction false} StandingWitness(hist: seq<Event>, session: string) returns (i: nat)
    requires Standing(hist, session).Some?
    ensures i < |hist|
    ensures var (result, at) := Standing(hist, session).value; hist[i] == Inited(session, result, at)
    ensures forall k :: i < k < |hist| ==> !Consumes(hist[k], session)
  {
    var n := |hist| - 1;
    if hist[n].Inited? && hist[n].session == session {
      i := n;
    } else {
      i := StandingWitness(hist[..n], session);
    }
  }

  lemma NothingHappened(seeds: seq<Customer>)
    ensures HistInv(FreshSystem(seeds).hist)
  {
  }

  lemma BackedBefore(hist: seq<Event>, j: nat) returns (i: nat)
    requires HistInv(hist) && j < |hist| && hist[j].Succeeded?
    ensures var e := hist[j];
            && i < j && hist[i].Inited? && hist[i].session == e.session
            && e.asked <= hist[i].at + 5 * 60 * 1000
            && e.ref in AllowedRefs(hist[i].result)
            && (forall k :: i < k < j ==> !Consumes(hist[k], e.session))
            && hist[i].result.status != Nobody && !hist[i].result.capped
  {
    hide Standing, Consumes;
    assert Backed(hist[..j], hist[j]);
    i := StandingWitness(hist[..j], hist[j].session);
    assert hist[..j][i] == hist[i] && Resolved(hist[i]);
    assert forall k :: i < k < j ==> hist[..j][k] == hist[k];
  }

  /**
    Provenance: in every legal run from a fresh system, whatever the cache evicts, a successful bind
    at position j is backed by a resolve result stored earlier for the same session, at most five
    minutes old when the bind was asked, listing the bound reference, and consumed by nobody in
    between; neither a "nobody" nor a capped answer ever backs a bind.
   */
  lemma SuccessIsBackedByBindInit(cfg: Config, seeds: seq<Customer>, calls: seq<Call>, j: nat) returns (i: nat)
    requires Legal(0, calls)
    requires var hist := Exec(cfg, FreshSystem(seeds), calls).hist; j < |hist| && hist[j].Succeeded?
    ensures var hist := Exec(cfg, FreshSystem(seeds), calls).hist;
            var e := hist[j];
            && i < j && hist[i].Inited? && hist[i].session == e.session
            && e.asked <= hist[i].at + 5 * 60 * 1000
            && e.ref in AllowedRefs(hist[i].result)
            && (forall k :: i < k < j ==> !Consumes(hist[k], e.session))
            && hist[i].result.status != Nobody && !hist[i].result.capped
  {
    hide Step, Exec, HistInv;
    NothingHappened(seeds);
    RunKeepsHistInv(cfg, FreshSystem(seeds), calls, 0);
    i := BackedBefore(Exec(cfg, FreshSystem(seeds), calls).hist, j);
  }

  // ---- ... and was verified, under no lock ----

  /** The event is the trace of this call: a bind whose lock check found no lock and whose secret was verified. */
  predicate VerifiedUnlocked(cfg: Config, sys: System, call: Call, e: Event)
  {
    && call.BindCall? && call.verdict.Confirmed?
    && var s := Get(cfg, sys.cache, Encode(InitKey(call.session)), call.now).0;
    && CheckLocked(cfg, s, call.user, call.ref, call.now).1.Unlocked?
    && e == Succeeded(call.user, call.session, call.ref, call.now, call.answered)
  }

  lemma StepHistory(cfg: Config, sys: System, call: Call)
    ensures var h := Step(cfg, sys, call).hist;
            && (h == sys.hist || (|h| == |sys.hist| + 1 && h[..|sys.hist|] == sys.hist))
            && (h != sys.hist && h[|sys.hist|].Succeeded? ==> VerifiedUnlocked(cfg, sys, call, h[|sys.hist|]))
  {
    hide RecordFailure, CheckLocked, Get, Set, Delete, Resolve, NormalizePhone;
  }

  lemma {:induction false} ExecAppend(cfg: Config, sys: System, calls: seq<Call>, call: Call)
    ensures Exec(cfg, sys, calls + [call]) == Step(cfg, Exec(cfg, sys, calls), call)
    decreases |calls|
  {
    var all := calls + [call];
    if calls == [] {
      assert all[1..] == [] && all[0] == call;
      assert Exec(cfg, Step(cfg, sys, call), []) == Step(cfg, sys, call);
    } else {
      assert all[1..] == calls[1..] + [call] && all[0] == calls[0];
      ExecAppend(cfg, Step(cfg, sys, calls[0]), calls[1..], call);
    }
  }

  /** One call more: the history is kept, and a success it adds is its own. */
  lemma LastCallExplains(cfg: Config, sys: System, init: seq<Call>, last: Call, j: nat)
    requires j < |Exec(cfg, sys, init + [last]).hist|
    ensures var before := Exec(cfg, sys, init);
            var e := Exec(cfg, sys, init + [last]).hist[j];
            if j < |before.hist| then e == before.hist[j] else e.Succeeded? ==> VerifiedUnlocked(cfg, before, last, e)
  {
    hide Step;
    var before := Exec(cfg, sys, init);
    ExecAppend(cfg, sys, init, last);
    StepHistory(cfg, before, last);
    var h := Step(cfg, before, last).hist;
    assert j < |before.hist| ==> h[j] == h[..|before.hist|][j];
  }

  /**
    Every success in a run's history is the trace of one of its bind calls, of the same user,
    session and reference, whose secret was verified after a lock check that found no lock.
   */
  lemma {:induction false} SuccessWasVerifiedUnlocked(cfg: Config, sys: System, calls: seq<Call>, j: nat)
    returns (n: nat)
    requires |sys.hist| <= j < |Exec(cfg, sys, calls).hist| && Exec(cfg, sys, calls).hist[j].Succeeded?
    ensures n < |calls|
    ensures VerifiedUnlocked(cfg, Exec(cfg, sys, calls[..n]), calls[n], Exec(cfg, sys, calls).hist[j])
    decreases |calls|
  {
    assert calls != [];
    n := |calls| - 1;
    var init := calls[..n];
    assert calls == init + [calls[n]];
    LastCallExplains(cfg, sys, init, calls[n], j);
    if j < |Exec(cfg, sys, init).hist| {
      n := SuccessWasVerifiedUnlocked(cfg, sys, init, j);
      assert init[..n] == calls[..n];
    }
  }
}
