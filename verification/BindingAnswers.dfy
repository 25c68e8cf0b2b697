/** What the callers of the binding flow are told, against what the flow did and what the history says. */
module BindingAnswers {
  import opened Prelude
  import opened MemoryCache
  import opened LockoutGate
  import opened BindingKeys
  import opened BindingData
  import opened RateLimiter
  import opened CustomerService
  import opened BindingService
  import opened BindingRates

  // ---- Bind: the answer tells what was done ----

  /** The user's row for this reference, with its customer id (an empty one has no ciphertext). */
  ghost predicate RowHolds(sys: System, user: string, ref: string, customerId: string, factor: string, now: nat)
  {
    && (user, ref) in sys.table
    && var row := sys.table[(user, ref)];
    && row.factor == factor && row.verifiedAt == now
    && DecryptIfNeeded(row.cipher) == if customerId == "" then None else Some(customerId)
  }

  /** The guard's entry, there to be read until an hour has passed. */
  ghost predicate GuardEntryStored(cfg: Config, s: Cache, user: string, ref: string, customerId: string, now: nat)
  {
    exists cipher ::
      && DecryptIfNeeded(cipher) == (if customerId == "" then None else Some(customerId))
      && EntryOf(cfg, s, BoundKey(user)) == Some(Entry(Binding(BindingEntry(cipher, ref, now)), Some(now + 3_600_000)))
  }

  lemma VerifiedStores(cfg: Config, sys: System, user: string, session: string, ref: string, factor: string,
                       customerId: string, nonce: nat, asked: nat, now: nat)
    requires ':' !in user
    ensures var sys' := Verified(cfg, sys, user, session, ref, factor, customerId, nonce, asked, now);
            && GuardEntryStored(cfg, sys'.cache, user, ref, customerId, now)
            && EntryOf(cfg, sys'.cache, InitKey(session)).None?
            && RowHolds(sys', user, ref, customerId, factor, now)
  {
    var e := BindingEntry(EncryptIfNeeded(customerId, nonce), ref, now);
    TokenGoes(cfg, ClearFailures(cfg, sys.cache, user, ref), session, user, e, now);
    assert DecryptIfNeeded(e.cipher) == if customerId == "" then None else Some(customerId);
  }

  /** The token is deleted, then the guard's entry written. */
  lemma TokenGoes(cfg: Config, s: Cache, session: string, user: string, e: BindingEntry, now: nat)
    requires ':' !in user
    ensures var s' := Set(cfg, Delete(cfg, s, Encode(InitKey(session))), Encode(BoundKey(user)), Binding(e),
                          BINDING_TTL_SEC, now);
            && EntryOf(cfg, s', InitKey(session)).None?
            && EntryOf(cfg, s', BoundKey(user)) == Some(Entry(Binding(e), Some(now + 3_600_000)))
  {
    var s1 := Delete(cfg, s, Encode(InitKey(session)));
    DistinctKeys(cfg, InitKey(session), BoundKey(user));
    SetLooks(cfg, s1, Encode(BoundKey(user)), Binding(e), BINDING_TTL_SEC, now, FullKey(cfg, Encode(InitKey(session))));
    SetLooks(cfg, s1, Encode(BoundKey(user)), Binding(e), BINDING_TTL_SEC, now, FullKey(cfg, Encode(BoundKey(user))));
  }

  lemma AskLeaves(cfg: Config, sys: System, user: string, session: string, ref: string, asked: nat)
    ensures var (sys', refused) := AskBind(cfg, sys, user, session, ref, asked);
            && sys'.hist == sys.hist && sys'.table == sys.table && sys'.customers == sys.customers
            && (refused.Some? ==>
                  refused.value.InitExpired? || refused.value.ForeignRef? || refused.value.LockedOut?)
  {
  }

  /** Rows other than this one are as they were. */
  ghost predicate OtherRowsKept(sys: System, sys': System, user: string, ref: string)
  {
    forall k :: k != (user, ref) ==> (k in sys'.table <==> k in sys.table)
                                     && (k in sys.table ==> sys'.table[k] == sys.table[k])
  }

  lemma SettleAnswers(cfg: Config, sys: System, user: string, session: string, ref: string, factor: string,
                      verdict: Verdict, asked: nat, now: nat)
    requires ':' !in user
    ensures var (sys', answer) := SettleBind(cfg, sys, user, session, ref, factor, verdict, asked, now);
            && sys'.customers == sys.customers && OtherRowsKept(sys, sys', user, ref)
            && match verdict
               case Refused =>
                 && (answer.NotVerified? || answer.LockedNow?) && sys'.table == sys.table
                 && sys'.hist == sys.hist + [FailedVerify(user, ref, asked, now)]
               case Confirmed(customerId, nonce, Done) =>
                 && answer == Bound(customerId) && sys'.hist == sys.hist + [Succeeded(user, session, ref, asked, now)]
                 && RowHolds(sys', user, ref, customerId, factor, now)
                 && GuardEntryStored(cfg, sys'.cache, user, ref, customerId, now)
                 && EntryOf(cfg, sys'.cache, InitKey(session)).None?
               case _ =>
                 && answer == Threw && sys'.hist == sys.hist + [Broken(user, ref, asked, now)]
                 && if verdict.Confirmed? && verdict.upsert.AnswerLost?
                    then RowHolds(sys', user, ref, verdict.customerId, factor, now)
                    else sys'.table == sys.table
  {
    hide RecordFailure, GuardEntryStored;
    if verdict.Confirmed? && verdict.upsert.Done? {
      VerifiedStores(cfg, sys, user, session, ref, factor, verdict.customerId, verdict.nonce, asked, now);
    }
  }

  /** One appended event tells itself from every other and from none. */
  lemma LastEvent(h: seq<BindingEvent>, e: BindingEvent, f: BindingEvent)
    ensures h + [e] == h + [f] <==> e == f
    ensures h + [e] != h
  {
    assert (h + [e])[|h|] == e && (h + [f])[|h|] == f;
    assert |h + [e]| == |h| + 1;
  }

  /**
    Exactly the binds that report success appended a success, exactly those that report a wrong secret
    a failure, exactly those that threw a broken attempt, and the refused ones nothing. A success says
    the customer id that the row and the guard's entry open to, and leaves no resolve result behind.
    Only a success, or an upsert that threw, writes a row.
   */
  lemma BindAnswersWhatItDid(cfg: Config, sys: System, user: string, session: string, ref: string, factor: string,
                             verdict: Verdict, asked: nat, now: nat)
    requires ':' !in user
    ensures var (sys', answer) := Bind(cfg, sys, user, session, ref, factor, verdict, asked, now);
            && (answer.Bound? <==> sys'.hist == sys.hist + [Succeeded(user, session, ref, asked, now)])
            && (answer.Bound? ==>
                  && verdict == Confirmed(answer.customerId, verdict.nonce, Done)
                  && RowHolds(sys', user, ref, answer.customerId, factor, now)
                  && GuardEntryStored(cfg, sys'.cache, user, ref, answer.customerId, now)
                  && EntryOf(cfg, sys'.cache, InitKey(session)).None?)
            && (answer.NotVerified? || answer.LockedNow? <==>
                  sys'.hist == sys.hist + [FailedVerify(user, ref, asked, now)])
            && (answer.Threw? <==> sys'.hist == sys.hist + [Broken(user, ref, asked, now)])
            && (answer.InitExpired? || answer.ForeignRef? || answer.LockedOut? <==> sys'.hist == sys.hist)
            && (sys'.table != sys.table ==>
                  && (answer.Bound? || answer.Threw?)
                  && verdict.Confirmed? && RowHolds(sys', user, ref, verdict.customerId, factor, now))
            && (answer.Threw? && verdict.Confirmed? && verdict.upsert.AnswerLost? ==>
                  RowHolds(sys', user, ref, verdict.customerId, factor, now))
            && OtherRowsKept(sys, sys', user, ref) && sys'.customers == sys.customers
  {
    hide AskBind, SettleBind, GuardEntryStored, RowHolds, EntryOf;
    var (sys1, refused) := AskBind(cfg, sys, user, session, ref, asked);
    AskLeaves(cfg, sys, user, session, ref, asked);
    SettleAnswers(cfg, sys1, user, session, ref, factor, verdict, asked, now);
    var won, failed, broken := Succeeded(user, session, ref, asked, now), FailedVerify(user, ref, asked, now),
                               Broken(user, ref, asked, now);
    LastEvent(sys.hist, won, failed);
    LastEvent(sys.hist, won, broken);
    LastEvent(sys.hist, failed, broken);
  }

  // ---- Bind: refusals are exact ----

  /** A stored resolve result of the session that can still be read. */
  predicate LiveInit(cfg: Config, s: Cache, session: string, asked: nat)
  {
    var e := EntryOf(cfg, s, InitKey(session));
    e.Some? && (e.value.expiry.None? || asked <= e.value.expiry.value)
  }

  /** The one match, or one of several. */
  predicate Names(r: ResolveResult, ref: string)
  {
    || (r.status == One && r.customerRef == Some(ref) && ref != "")
    || (r.status == Many && r.candidates.Some? && ref in r.candidates.value)
  }

  predicate Offered(cfg: Config, s: Cache, session: string, ref: string, asked: nat)
  {
    && LiveInit(cfg, s, session, asked)
    && var v := EntryOf(cfg, s, InitKey(session)).value.value; v.Init? && Names(v.result, ref)
  }

  /** The lock that a check of these gates reports. */
  ghost predicate Reports(lock: LockState, pair: Gate, customer: Gate, total: Gate, now: nat)
  {
    if Locked(total, now)
    then lock.LockedFor? && lock.reason == Session && SecondsLeft(lock.retryAfterSec, total, now)
    else if Locked(pair, now)
    then lock.LockedFor? && lock.reason == UserRef && SecondsLeft(lock.retryAfterSec, pair, now)
    else if Locked(customer, now)
    then lock.LockedFor? && lock.reason == CustomerRef && SecondsLeft(lock.retryAfterSec, customer, now)
    else lock.Unlocked?
  }

  ghost predicate SimThree(cfg: Config, s: Cache, user: string, ref: string, pair: Gate, customer: Gate, total: Gate,
                           now: nat)
  {
    && Sim(cfg, s, PairGate(user, ref), pair, now) && Sim(cfg, s, CustomerGate(ref), customer, now)
    && Sim(cfg, s, TotalGate(user), total, now)
  }

  lemma NamedIsAllowed(v: Value, ref: string)
    ensures ref in AllowedOf(v) <==> v.Init? && Names(v.result, ref)
  {
  }

  lemma CheckReports(cfg: Config, s: Cache, user: string, ref: string, now: nat, pair: Gate, customer: Gate,
                     total: Gate)
    requires SimThree(cfg, s, user, ref, pair, customer, total, now)
    ensures Reports(CheckLocked(cfg, s, user, ref, now).1, pair, customer, total, now)
    ensures SimThree(cfg, CheckLocked(cfg, s, user, ref, now).0, user, ref, pair, customer, total, now)
  {
    hide CheckLocked, Sim, SecondsLeft;
    CheckLockedRefinesGates(cfg, s, user, ref, now, pair, customer, total);
    CheckLockedKeepsSim(cfg, s, user, ref, now, PairGate(user, ref), pair);
    CheckLockedKeepsSim(cfg, s, user, ref, now, CustomerGate(ref), customer);
    CheckLockedKeepsSim(cfg, s, user, ref, now, TotalGate(user), total);
  }

  lemma ReadKeepsThree(cfg: Config, s: Cache, key: string, user: string, ref: string, now: nat, pair: Gate,
                       customer: Gate, total: Gate)
    requires SimThree(cfg, s, user, ref, pair, customer, total, now)
    ensures SimThree(cfg, Get(cfg, s, key, now).0, user, ref, pair, customer, total, now)
  {
    GetKeepsSim(cfg, s, key, PairGate(user, ref), pair, now);
    GetKeepsSim(cfg, s, key, CustomerGate(ref), customer, now);
    GetKeepsSim(cfg, s, key, TotalGate(user), total, now);
  }

  /**
    A bind is refused as expired exactly if the session has no live resolve result, as foreign exactly if
    it has one that does not name the reference, as locked out exactly if it names it and one of the
    three covering gates is locked, and then with the lock of the first locked gate: total, pair, customer.
   */
  lemma RefusalsAreExact(cfg: Config, sys: System, user: string, session: string, ref: string, factor: string,
                         verdict: Verdict, asked: nat, now: nat, pair: Gate, customer: Gate, total: Gate)
    requires SimThree(cfg, sys.cache, user, ref, pair, customer, total, asked)
    ensures var (sys', answer) := Bind(cfg, sys, user, session, ref, factor, verdict, asked, now);
            var locked := Locked(pair, asked) || Locked(customer, asked) || Locked(total, asked);
            && (answer.InitExpired? <==> !LiveInit(cfg, sys.cache, session, asked))
            && (answer.InitExpired? ==> EntryOf(cfg, sys'.cache, InitKey(session)).None?)
            && (answer.ForeignRef? <==>
                  LiveInit(cfg, sys.cache, session, asked) && !Offered(cfg, sys.cache, session, ref, asked))
            && (answer.LockedOut? <==> Offered(cfg, sys.cache, session, ref, asked) && locked)
            && (answer.LockedOut? ==> Reports(answer.lock, pair, customer, total, asked))
  {
    hide CheckLocked, SettleBind, SimThree, SecondsLeft, Names;
    var key := Encode(InitKey(session));
    var (s1, init) := Get(cfg, sys.cache, key, asked);
    ReadKeepsThree(cfg, sys.cache, key, user, ref, asked, pair, customer, total);
    CheckReports(cfg, s1, user, ref, asked, pair, customer, total);
    if init.Some? {
      NamedIsAllowed(init.value, ref);
    }
    SettleNeverRefuses(cfg, AskBind(cfg, sys, user, session, ref, asked).0, user, session, ref, factor, verdict, asked,
                       now);
  }

  lemma SettleNeverRefuses(cfg: Config, sys: System, user: string, session: string, ref: string, factor: string,
                           verdict: Verdict, asked: nat, now: nat)
    ensures var answer := SettleBind(cfg, sys, user, session, ref, factor, verdict, asked, now).1;
            !answer.InitExpired? && !answer.ForeignRef? && !answer.LockedOut?
  {
    hide RecordFailure, Verified;
  }

  // ---- ... over whole runs ----

  /** The answer to a wrong secret, from the three gates before it. */
  function AfterFailure(pair: Gate, customer: Gate, total: Gate, now: nat): BindOutcome
  {
    if Bumped(Ceiling(5, 900, 900), total, now).n >= 5 then LockedNow(LockedFor(Session, 900))
    else if Bumped(Ceiling(10, 3600, 86_400), customer, now).n >= 10 then LockedNow(LockedFor(CustomerRef, 86_400))
    else if Bumped(Ceiling(3, 900, 900), pair, now).n >= 3 then LockedNow(LockedFor(UserRef, 900))
    else NotVerified
  }

  ghost predicate SparesThree(cfg: Config, sys: System, call: Call, user: string, ref: string)
  {
    && CallSpares(cfg, sys, call, PairGate(user, ref)) && CallSpares(cfg, sys, call, CustomerGate(ref))
    && CallSpares(cfg, sys, call, TotalGate(user))
  }

  lemma WrongSecretAnswer(cfg: Config, sys: System, call: Call, pair: Gate, customer: Gate, total: Gate)
    requires call.BindCall? && ':' !in call.user && call.verdict.Refused? && call.now <= call.answered
    requires SimThree(cfg, sys.cache, call.user, call.ref, pair, customer, total, call.now)
    requires SparesThree(cfg, sys, call, call.user, call.ref)
    requires AskBind(cfg, sys, call.user, call.session, call.ref, call.now).1.None?
    ensures Bind(cfg, sys, call.user, call.session, call.ref, call.factor, call.verdict, call.now, call.answered).1 ==
            AfterFailure(pair, customer, total, call.answered)
  {
    hide AskBind, Sim, RecordFailureSpares, RecordFailure, Bumped;
    var BindCall(user, session, ref, factor, verdict, asked, now) := call;
    var sys1 := AskBind(cfg, sys, user, session, ref, asked).0;
    AskKeepsSim(cfg, sys, user, session, ref, asked, PairGate(user, ref), pair, asked);
    AskKeepsSim(cfg, sys, user, session, ref, asked, CustomerGate(ref), customer, asked);
    AskKeepsSim(cfg, sys, user, session, ref, asked, TotalGate(user), total, asked);
    TimePasses(cfg, sys1.cache, PairGate(user, ref), pair, asked, now);
    TimePasses(cfg, sys1.cache, CustomerGate(ref), customer, asked, now);
    TimePasses(cfg, sys1.cache, TotalGate(user), total, asked, now);
    RecordFailureReportsStrongest(cfg, sys1.cache, user, ref, now, pair, customer, total);
  }

  /** The answer to a bind whose reference is offered and that no gate locks out. */
  function Settled(verdict: Verdict, pair: Gate, customer: Gate, total: Gate, now: nat): BindOutcome
  {
    match verdict
    case Refused => AfterFailure(pair, customer, total, now)
    case Confirmed(customerId, _, Done) => Bound(customerId)
    case _ => Threw
  }

  ghost predicate SparedRun(cfg: Config, sys: System, calls: seq<Call>, user: string, ref: string)
  {
    && RunSpares(cfg, sys, calls, PairGate(user, ref)) && RunSpares(cfg, sys, calls, CustomerGate(ref))
    && RunSpares(cfg, sys, calls, TotalGate(user))
  }

  lemma GatesOfRun(cfg: Config, seeds: seq<Customer>, calls: seq<Call>, user: string, ref: string, now: nat)
    requires Legal(0, calls) && ':' !in user && EndTime(0, calls) <= now
    requires SparedRun(cfg, FreshSystem(seeds), calls, user, ref)
    ensures var sys := Exec(cfg, FreshSystem(seeds), calls);
            SimThree(cfg, sys.cache, user, ref, GateOf(sys.hist, PairGate(user, ref)),
                     GateOf(sys.hist, CustomerGate(ref)), GateOf(sys.hist, TotalGate(user)), now)
  {
    hide Step, CallSpares, RunSpares, GateOf, Sim, Legal;
    var sys, end := Exec(cfg, FreshSystem(seeds), calls), EndTime(0, calls);
    SimAtEnd(cfg, seeds, calls, PairGate(user, ref));
    SimAtEnd(cfg, seeds, calls, CustomerGate(ref));
    SimAtEnd(cfg, seeds, calls, TotalGate(user));
    TimePasses(cfg, sys.cache, PairGate(user, ref), GateOf(sys.hist, PairGate(user, ref)), end, now);
    TimePasses(cfg, sys.cache, CustomerGate(ref), GateOf(sys.hist, CustomerGate(ref)), end, now);
    TimePasses(cfg, sys.cache, TotalGate(user), GateOf(sys.hist, TotalGate(user)), end, now);
  }

  lemma SimAtEnd(cfg: Config, seeds: seq<Customer>, calls: seq<Call>, id: GateId)
    requires Legal(0, calls) && ColonFreeGate(id) && RunSpares(cfg, FreshSystem(seeds), calls, id)
    ensures var sys := Exec(cfg, FreshSystem(seeds), calls);
            Sim(cfg, sys.cache, id, GateOf(sys.hist, id), EndTime(0, calls))
  {
    hide Step, CallSpares;
    RunRefinesGates(cfg, FreshSystem(seeds), calls, id, 0);
  }

  /**
    The answer to a bind after any legal run that evicts none of its three ceilings' counters and locks:
    whether it is locked out, and what a wrong secret is told, follows from the history alone.
   */
  lemma AnswerFollowsHistory(cfg: Config, seeds: seq<Customer>, calls: seq<Call>, call: Call)
    requires Legal(0, calls) && call.BindCall? && ':' !in call.user
    requires EndTime(0, calls) <= call.now <= call.answered
    requires SparedRun(cfg, FreshSystem(seeds), calls, call.user, call.ref)
    requires SparesThree(cfg, Exec(cfg, FreshSystem(seeds), calls), call, call.user, call.ref)
    ensures var sys := Exec(cfg, FreshSystem(seeds), calls);
            var pair := GateOf(sys.hist, PairGate(call.user, call.ref));
            var customer := GateOf(sys.hist, CustomerGate(call.ref));
            var total := GateOf(sys.hist, TotalGate(call.user));
            var answer := Bind(cfg, sys, call.user, call.session, call.ref, call.factor, call.verdict, call.now,
                               call.answered).1;
            var locked := Locked(pair, call.now) || Locked(customer, call.now) || Locked(total, call.now);
            Offered(cfg, sys.cache, call.session, call.ref, call.now) ==>
              && (locked ==> answer.LockedOut? && Reports(answer.lock, pair, customer, total, call.now))
              && (!locked ==> answer == Settled(call.verdict, pair, customer, total, call.answered))
  {
    hide Step, Exec, Bumped, SimThree, SparesThree, SparedRun, Reports, Offered, LiveInit, GateOf, Locked, AskBind,
      SettleBind, AfterFailure;
    var BindCall(user, session, ref, factor, verdict, asked, now) := call;
    var sys := Exec(cfg, FreshSystem(seeds), calls);
    var pair, customer := GateOf(sys.hist, PairGate(user, ref)), GateOf(sys.hist, CustomerGate(ref));
    var total := GateOf(sys.hist, TotalGate(user));
    GatesOfRun(cfg, seeds, calls, user, ref, asked);
    RefusalsAreExact(cfg, sys, user, session, ref, factor, verdict, asked, now, pair, customer, total);
    if AskBind(cfg, sys, user, session, ref, asked).1.None? {
      SettleAnswers(cfg, AskBind(cfg, sys, user, session, ref, asked).0, user, session, ref, factor, verdict, asked,
                    now);
      if verdict.Refused? {
        WrongSecretAnswer(cfg, sys, call, pair, customer, total);
      }
    } else {
      AskLeaves(cfg, sys, user, session, ref, asked);
    }
    OfferedIsLive(cfg, sys.cache, session, ref, asked);
  }

  lemma OfferedIsLive(cfg: Config, s: Cache, session: string, ref: string, asked: nat)
    ensures Offered(cfg, s, session, ref, asked) ==> LiveInit(cfg, s, session, asked)
  {
  }

  // ---- Bind-init, registration and guard ----

  /**
    Without a phone bind-init answers "nobody" and changes nothing; otherwise its answer is what a bind
    of this session reads during the next five minutes, and nothing is read after them.
   */
  lemma InitAnswerIsStored(cfg: Config, sys: System, session: string, phone: Option<string>, now: nat, later: nat)
    ensures var (sys', result) := BindInit(cfg, sys, session, phone, now);
            && (phone == None || phone == Some("") ==>
                  sys' == sys && result == ResolveResult(Nobody, None, None, false))
            && (phone != None && phone != Some("") ==>
                  && result == Resolve(sys.customers, phone.value)
                  && sys'.hist == sys.hist + [Inited(session, result, now)] && sys'.table == sys.table
                  && Get(cfg, sys'.cache, Encode(InitKey(session)), later).1 ==
                      if later <= now + 300_000 then Some(Init(result)) else None)
  {
    if HasPhone(phone) {
      var result := Resolve(sys.customers, phone.value);
      SetLooks(cfg, sys.cache, Encode(InitKey(session)), Init(result), INIT_TTL_SEC, now,
               FullKey(cfg, Encode(InitKey(session))));
    }
  }

  /**
    Exactly the registrations that report success appended one, and their customer id is that of the new
    customer, whom the phone now resolves to and whose row the user has. A taken phone is always told so;
    a free one whose row could not be written leaves the new customer behind.
   */
  lemma RegisterAnswersWhatItDid(cfg: Config, sys: System, user: string, session: string, phone: Option<string>,
                                 nonce: nat, upsert: DbCall, now: nat)
    requires ':' !in user
    ensures var (sys', answer) := Register(cfg, sys, user, session, phone, nonce, upsert, now);
            var given := phone != None && phone != Some("");
            && (answer.NoPhone? <==> !given)
            && (answer.CustomerExists? <==> given && PhoneTaken(sys.customers, NormalizePhone(phone.value)))
            && (answer.RegisterThrew? || answer.RegisteredAs? ==>
                  && (answer.RegisteredAs? <==> upsert.Done?)
                  && NormalizePhone(phone.value) in sys'.customers.created
                  && var c := sys'.customers.created[NormalizePhone(phone.value)];
                  && Resolve(sys'.customers, phone.value) == ResolveResult(One, Some(c.ref), None, false)
                  && OtherRowsKept(sys, sys', user, c.ref)
                  && (if upsert.NotDone? then sys'.table == sys.table
                      else RowHolds(sys', user, c.ref, c.customerId, "self_registration", now))
                  && (answer.RegisteredAs? ==>
                        && answer.customerId == c.customerId
                        && GuardEntryStored(cfg, sys'.cache, user, c.ref, c.customerId, now)
                        && EntryOf(cfg, sys'.cache, InitKey(session)).None?
                        && sys'.hist == sys.hist + [Registered(user, session, c.ref, now)]))
            && (!answer.RegisteredAs? ==> sys'.hist == sys.hist && sys'.cache == sys.cache)
            && (answer.NoPhone? || answer.CustomerExists? ==> sys' == sys)
  {
    hide NormalizePhone, NewRef, NewId, Set, Delete, EntryOf, Resolve, PhoneTaken;
    if HasPhone(phone) {
      NobodyIffCreatable(sys.customers, phone.value);
      if Create(sys.customers, phone.value).1.Some? {
        var c := Create(sys.customers, phone.value).1.value;
        var e := BindingEntry(EncryptIfNeeded(c.customerId, nonce), c.ref, now);
        CreatedIsTheOne(sys.customers, phone.value);
        TokenGoes(cfg, sys.cache, session, user, e, now);
        assert DecryptIfNeeded(e.cipher) == if c.customerId == "" then None else Some(c.customerId);
      }
    }
  }

  /** On a fresh system the first registration makes customer number one. */
  lemma FirstRegistration(cfg: Config, seeds: seq<Customer>, user: string, session: string, phone: string, nonce: nat,
                          now: nat)
    requires phone != "" && !PhoneTaken(FreshSystem(seeds).customers, NormalizePhone(phone))
    ensures Register(cfg, FreshSystem(seeds), user, session, Some(phone), nonce, Done, now).1 ==
            RegisteredAs("APP-000001")
  {
    hide NormalizePhone, NewRef, NewId;
    NobodyIffCreatable(FreshSystem(seeds).customers, phone);
    FirstCustomer(seeds, phone);
  }

  lemma CreatedIsTheOne(cs: Customers, phone: string)
    requires Create(cs, phone).1.Some?
    ensures var (cs', made) := Create(cs, phone);
            && NormalizePhone(phone) in cs'.created && cs'.created[NormalizePhone(phone)] == made.value
            && Resolve(cs', phone) == ResolveResult(One, Some(made.value.ref), None, false)
  {
    hide NormalizePhone, NewRef, NewId;
    assert WithPhone(cs.seeds, NormalizePhone(phone)) == [];
  }

  lemma {:induction false} CreatedStays(cfg: Config, sys: System, calls: seq<Call>, norm: string)
    requires norm in sys.customers.created
    ensures norm in Exec(cfg, sys, calls).customers.created
    decreases |calls|
  {
    hide Step;
    if calls != [] {
      StepKeepsCreated(cfg, sys, calls[0], norm);
      CreatedStays(cfg, Step(cfg, sys, calls[0]), calls[1..], norm);
    }
  }

  lemma StepKeepsCreated(cfg: Config, sys: System, call: Call, norm: string)
    requires norm in sys.customers.created
    ensures norm in Step(cfg, sys, call).customers.created
  {
    hide CheckLocked, RecordFailure, NormalizePhone, Resolve;
  }

  /**
    A registration whose row could not be written blocks its phone: whatever happens afterwards, every
    later registration with that phone, by anybody, is told that the customer exists.
   */
  lemma ThrownRegistrationBlocksThePhone(cfg: Config, sys: System, first: Call, calls: seq<Call>, again: Call)
    requires first.RegisterCall? && again.RegisterCall? && ':' !in first.user && ':' !in again.user
    requires Register(cfg, sys, first.user, first.session, first.phone, first.nonce, first.upsert, first.now)
             .1.RegisterThrew?
    requires again.phone != None && again.phone != Some("")
    requires NormalizePhone(again.phone.value) == NormalizePhone(first.phone.value)
    ensures var at := Exec(cfg, Step(cfg, sys, first), calls);
            Register(cfg, at, again.user, again.session, again.phone, again.nonce, again.upsert, again.now) ==
            (at, CustomerExists)
  {
    hide Register, NormalizePhone;
    RegisterAnswersWhatItDid(cfg, sys, first.user, first.session, first.phone, first.nonce, first.upsert, first.now);
    var next := Step(cfg, sys, first);
    var at := Exec(cfg, next, calls);
    CreatedStays(cfg, next, calls, NormalizePhone(first.phone.value));
    RegisterAnswersWhatItDid(cfg, at, again.user, again.session, again.phone, again.nonce, again.upsert, again.now);
  }

  /** The guard: a live cached binding, else the row, which is then cached for an hour. */
  lemma GuardAnswers(cfg: Config, sys: System, user: string, ref: string, now: nat, later: nat)
    requires now <= later
    ensures var (sys', served) := ResolveBinding(cfg, sys, user, ref, now);
            var key := Encode(BoundKey(user));
            var cached := Get(cfg, sys.cache, key, now).1;
            && sys'.table == sys.table && sys'.customers == sys.customers && sys'.hist == sys.hist
            && (var e := EntryOf(cfg, sys'.cache, BoundKey(user));
                e.Some? && e.value.expiry.Some? ==> now <= e.value.expiry.value)   // what has expired is dropped
            && (cached.Some? && cached.value.Binding? ==> served == Some(cached.value.entry))
            && (!(cached.Some? && cached.value.Binding?) ==>
                  && (served.Some? <==> (user, ref) in sys.table)
                  && (served.Some? ==>
                        && served.value == BindingEntry(sys.table[(user, ref)].cipher, ref,
                                                        sys.table[(user, ref)].verifiedAt)
                        && Get(cfg, sys'.cache, key, later).1 ==
                            if later <= now + 3_600_000 then Some(Binding(served.value)) else None))
  {
    var key := Encode(BoundKey(user));
    var s1 := Get(cfg, sys.cache, key, now).0;
    if (user, ref) in sys.table {
      var row := sys.table[(user, ref)];
      SetLooks(cfg, s1, key, Binding(BindingEntry(row.cipher, ref, row.verifiedAt)), BINDING_TTL_SEC, now,
               FullKey(cfg, key));
    }
  }
}
