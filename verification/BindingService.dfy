/**
  The bind-init / bind / register flow with the guard and the cache's cleanup timer, run one call
  at a time on one shared cache. Remote answers (verdicts, profiles, session phones) are inputs.
  A bind call reads the clock when it is asked and again when the verdict is answered.
 */
module BindingService {
  import opened Prelude
  import opened MemoryCache
  import opened LockoutGate
  import opened BindingKeys
  import opened BindingData
  import opened RateLimiter
  import opened CustomerService

  const INIT_TTL_SEC: nat := 5 * 60
  const BINDING_TTL_SEC: nat := 60 * 60

  /** A verified row of the binding table. */
  datatype Row = Row(cipher: Option<Cipher>, factor: string, verifiedAt: nat)

  type Table = map<(string, string), Row>

  datatype Event =
    | Inited(session: string, result: ResolveResult, at: nat)
    | FailedVerify(user: string, ref: string, asked: nat, at: nat)
    | Succeeded(user: string, session: string, ref: string, asked: nat, at: nat)
    | Broken(user: string, ref: string, asked: nat, at: nat)   // the verification was asked for, then something threw
    | Registered(user: string, session: string, ref: string, at: nat)

  datatype System = System(cache: Cache, table: Table, customers: Customers, hist: seq<Event>)

  datatype BindOutcome =
    | InitExpired
    | ForeignRef
    | LockedOut(lock: LockState)
    | NotVerified
    | LockedNow(lock: LockState)
    | Bound(customerId: string)
    | Threw

  datatype RegisterOutcome =
    | NoPhone
    | CustomerExists                     // found by the re-resolve, or by the create that lost the race
    | RegisterThrew
    | RegisteredAs(customerId: string)

  /** What the customer service says of a secret, and how the upsert of a confirmed binding goes. */
  datatype Verdict =
    | Refused
    | Confirmed(customerId: string, nonce: nat, upsert: DbCall)
    | NoAnswer                        // verification or profile lookup threw

  datatype Call =
    | InitCall(user: string, session: string, phone: Option<string>, now: nat)
    | BindCall(user: string, session: string, ref: string, factor: string, verdict: Verdict, now: nat, answered: nat)
    | RegisterCall(user: string, session: string, phone: Option<string>, nonce: nat, upsert: DbCall, now: nat)
    | GuardCall(user: string, ref: string, now: nat)  // `ref`: the row the table query returns, if any
    | CleanupCall(now: nat)
    | ForeignSet(key: string, data: string, ttl: nat, now: nat)   // other flows on the same cache
    | ForeignDelete(key: string, now: nat)

  // ---- The calls as functions of the system ----

  predicate HasPhone(phone: Option<string>)
  {
    phone.Some? && phone.value != ""
  }

  function BindInit(cfg: Config, sys: System, session: string, phone: Option<string>, now: nat)
    : (System, ResolveResult)
  {
    if !HasPhone(phone) then (sys, ResolveResult(Nobody, None, None, false))
    else
      var result := Resolve(sys.customers, phone.value);
      (sys.(cache := Set(cfg, sys.cache, Encode(InitKey(session)), Init(result), INIT_TTL_SEC, now),
            hist := sys.hist + [Inited(session, result, now)]),
       result)
  }

  function AllowedOf(v: Value): seq<string>
  {
    if v.Init? then AllowedRefs(v.result) else []
  }

  /** Row, limiter counters, single-use token, guard cache: what a verified secret changes. */
  function Verified(cfg: Config, sys: System, user: string, session: string, ref: string, factor: string,
                    customerId: string, nonce: nat, asked: nat, now: nat): System
  {
    var cipher := EncryptIfNeeded(customerId, nonce);
    var s1 := ClearFailures(cfg, sys.cache, user, ref);
    var s2 := Delete(cfg, s1, Encode(InitKey(session)));
    sys.(cache := Set(cfg, s2, Encode(BoundKey(user)), Binding(BindingEntry(cipher, ref, now)), BINDING_TTL_SEC, now),
         table := sys.table[(user, ref) := Row(cipher, factor, now)],
         hist := sys.hist + [Succeeded(user, session, ref, asked, now)])
  }

  /** The first half of a bind, up to the verification: refused, or None when the secret may be tried. */
  function AskBind(cfg: Config, sys: System, user: string, session: string, ref: string, asked: nat)
    : (System, Option<BindOutcome>)
  {
    var (s1, init) := Get(cfg, sys.cache, Encode(InitKey(session)), asked);
    if init.None? then (sys.(cache := s1), Some(InitExpired))
    else if ref !in AllowedOf(init.value) then (sys.(cache := s1), Some(ForeignRef))
    else
      var (s2, lock) := CheckLocked(cfg, s1, user, ref, asked);
      (sys.(cache := s2), if lock.LockedFor? then Some(LockedOut(lock)) else None)
  }

  /** The second half, once the verification has been answered. */
  function SettleBind(cfg: Config, sys: System, user: string, session: string, ref: string, factor: string,
                      verdict: Verdict, asked: nat, now: nat): (System, BindOutcome)
  {
    match verdict
    case Refused =>
      var (s, fail) := RecordFailure(cfg, sys.cache, user, ref, now);
      (sys.(cache := s, hist := sys.hist + [FailedVerify(user, ref, asked, now)]),
       if fail.LockedFor? then LockedNow(fail) else NotVerified)
    case Confirmed(customerId, nonce, Done) =>
      (Verified(cfg, sys, user, session, ref, factor, customerId, nonce, asked, now), Bound(customerId))
    case Confirmed(customerId, nonce, AnswerLost) =>
      (sys.(table := sys.table[(user, ref) := Row(EncryptIfNeeded(customerId, nonce), factor, now)],
            hist := sys.hist + [Broken(user, ref, asked, now)]),
       Threw)
    case _ => (sys.(hist := sys.hist + [Broken(user, ref, asked, now)]), Threw)
  }

  function Bind(cfg: Config, sys: System, user: string, session: string, ref: string, factor: string,
                verdict: Verdict, asked: nat, now: nat): (System, BindOutcome)
  {
    var (sys1, refused) := AskBind(cfg, sys, user, session, ref, asked);
    if refused.Some? then (sys1, refused.value)
    else SettleBind(cfg, sys1, user, session, ref, factor, verdict, asked, now)
  }

  function Register(cfg: Config, sys: System, user: string, session: string, phone: Option<string>,
                    nonce: nat, upsert: DbCall, now: nat): (System, RegisterOutcome)
  {
    if !HasPhone(phone) then (sys, NoPhone)
    else if Resolve(sys.customers, phone.value).status != Nobody then (sys, CustomerExists)
    else
      var (customers, made) := Create(sys.customers, phone.value);
      if made.None? then (sys, CustomerExists)
      else
        var c := made.value;
        var cipher := EncryptIfNeeded(c.customerId, nonce);
        var table := sys.table[(user, c.ref) := Row(cipher, "self_registration", now)];
        match upsert
        case NotDone => (sys.(customers := customers), RegisterThrew)
        case AnswerLost => (sys.(customers := customers, table := table), RegisterThrew)
        case Done =>
          var s1 := Delete(cfg, sys.cache, Encode(InitKey(session)));
          (System(Set(cfg, s1, Encode(BoundKey(user)), Binding(BindingEntry(cipher, c.ref, now)), BINDING_TTL_SEC,
                      now),
                  table,
                  customers,
                  sys.hist + [Registered(user, session, c.ref, now)]),
           RegisteredAs(c.customerId))
  }

  /** The guard: cached binding first, then the table, filling the cache. */
  function ResolveBinding(cfg: Config, sys: System, user: string, ref: string, now: nat)
    : (System, Option<BindingEntry>)
  {
    var (s1, cached) := Get(cfg, sys.cache, Encode(BoundKey(user)), now);
    if cached.Some? && cached.value.Binding? then (sys.(cache := s1), Some(cached.value.entry))
    else if (user, ref) !in sys.table then (sys.(cache := s1), None)
    else
      var row := sys.table[(user, ref)];
      var entry := BindingEntry(row.cipher, ref, row.verifiedAt);
      (sys.(cache := Set(cfg, s1, Encode(BoundKey(user)), Binding(entry), BINDING_TTL_SEC, now)), Some(entry))
  }

  function Step(cfg: Config, sys: System, call: Call): System
  {
    match call
    case InitCall(_, session, phone, now) => BindInit(cfg, sys, session, phone, now).0
    case BindCall(user, session, ref, factor, verdict, asked, now) =>
      Bind(cfg, sys, user, session, ref, factor, verdict, asked, now).0
    case RegisterCall(user, session, phone, nonce, upsert, now) =>
      Register(cfg, sys, user, session, phone, nonce, upsert, now).0
    case GuardCall(user, ref, now) => ResolveBinding(cfg, sys, user, ref, now).0
    case CleanupCall(now) => sys.(cache := Cleanup(sys.cache, now))
    case ForeignSet(key, data, ttl, now) =>
      sys.(cache := Set(cfg, sys.cache, Encode(ForeignKey(key)), Other(data), ttl, now))
    case ForeignDelete(key, _) => sys.(cache := Delete(cfg, sys.cache, Encode(ForeignKey(key))))
  }

  function Exec(cfg: Config, sys: System, calls: seq<Call>): System
    decreases |calls|
  {
    if calls == [] then sys else Exec(cfg, Step(cfg, sys, calls[0]), calls[1..])
  }

  function EndOf(call: Call): nat
  {
    if call.BindCall? then call.answered else call.now
  }

  /** User ids carry no colon; other flows keep out of the `bind:` keys. */
  predicate Proper(call: Call)
  {
    match call
    case CleanupCall(_) => true
    case ForeignSet(key, _, _, _) => ColonFree(ForeignKey(key))
    case ForeignDelete(key, _) => ColonFree(ForeignKey(key))
    case _ => ':' !in call.user
  }

  /** Calls follow one another in time. */
  predicate Legal(clock: nat, calls: seq<Call>)
    decreases |calls|
  {
    calls == [] ||
    (&& clock <= calls[0].now <= EndOf(calls[0])
     && Proper(calls[0])
     && Legal(EndOf(calls[0]), calls[1..]))
  }

  /** When the last call has been answered. */
  function EndTime(clock: nat, calls: seq<Call>): nat
    decreases |calls|
  {
    if calls == [] then clock else EndTime(EndOf(calls[0]), calls[1..])
  }

  // ---- Evictions during a run ----

  predicate SettleSpares(cfg: Config, s: Cache, user: string, session: string, ref: string, verdict: Verdict,
                         now: nat, id: GateId)
  {
    match verdict
    case Refused => RecordFailureSpares(cfg, s, user, ref, now, id)
    case Confirmed(_, _, Done) =>
      Spares(cfg, Delete(cfg, ClearFailures(cfg, s, user, ref), Encode(InitKey(session))), BoundKey(user), id, now)
    case _ => true
  }

  /** No write of this call evicts the ceiling's running counter or its lock in force. */
  predicate CallSpares(cfg: Config, sys: System, call: Call, id: GateId)
  {
    match call
    case InitCall(_, session, phone, now) => HasPhone(phone) ==> Spares(cfg, sys.cache, InitKey(session), id, now)
    case BindCall(user, session, ref, factor, verdict, asked, now) =>
      var (sys1, refused) := AskBind(cfg, sys, user, session, ref, asked);
      refused.None? ==> SettleSpares(cfg, sys1.cache, user, session, ref, verdict, now, id)
    case RegisterCall(user, session, phone, nonce, upsert, now) =>
      Register(cfg, sys, user, session, phone, nonce, upsert, now).1.RegisteredAs? ==>
        Spares(cfg, Delete(cfg, sys.cache, Encode(InitKey(session))), BoundKey(user), id, now)
    case GuardCall(user, ref, now) =>
      var (s1, cached) := Get(cfg, sys.cache, Encode(BoundKey(user)), now);
      !(cached.Some? && cached.value.Binding?) && (user, ref) in sys.table ==> Spares(cfg, s1, BoundKey(user), id, now)
    case CleanupCall(_) => true
    case ForeignSet(key, _, _, now) => Spares(cfg, sys.cache, ForeignKey(key), id, now)
    case ForeignDelete(_, _) => true
  }

  predicate RunSpares(cfg: Config, sys: System, calls: seq<Call>, id: GateId)
    decreases |calls|
  {
    calls == [] || (CallSpares(cfg, sys, calls[0], id) && RunSpares(cfg, Step(cfg, sys, calls[0]), calls[1..], id))
  }

  function FreshSystem(seeds: seq<Customer>): System
  {
    System(Store([], map[]), map[], Customers(seeds, map[], 0), [])
  }

  // ---- The service object ----

  class BindingServiceObject {
    const cache: MemoryCacheService<Value>
    const limiter: BindingRateLimiter
    const customerService: MockCustomerService
    var table: Table
    ghost var hist: seq<Event>

    ghost predicate Valid()
      reads this
    {
      limiter.cache == cache
    }

    ghost function State(): System
      reads this, cache, customerService
    {
      System(cache.store, table, customerService.State(), hist)
    }

    constructor (cache: MemoryCacheService<Value>, limiter: BindingRateLimiter, customerService: MockCustomerService)
      requires limiter.cache == cache
      ensures Valid() && this.cache == cache && this.customerService == customerService
      ensures State() == System(cache.store, map[], customerService.State(), [])
    {
      this.cache, this.limiter, this.customerService := cache, limiter, customerService;
      table, hist := map[], [];
    }

    method DoBindInit(session: string, phone: Option<string>, now: nat) returns (result: ResolveResult)
      requires Valid()
      modifies this, cache
      ensures Valid() && (State(), result) == BindInit(cache.cfg, old(State()), session, phone, now)
    {
      if phone.None? || phone.value == "" {
        return ResolveResult(Nobody, None, None, false);
      }
      result := Resolve(customerService.State(), phone.value);
      cache.SetKey(Encode(InitKey(session)), Init(result), INIT_TTL_SEC, now);
      hist := hist + [Inited(session, result, now)];
    }

    /** Whether the secret may be tried; otherwise why not. */
    method AskToBind(user: string, session: string, ref: string, asked: nat) returns (refused: Option<BindOutcome>)
      requires Valid()
      modifies cache
      ensures Valid() && (State(), refused) == AskBind(cache.cfg, old(State()), user, session, ref, asked)
    {
      var init := cache.GetKey(Encode(InitKey(session)), asked);
      if init.None? {
        return Some(InitExpired);
      }
      if ref !in AllowedOf(init.value) {
        return Some(ForeignRef);
      }
      var lock := limiter.CheckLock(user, ref, asked);
      if lock.LockedFor? {
        return Some(LockedOut(lock));
      }
      return None;
    }

    /** `verdict` carries the answers of the customer service and of the table. */
    method DoBind(user: string, session: string, ref: string, factor: string, verdict: Verdict,
                  asked: nat, now: nat) returns (outcome: BindOutcome)
      requires Valid()
      modifies this, cache
      ensures Valid()
      ensures (State(), outcome) ==
              Bind(cache.cfg, old(State()), user, session, ref, factor, verdict, asked, now)
    {
      var refused := AskToBind(user, session, ref, asked);
      if refused.Some? {
        return refused.value;
      }
      if verdict.NoAnswer? {
        hist := hist + [Broken(user, ref, asked, now)];
        return Threw;
      }
      if verdict.Refused? {
        var fail := limiter.RecordFailedAttempt(user, ref, now);
        hist := hist + [FailedVerify(user, ref, asked, now)];
        return if fail.LockedFor? then LockedNow(fail) else NotVerified;
      }
      var cipher := EncryptIfNeeded(verdict.customerId, verdict.nonce);
      if !verdict.upsert.NotDone? {
        table := table[(user, ref) := Row(cipher, factor, now)];
      }
      if !verdict.upsert.Done? {
        hist := hist + [Broken(user, ref, asked, now)];
        return Threw;
      }
      limiter.ClearFailureCounters(user, ref);
      cache.DeleteKey(Encode(InitKey(session)));
      cache.SetKey(Encode(BoundKey(user)), Binding(BindingEntry(cipher, ref, now)), BINDING_TTL_SEC, now);
      hist := hist + [Succeeded(user, session, ref, asked, now)];
      return Bound(verdict.customerId);
    }

    method DoRegister(user: string, session: string, phone: Option<string>, nonce: nat, upsert: DbCall, now: nat)
      returns (outcome: RegisterOutcome)
      requires Valid()
      modifies this, cache, customerService
      ensures Valid()
      ensures (State(), outcome) == Register(cache.cfg, old(State()), user, session, phone, nonce, upsert, now)
    {
      if phone.None? || phone.value == "" {
        return NoPhone;
      }
      var resolved := Resolve(customerService.State(), phone.value);
      if resolved.status != Nobody {
        return CustomerExists;
      }
      var made := customerService.CreateCustomer(phone.value);
      if made.None? {
        return CustomerExists;
      }
      var cipher := EncryptIfNeeded(made.value.customerId, nonce);
      if !upsert.NotDone? {
        table := table[(user, made.value.ref) := Row(cipher, "self_registration", now)];
      }
      if !upsert.Done? {
        return RegisterThrew;
      }
      cache.DeleteKey(Encode(InitKey(session)));
      cache.SetKey(Encode(BoundKey(user)), Binding(BindingEntry(cipher, made.value.ref, now)), BINDING_TTL_SEC, now);
      hist := hist + [Registered(user, session, made.value.ref, now)];
      return RegisteredAs(made.value.customerId);
    }

    method DoResolveBinding(user: string, ref: string, now: nat) returns (entry: Option<BindingEntry>)
      requires Valid()
      modifies this, cache
      ensures Valid() && (State(), entry) == ResolveBinding(cache.cfg, old(State()), user, ref, now)
    {
      var cached := cache.GetKey(Encode(BoundKey(user)), now);
      if cached.Some? && cached.value.Binding? {
        return Some(cached.value.entry);
      }
      if (user, ref) !in table {
        return None;
      }
      var row := table[(user, ref)];
      var e := BindingEntry(row.cipher, ref, row.verifiedAt);
      cache.SetKey(Encode(BoundKey(user)), Binding(e), BINDING_TTL_SEC, now);
      return Some(e);
    }
  }
}
