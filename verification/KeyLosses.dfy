/** Operations of the binding flow on other keys can at most lose a cache entry, never change it. */
module KeyLosses {
  import opened Prelude
  import opened MemoryCache
  import opened BindingKeys
  import opened BindingData
  import opened RateLimiter
  import opened BindingService
  import CustomerService

  ghost predicate KeptOrLost(s: Cache, s': Cache, k: string)
  {
    Lookup(s', k).None? || Lookup(s', k) == Lookup(s, k)
  }

  lemma GetLoses(cfg: Config, s: Cache, key: string, now: nat, k: string)
    ensures KeptOrLost(s, Get(cfg, s, key, now).0, k)
  {
  }

  lemma SetLoses(cfg: Config, s: Cache, key: string, v: Value, ttl: nat, now: nat, k: string)
    requires k != FullKey(cfg, key)
    ensures KeptOrLost(s, Set(cfg, s, key, v, ttl, now), k)
  {
  }

  /** ... a write of another key of the flow, that is. */
  lemma WriteLoses(cfg: Config, s: Cache, written: Key, v: Value, ttl: nat, now: nat, key: Key)
    requires ColonFree(written) && ColonFree(key) && written != key
    ensures KeptOrLost(s, Set(cfg, s, Encode(written), v, ttl, now), FullKey(cfg, Encode(key)))
  {
    DistinctKeys(cfg, written, key);
    SetLoses(cfg, s, Encode(written), v, ttl, now, FullKey(cfg, Encode(key)));
  }

  lemma TripLoses(cfg: Config, s: Cache, id: GateId, now: nat, key: Key)
    requires ColonFreeGate(id) && ColonFree(key) && key != FailKey(id) && key != LockKey(id)
    ensures KeptOrLost(s, Trip(cfg, s, id, now).0, FullKey(cfg, Encode(key)))
  {
    var failKey := Encode(FailKey(id));
    var c := CeilingOf(id);
    var (s1, entry) := Get(cfg, s, failKey, now);
    GetLoses(cfg, s, failKey, now, FullKey(cfg, Encode(key)));
    var (s2, n) := Bump(cfg, s, failKey, c.windowSec, now);
    WriteLoses(cfg, s1, FailKey(id), NextCounter(entry, c.windowSec, now), c.windowSec, now, key);
    if n >= c.limit {
      WriteLoses(cfg, s2, LockKey(id), Flag, c.lockSec, now, key);
    }
  }

  /** Not a key of a ceiling that covers the pair. */
  predicate Apart(key: Key, user: string, ref: string)
  {
    ColonFree(key) && (key.FailKey? || key.LockKey? ==> !Covers(key.id, user, ref))
  }

  lemma RecordFailureLoses(cfg: Config, s: Cache, user: string, ref: string, now: nat, key: Key)
    requires ':' !in user && Apart(key, user, ref)
    ensures KeptOrLost(s, RecordFailure(cfg, s, user, ref, now).0, FullKey(cfg, Encode(key)))
  {
    var s1 := Trip(cfg, s, PairGate(user, ref), now).0;
    var s2 := Trip(cfg, s1, CustomerGate(ref), now).0;
    TripLoses(cfg, s, PairGate(user, ref), now, key);
    TripLoses(cfg, s1, CustomerGate(ref), now, key);
    TripLoses(cfg, s2, TotalGate(user), now, key);
  }

  lemma CheckLockedLoses(cfg: Config, s: Cache, user: string, ref: string, now: nat, k: string)
    ensures KeptOrLost(s, CheckLocked(cfg, s, user, ref, now).0, k)
  {
  }

  lemma AskBindLoses(cfg: Config, sys: System, user: string, session: string, ref: string, asked: nat, k: string)
    ensures KeptOrLost(sys.cache, AskBind(cfg, sys, user, session, ref, asked).0.cache, k)
  {
    GetLoses(cfg, sys.cache, Encode(InitKey(session)), asked, k);
    CheckLockedLoses(cfg, Get(cfg, sys.cache, Encode(InitKey(session)), asked).0, user, ref, asked, k);
  }

  /** The consumed session's token is deleted and the guard cache warmed. */
  lemma ConsumeLoses(cfg: Config, s: Cache, consumed: string, user: string, entry: BindingEntry, now: nat, key: Key)
    requires ':' !in user && ColonFree(key) && key != BoundKey(user)
    ensures var s' := Set(cfg, Delete(cfg, s, Encode(InitKey(consumed))), Encode(BoundKey(user)),
                          Binding(entry), BINDING_TTL_SEC, now);
            var k := FullKey(cfg, Encode(key));
            KeptOrLost(s, s', k) && (key == InitKey(consumed) ==> Lookup(s', k).None?)
  {
    WriteLoses(cfg, Delete(cfg, s, Encode(InitKey(consumed))), BoundKey(user), Binding(entry), BINDING_TTL_SEC, now,
               key);
  }

  predicate Binds(verdict: Verdict)
  {
    verdict.Confirmed? && verdict.upsert.Done?
  }

  /** After the verdict: a key of no covering ceiling, unless it is the warmed binding, is kept or lost. */
  lemma SettleLoses(cfg: Config, sys: System, user: string, session: string, ref: string, factor: string,
                    verdict: Verdict, asked: nat, now: nat, key: Key)
    requires ':' !in user && Apart(key, user, ref) && (key == BoundKey(user) ==> !Binds(verdict))
    ensures var s' := SettleBind(cfg, sys, user, session, ref, factor, verdict, asked, now).0.cache;
            var k := FullKey(cfg, Encode(key));
            && KeptOrLost(sys.cache, s', k)
            && (Binds(verdict) && key == InitKey(session) ==> Lookup(s', k).None?)
  {
    match verdict {
      case Refused => RecordFailureLoses(cfg, sys.cache, user, ref, now, key);
      case Confirmed(cid, nonce, Done) =>
        ConsumeLoses(cfg, ClearFailures(cfg, sys.cache, user, ref), session, user,
                     BindingEntry(EncryptIfNeeded(cid, nonce), ref, now), now, key);
      case _ =>
    }
  }

  lemma RegisterLoses(cfg: Config, sys: System, user: string, session: string, phone: Option<string>, nonce: nat,
                      upsert: DbCall, now: nat, key: Key)
    requires ':' !in user && ColonFree(key) && key != BoundKey(user)
    ensures var (sys', made) := Register(cfg, sys, user, session, phone, nonce, upsert, now);
            var k := FullKey(cfg, Encode(key));
            && KeptOrLost(sys.cache, sys'.cache, k)
            && (made.RegisteredAs? && key == InitKey(session) ==> Lookup(sys'.cache, k).None?)
  {
    if Register(cfg, sys, user, session, phone, nonce, upsert, now).1.RegisteredAs? {
      var c := CustomerService.Create(sys.customers, phone.value).1.value;
      ConsumeLoses(cfg, sys.cache, session, user, BindingEntry(EncryptIfNeeded(c.customerId, nonce), c.ref, now), now,
                   key);
    }
  }

  lemma GuardLoses(cfg: Config, sys: System, user: string, ref: string, now: nat, key: Key)
    requires ':' !in user && ColonFree(key) && key != BoundKey(user)
    ensures KeptOrLost(sys.cache, ResolveBinding(cfg, sys, user, ref, now).0.cache, FullKey(cfg, Encode(key)))
  {
    var (s1, cached) := Get(cfg, sys.cache, Encode(BoundKey(user)), now);
    GetLoses(cfg, sys.cache, Encode(BoundKey(user)), now, FullKey(cfg, Encode(key)));
    if (user, ref) in sys.table {
      var row := sys.table[(user, ref)];
      WriteLoses(cfg, s1, BoundKey(user), Binding(BindingEntry(row.cipher, ref, row.verifiedAt)), BINDING_TTL_SEC, now,
                 key);
    }
  }

  /** Is this the key of something the call is about? */
  predicate Concerns(call: Call, key: Key)
  {
    match call
    case InitCall(_, session, _, _) => key == InitKey(session)
    case BindCall(user, _, ref, _, _, _, _) => key == BoundKey(user) || !Apart(key, user, ref)
    case RegisterCall(user, _, _, _, _, _) => key == BoundKey(user)
    case GuardCall(user, _, _) => key == BoundKey(user)
    case CleanupCall(_) => false
    case ForeignSet(text, _, _, _) => key == ForeignKey(text)
    case ForeignDelete(_, _) => false
  }

  /** Whatever the call, the entries of the keys it does not concern are kept or lost. */
  lemma StepLoses(cfg: Config, sys: System, call: Call, key: Key)
    requires Proper(call) && ColonFree(key) && !Concerns(call, key)
    ensures KeptOrLost(sys.cache, Step(cfg, sys, call).cache, FullKey(cfg, Encode(key)))
  {
    var k := FullKey(cfg, Encode(key));
    match call {
      case InitCall(_, session, phone, now) =>
        if HasPhone(phone) {
          WriteLoses(cfg, sys.cache, InitKey(session), Init(CustomerService.Resolve(sys.customers, phone.value)),
                     INIT_TTL_SEC, now, key);
        }
      case BindCall(user, session, ref, factor, verdict, asked, now) =>
        AskBindLoses(cfg, sys, user, session, ref, asked, k);
        var sys1 := AskBind(cfg, sys, user, session, ref, asked).0;
        SettleLoses(cfg, sys1, user, session, ref, factor, verdict, asked, now, key);
      case RegisterCall(user, session, phone, nonce, upsert, now) =>
        RegisterLoses(cfg, sys, user, session, phone, nonce, upsert, now, key);
      case GuardCall(user, ref, now) => GuardLoses(cfg, sys, user, ref, now, key);
      case ForeignSet(text, data, ttl, now) =>
        WriteLoses(cfg, sys.cache, ForeignKey(text), Other(data), ttl, now, key);
      case _ =>
    }
  }
}
