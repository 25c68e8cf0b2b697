/**
  One request at a time, the interleaved steps of binds, registrations and guard reads do what the calls
  of the serial flow do to rows, cached bindings and customers.
 */
module BindingSerial {
  import opened Prelude
  import opened BindingData
  import opened BindingKeys
  import opened CustomerService
  import opened BindingRace
  import MC = MemoryCache
  import RL = RateLimiter
  import S = BindingService

  /** The race's rows are the flow's rows without factor and time. */
  ghost predicate SameTables(st: State, sys: S.System)
  {
    && st.customers == sys.customers && st.table.Keys == sys.table.Keys
    && forall k :: k in st.table ==> st.table[k].cipher == sys.table[k].cipher
  }

  /** The guard's cached entry of the user is the one in the cache. */
  ghost predicate SameEntry(cfg: MC.Config, st: State, s: RL.Cache, user: string)
  {
    && user in st.guardCache
    && RL.EntryOf(cfg, s, BoundKey(user)).Some?
    && RL.EntryOf(cfg, s, BoundKey(user)).value.value == Binding(st.guardCache[user])
  }

  lemma RunOne(st: State, a: Action, rest: seq<Action>)
    ensures Run(st, [a] + rest) == Run(Apply(st, a), rest)
  {
    assert ([a] + rest)[1..] == rest;
  }

  lemma RunLast(st: State, a: Action)
    ensures Run(st, [a]) == Apply(st, a)
  {
    assert [a][1..] == [] && Run(Apply(st, a), []) == Apply(st, a);
  }

  lemma RunTwo(st: State, a: Action, b: Action)
    ensures Run(st, [a, b]) == Apply(Apply(st, a), b)
  {
    assert [a, b] == [a] + [b];
    RunOne(st, a, [b]);
    RunLast(Apply(st, a), b);
  }

  lemma RunFour(st: State, a: Action, b: Action, c: Action, d: Action)
    ensures Run(st, [a, b, c, d]) == Run(Apply(Apply(st, a), b), [c, d])
  {
    hide Apply;
    assert [a, b, c, d] == [a] + ([b] + [c, d]);
    RunOne(st, a, [b] + [c, d]);
    RunOne(Apply(st, a), b, [c, d]);
  }

  /** The profile of the first seed customer with the reference. */
  lemma {:induction false} SeedIdIsTheFirst(seeds: seq<Customer>, i: nat)
    requires i < |seeds| && forall j :: 0 <= j < i ==> seeds[j].ref != seeds[i].ref
    ensures SeedId(seeds, seeds[i].ref) == Some(seeds[i].customerId)
  {
    if i > 0 {
      assert forall j :: 0 <= j < i - 1 ==> seeds[1..][j] == seeds[j + 1];
      SeedIdIsTheFirst(seeds[1..], i - 1);
    }
  }

  /** The end of an upsert that nothing overtakes. */
  lemma UpsertSteps(st: State, tid: nat)
    requires tid in st.threads && st.threads[tid].Selected?
    requires var t := st.threads[tid]; t.existed <==> (t.user, t.entry.ref) in st.table
    ensures var t := st.threads[tid];
            Run(st, [WriteRow(tid), WarmCache(tid)]) ==
            st.(table := st.table[(t.user, t.entry.ref) := Row(t.entry.cipher)],
                guardCache := st.guardCache[t.user := t.entry],
                threads := st.threads - {tid},
                selfRegistrations := st.selfRegistrations + if t.origin.ByCreation? then [t.origin.phone] else [])
  {
    RunTwo(st, WriteRow(tid), WarmCache(tid));
    var t := st.threads[tid];
    assert st.threads[tid := Written(t.user, t.entry)] - {tid} == st.threads - {tid};
  }

  function BindScript(tid: nat, user: string, ref: string, nonce: nat, at: nat): seq<Action>
  {
    [VerifyTrue(tid, user, ref), SelectRow(tid, nonce, at), WriteRow(tid), WarmCache(tid)]
  }

  lemma BindSteps(st: State, tid: nat, user: string, i: nat, nonce: nat, at: nat)
    requires tid !in st.threads && i < |st.customers.seeds|
    requires forall j :: 0 <= j < i ==> st.customers.seeds[j].ref != st.customers.seeds[i].ref
    ensures var c := st.customers.seeds[i];
            var e := BindingEntry(if c.customerId == "" then None else Some(Sealed(nonce, c.customerId)), c.ref, at);
            Run(st, BindScript(tid, user, c.ref, nonce, at)) ==
            st.(table := st.table[(user, c.ref) := Row(e.cipher)], guardCache := st.guardCache[user := e],
                proven := st.proven[(user, c.ref) := c.customerId])
  {
    var c := st.customers.seeds[i];
    SeedIdIsTheFirst(st.customers.seeds, i);
    var s1 := Apply(st, VerifyTrue(tid, user, c.ref));
    var s2 := Apply(s1, SelectRow(tid, nonce, at));
    RunFour(st, VerifyTrue(tid, user, c.ref), SelectRow(tid, nonce, at), WriteRow(tid), WarmCache(tid));
    UpsertSteps(s2, tid);
    assert s2.threads - {tid} == st.threads;
    assert st.selfRegistrations + [] == st.selfRegistrations;
  }

  /** The binding, row and cached entry that both flows end with. */
  ghost predicate Agrees(cfg: MC.Config, st: State, sys: S.System, user: string)
  {
    SameTables(st, sys) && SameEntry(cfg, st, sys.cache, user)
  }

  /** An undisturbed confirmed bind of a seed customer does what `bind` does, and records the proof. */
  lemma BindStepsAreBind(cfg: MC.Config, st: State, sys: S.System, tid: nat, user: string, i: nat, session: string,
                         factor: string, nonce: nat, asked: nat, at: nat)
    requires SameTables(st, sys) && tid !in st.threads && i < |st.customers.seeds|
    requires forall j :: 0 <= j < i ==> st.customers.seeds[j].ref != st.customers.seeds[i].ref
    ensures var c := st.customers.seeds[i];
            var st' := Run(st, BindScript(tid, user, c.ref, nonce, at));
            var (sys', answer) := S.SettleBind(cfg, sys, user, session, c.ref, factor,
                                               S.Confirmed(c.customerId, nonce, Done), asked, at);
            && Agrees(cfg, st', sys', user) && answer == S.Bound(c.customerId)
            && st'.proven == st.proven[(user, c.ref) := c.customerId] && st'.threads == st.threads
  {
    hide Run, RL.ClearFailures, MC.Set, MC.Delete, RL.EntryOf;
    BindSteps(st, tid, user, i, nonce, at);
    var c := st.customers.seeds[i];
    WarmedEntry(cfg, MC.Delete(cfg, RL.ClearFailures(cfg, sys.cache, user, c.ref), Encode(InitKey(session))), user,
                BindingEntry(EncryptIfNeeded(c.customerId, nonce), c.ref, at), S.BINDING_TTL_SEC, at);
  }

  lemma WarmedEntry(cfg: MC.Config, s: RL.Cache, user: string, e: BindingEntry, ttl: nat, now: nat)
    ensures var s' := MC.Set(cfg, s, Encode(BoundKey(user)), Binding(e), ttl, now);
            && RL.EntryOf(cfg, s', BoundKey(user)).Some?
            && RL.EntryOf(cfg, s', BoundKey(user)).value.value == Binding(e)
  {
  }

  function RegisterScript(tid: nat, user: string, phone: string, nonce: nat, at: nat): seq<Action>
  {
    [ReResolve(tid, user, phone), CreateCustomer(tid, nonce, at), WriteRow(tid), WarmCache(tid)]
  }

  lemma RegisterSteps(st: State, tid: nat, user: string, phone: string, nonce: nat, at: nat)
    requires tid !in st.threads && !PhoneTaken(st.customers, NormalizePhone(phone))
    ensures var (customers, made) := Create(st.customers, phone);
            made.Some? &&
            var c := made.value;
            var e := BindingEntry(if c.customerId == "" then None else Some(Sealed(nonce, c.customerId)), c.ref, at);
            Run(st, RegisterScript(tid, user, phone, nonce, at)) ==
            st.(customers := customers,
                table := st.table[(user, c.ref) := Row(e.cipher)], guardCache := st.guardCache[user := e],
                proven := st.proven[(user, c.ref) := c.customerId],
                selfRegistrations := st.selfRegistrations + [NormalizePhone(phone)])
  {
    hide NormalizePhone, NewRef, NewId, Resolve;
    NobodyIffCreatable(st.customers, phone);
    var s1 := Apply(st, ReResolve(tid, user, phone));
    var s2 := Apply(s1, CreateCustomer(tid, nonce, at));
    RunFour(st, ReResolve(tid, user, phone), CreateCustomer(tid, nonce, at), WriteRow(tid), WarmCache(tid));
    UpsertSteps(s2, tid);
    assert s2.threads - {tid} == st.threads;
  }

  /** An undisturbed registration with a free phone does what `bindRegister` does. */
  lemma RegisterStepsAreRegister(cfg: MC.Config, st: State, sys: S.System, tid: nat, user: string, session: string,
                                 phone: string, nonce: nat, at: nat)
    requires SameTables(st, sys) && tid !in st.threads
    requires phone != "" && !PhoneTaken(st.customers, NormalizePhone(phone))
    ensures var st' := Run(st, RegisterScript(tid, user, phone, nonce, at));
            var (sys', answer) := S.Register(cfg, sys, user, session, Some(phone), nonce, Done, at);
            && Agrees(cfg, st', sys', user) && answer.RegisteredAs? && st'.threads == st.threads
            && st'.selfRegistrations == st.selfRegistrations + [NormalizePhone(phone)]
            && exists ref :: (user, ref) in st'.proven && st'.proven[(user, ref)] == answer.customerId
                             && (user, ref) in st'.table
  {
    hide Run, NormalizePhone, NewRef, NewId, Resolve, MC.Set, MC.Delete, RL.EntryOf;
    RegisterSteps(st, tid, user, phone, nonce, at);
    NobodyIffCreatable(st.customers, phone);
    var c := Create(st.customers, phone).1.value;
    WarmedEntry(cfg, MC.Delete(cfg, sys.cache, Encode(InitKey(session))), user,
                BindingEntry(EncryptIfNeeded(c.customerId, nonce), c.ref, at), S.BINDING_TTL_SEC, at);
    assert (user, c.ref) in Run(st, RegisterScript(tid, user, phone, nonce, at)).table;
  }

  /** A registration that finds the phone taken leaves everything alone. */
  lemma TakenPhoneStopsRegistration(st: State, tid: nat, user: string, phone: string)
    requires tid !in st.threads && PhoneTaken(st.customers, NormalizePhone(phone))
    ensures Apply(st, ReResolve(tid, user, phone)) == st
  {
    hide NormalizePhone, Resolve;
    NobodyIffCreatable(st.customers, phone);
  }

  /** The guard's request carries the customer id that the served entry opens to, if it opens. */
  function Carrying(st: State, user: string, e: BindingEntry): seq<Attachment>
  {
    st.attached + match e.cipher
                  case Some(Sealed(_, plain)) => [Attachment(user, e.ref, plain)]
                  case None => []
  }

  lemma GuardSteps(st: State, tid: nat, user: string, ref: string, at: nat)
    requires tid !in st.threads && user !in st.guardCache
    ensures Run(st, [GuardRead(tid, user), GuardSelect(tid, ref, at), GuardFill(tid)]) ==
            if (user, ref) !in st.table then st
            else
              var e := BindingEntry(st.table[(user, ref)].cipher, ref, at);
              st.(guardCache := st.guardCache[user := e], attached := Carrying(st, user, e))
  {
    hide Apply, Carrying;
    var s1 := st.(threads := st.threads[tid := GuardAsked(user)]);
    GuardMisses(st, tid, user);
    assert [GuardRead(tid, user), GuardSelect(tid, ref, at), GuardFill(tid)] ==
           [GuardRead(tid, user)] + [GuardSelect(tid, ref, at), GuardFill(tid)];
    RunOne(st, GuardRead(tid, user), [GuardSelect(tid, ref, at), GuardFill(tid)]);
    RunTwo(s1, GuardSelect(tid, ref, at), GuardFill(tid));
    GuardReadsTable(st, s1, tid, user, ref, at);
  }

  lemma GuardMisses(st: State, tid: nat, user: string)
    requires tid !in st.threads && user !in st.guardCache
    ensures Apply(st, GuardRead(tid, user)) == st.(threads := st.threads[tid := GuardAsked(user)])
  {
  }

  lemma GuardReadsTable(st: State, s1: State, tid: nat, user: string, ref: string, at: nat)
    requires tid !in st.threads && s1 == st.(threads := st.threads[tid := GuardAsked(user)])
    ensures Apply(Apply(s1, GuardSelect(tid, ref, at)), GuardFill(tid)) ==
            if (user, ref) !in st.table then st
            else
              var e := BindingEntry(st.table[(user, ref)].cipher, ref, at);
              st.(guardCache := st.guardCache[user := e], attached := Carrying(st, user, e))
  {
    assert s1.threads - {tid} == st.threads;
    assert st.attached + [] == st.attached;
    if (user, ref) in st.table {
      var t := GuardMissed(user, BindingEntry(st.table[(user, ref)].cipher, ref, at));
      assert st.threads[tid := GuardAsked(user)][tid := t] - {tid} == st.threads;
    }
  }

  lemma GuardHit(st: State, tid: nat, user: string)
    requires tid !in st.threads && user in st.guardCache
    ensures Apply(st, GuardRead(tid, user)) == st.(attached := Carrying(st, user, st.guardCache[user]))
  {
    assert st.attached + [] == st.attached;
  }

  /** An undisturbed guard read serves what the guard serves: the cached entry, else the row, then cached. */
  lemma GuardStepsAreGuard(cfg: MC.Config, st: State, sys: S.System, tid: nat, user: string, ref: string, at: nat)
    requires SameTables(st, sys) && tid !in st.threads
    requires var cached := MC.Get(cfg, sys.cache, Encode(BoundKey(user)), at).1;
             && (cached.Some? && cached.value.Binding? <==> user in st.guardCache)
             && (user in st.guardCache ==> cached == Some(Binding(st.guardCache[user])))
    ensures var (sys', served) := S.ResolveBinding(cfg, sys, user, ref, at);
            var st' := if user in st.guardCache then Apply(st, GuardRead(tid, user))
                       else Run(st, [GuardRead(tid, user), GuardSelect(tid, ref, at), GuardFill(tid)]);
            && SameTables(st', sys') && st'.threads == st.threads
            && (served.None? ==> st' == st)
            && (served.Some? ==>
                  && user in st'.guardCache && st'.guardCache[user].ref == served.value.ref
                  && st'.guardCache[user].cipher == served.value.cipher
                  && st'.attached == Carrying(st, user, served.value))
  {
    hide Run, Apply, MC.Get, MC.Set;
    if user in st.guardCache {
      GuardHit(st, tid, user);
    } else {
      GuardSteps(st, tid, user, ref, at);
      assert (user, ref) in st.table <==> (user, ref) in sys.table;
    }
  }
}
