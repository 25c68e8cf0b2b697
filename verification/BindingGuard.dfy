/**
  What the guard serves, over whole serialised runs on the shared cache, evictions and lost answers
  included: a binding of the user's own, and behind it a secret that was confirmed or a customer that
  was created.
 */
module BindingGuard {
  import opened Prelude
  import opened MemoryCache
  import opened BindingKeys
  import opened BindingData
  import opened RateLimiter
  import opened BindingService
  import opened KeyLosses
  import opened BindingProvenance
  import CS = CustomerService

  /** The entry says of the user what the table says. */
  predicate MatchesRow(entry: BindingEntry, table: Table, user: string)
  {
    && (user, entry.ref) in table
    && table[(user, entry.ref)].cipher == entry.cipher && table[(user, entry.ref)].verifiedAt == entry.verifiedAt
  }

  ghost predicate BoundOk(e: Option<Entry<Value>>, table: Table, user: string)
  {
    e.Some? ==> e.value.value.Binding? && MatchesRow(e.value.value.entry, table, user)
  }

  ghost predicate GuardOk(cfg: Config, sys: System, user: string)
  {
    BoundOk(EntryOf(cfg, sys.cache, BoundKey(user)), sys.table, user)
  }

  /** Losing the cached entry, or keeping it beside an untouched row, is harmless. */
  lemma LossKeepsGuard(cfg: Config, sys: System, sys': System, user: string)
    requires GuardOk(cfg, sys, user)
    requires KeptOrLost(sys.cache, sys'.cache, FullKey(cfg, Encode(BoundKey(user))))
    requires forall ref :: (user, ref) in sys.table ==>
               (user, ref) in sys'.table && sys'.table[(user, ref)] == sys.table[(user, ref)]
    ensures GuardOk(cfg, sys', user)
  {
  }

  /** The user's row may have been written although the table reported a failure. */
  predicate LosesAnswer(call: Call, user: string)
  {
    match call
    case BindCall(binder, _, _, _, Confirmed(_, _, AnswerLost), _, _) => binder == user
    case RegisterCall(binder, _, _, _, AnswerLost, _) => binder == user
    case _ => false
  }

  lemma BindKeepsGuard(cfg: Config, sys: System, call: Call, user: string)
    requires call.BindCall? && call.user == user && ':' !in user
    requires !LosesAnswer(call, user) && GuardOk(cfg, sys, user)
    ensures GuardOk(cfg, Step(cfg, sys, call), user)
  {
    var BindCall(_, session, ref, factor, verdict, asked, now) := call;
    var (sys1, refused) := AskBind(cfg, sys, user, session, ref, asked);
    AskBindLoses(cfg, sys, user, session, ref, asked, FullKey(cfg, Encode(BoundKey(user))));
    if refused.None? && !Binds(verdict) {
      SettleLoses(cfg, sys1, user, session, ref, factor, verdict, asked, now, BoundKey(user));
    }
  }

  /** Unless the table loses an answer, every call keeps a cached binding equal to the user's row. */
  lemma StepKeepsGuard(cfg: Config, sys: System, call: Call, user: string)
    requires Proper(call) && ':' !in user && !LosesAnswer(call, user) && GuardOk(cfg, sys, user)
    ensures GuardOk(cfg, Step(cfg, sys, call), user)
  {
    if call.BindCall? && call.user == user {
      BindKeepsGuard(cfg, sys, call, user);
    } else if !Concerns(call, BoundKey(user)) {
      StepLoses(cfg, sys, call, BoundKey(user));
      LossKeepsGuard(cfg, sys, Step(cfg, sys, call), user);
    }
  }

  predicate NoLostAnswers(calls: seq<Call>, user: string)
  {
    forall i :: 0 <= i < |calls| ==> !LosesAnswer(calls[i], user)
  }

  lemma {:induction false} RunKeepsGuard(cfg: Config, sys: System, calls: seq<Call>, clock: nat, user: string)
    requires Legal(clock, calls) && ':' !in user && NoLostAnswers(calls, user) && GuardOk(cfg, sys, user)
    ensures GuardOk(cfg, Exec(cfg, sys, calls), user)
    decreases |calls|
  {
    hide Step;
    if calls != [] {
      StepKeepsGuard(cfg, sys, calls[0], user);
      RunKeepsGuard(cfg, Step(cfg, sys, calls[0]), calls[1..], EndOf(calls[0]), user);
    }
  }

  // ---- Behind every row and every cached binding stands a proof of identity ----

  /** This call, run on this system, proved the binding: its secret was confirmed, or it created the customer. */
  predicate Grants(cfg: Config, sys: System, call: Call, user: string, e: BindingEntry)
  {
    match call
    case BindCall(binder, session, ref, factor, verdict, asked, now) =>
      && binder == user && ref == e.ref && verdict.Confirmed? && !verdict.upsert.NotDone?
      && AskBind(cfg, sys, binder, session, ref, asked).1.None?
      && DecryptIfNeeded(e.cipher) == (if verdict.customerId == "" then None else Some(verdict.customerId))
      && e.verifiedAt == now
    case RegisterCall(binder, session, phone, nonce, upsert, now) =>
      && binder == user && HasPhone(phone) && !upsert.NotDone?
      && CS.Resolve(sys.customers, phone.value).status == CS.Nobody
      && var made := CS.Create(sys.customers, phone.value).1;
      && made.Some? && made.value.ref == e.ref && DecryptIfNeeded(e.cipher) == Some(made.value.customerId)
      && e.verifiedAt == now
    case _ => false
  }

  function FactorOf(call: Call): string
  {
    if call.BindCall? then call.factor else "self_registration"
  }

  function EntryOfRow(ref: string, row: Row): BindingEntry
  {
    BindingEntry(row.cipher, ref, row.verifiedAt)
  }

  /** Call n of the run granted the binding. */
  ghost predicate GrantedAt(cfg: Config, sys: System, calls: seq<Call>, n: nat, user: string, e: BindingEntry)
  {
    n < |calls| && Grants(cfg, Exec(cfg, sys, calls[..n]), calls[n], user, e)
  }

  lemma StepRow(cfg: Config, sys: System, call: Call, user: string, ref: string)
    requires (user, ref) in Step(cfg, sys, call).table
    ensures var row := Step(cfg, sys, call).table[(user, ref)];
            || ((user, ref) in sys.table && sys.table[(user, ref)] == row)
            || (Grants(cfg, sys, call, user, EntryOfRow(ref, row)) && row.factor == FactorOf(call))
  {
    hide RecordFailure, CheckLocked, Set, Get, Delete, CS.Resolve, CS.NormalizePhone;
  }

  lemma GrantEarlier(cfg: Config, sys: System, calls: seq<Call>, n: nat, user: string, e: BindingEntry)
    requires calls != [] && GrantedAt(cfg, sys, calls[..|calls| - 1], n, user, e)
    ensures GrantedAt(cfg, sys, calls, n, user, e) && calls[n] == calls[..|calls| - 1][n]
  {
    assert calls[..|calls| - 1][..n] == calls[..n];
  }

  /** The system before the last call, and the last call. */
  lemma LastStep(cfg: Config, sys: System, calls: seq<Call>)
    requires calls != []
    ensures var m := |calls| - 1;
            Exec(cfg, sys, calls) == Step(cfg, Exec(cfg, sys, calls[..m]), calls[m])
  {
    var m := |calls| - 1;
    assert calls == calls[..m] + [calls[m]];
    ExecAppend(cfg, sys, calls[..m], calls[m]);
  }

  lemma {:induction false} RowHasGrant(cfg: Config, sys: System, calls: seq<Call>, user: string, ref: string)
    returns (n: nat)
    requires sys.table == map[] && (user, ref) in Exec(cfg, sys, calls).table
    ensures var row := Exec(cfg, sys, calls).table[(user, ref)];
            GrantedAt(cfg, sys, calls, n, user, EntryOfRow(ref, row)) && row.factor == FactorOf(calls[n])
    decreases |calls|
  {
    hide Step;
    assert calls != [];
    n := |calls| - 1;
    var before := Exec(cfg, sys, calls[..n]);
    var row := Exec(cfg, sys, calls).table[(user, ref)];
    LastStep(cfg, sys, calls);
    StepRow(cfg, before, calls[n], user, ref);
    if !(Grants(cfg, before, calls[n], user, EntryOfRow(ref, row)) && row.factor == FactorOf(calls[n])) {
      n := RowHasGrant(cfg, sys, calls[..n], user, ref);
      GrantEarlier(cfg, sys, calls, n, user, EntryOfRow(ref, row));
    }
  }

  /** A cached binding after a call: the one before, one the call granted, or one read from a row. */
  lemma StepEntry(cfg: Config, sys: System, call: Call, user: string)
    requires Proper(call) && ':' !in user && EntryOf(cfg, Step(cfg, sys, call).cache, BoundKey(user)).Some?
    ensures var after := EntryOf(cfg, Step(cfg, sys, call).cache, BoundKey(user));
            || after == EntryOf(cfg, sys.cache, BoundKey(user))
            || (&& after.value.value.Binding?
                && var e := after.value.value.entry;
                && (user, e.ref) in Step(cfg, sys, call).table
                && (Grants(cfg, sys, call, user, e) || MatchesRow(e, sys.table, user)))
  {
    hide RecordFailure, CheckLocked, CS.Resolve, CS.NormalizePhone;
    if call.BindCall? && call.user == user {
      var BindCall(_, session, ref, factor, verdict, asked, now) := call;
      AskBindLoses(cfg, sys, user, session, ref, asked, FullKey(cfg, Encode(BoundKey(user))));
      if !Binds(verdict) {
        SettleLoses(cfg, AskBind(cfg, sys, user, session, ref, asked).0, user, session, ref, factor, verdict, asked,
                    now, BoundKey(user));
      }
    } else if !Concerns(call, BoundKey(user)) {
      StepLoses(cfg, sys, call, BoundKey(user));
    }
  }

  lemma RowsStay(cfg: Config, sys: System, call: Call, user: string, ref: string)
    requires (user, ref) in sys.table
    ensures (user, ref) in Step(cfg, sys, call).table
  {
  }

  ghost predicate AllProper(calls: seq<Call>)
  {
    forall i :: 0 <= i < |calls| ==> Proper(calls[i])
  }

  lemma {:induction false} LegalIsProper(clock: nat, calls: seq<Call>)
    requires Legal(clock, calls)
    ensures AllProper(calls)
    decreases |calls|
  {
    if calls != [] {
      LegalIsProper(EndOf(calls[0]), calls[1..]);
      assert forall i :: 1 <= i < |calls| ==> calls[i] == calls[1..][i - 1];
    }
  }

  /** A cached binding of the user: for one of his rows, and granted by call n. */
  ghost predicate CachedGrant(cfg: Config, sys: System, calls: seq<Call>, n: nat, user: string, v: Value, table: Table)
  {
    v.Binding? && (user, v.entry.ref) in table && GrantedAt(cfg, sys, calls, n, user, v.entry)
  }

  lemma KeptEntryGrant(cfg: Config, sys: System, calls: seq<Call>, n: nat, user: string, v: Value, before: System)
    requires calls != [] && before == Exec(cfg, sys, calls[..|calls| - 1])
    requires CachedGrant(cfg, sys, calls[..|calls| - 1], n, user, v, before.table)
    ensures CachedGrant(cfg, sys, calls, n, user, v, Step(cfg, before, calls[|calls| - 1]).table)
  {
    RowsStay(cfg, before, calls[|calls| - 1], user, v.entry.ref);
    GrantEarlier(cfg, sys, calls, n, user, v.entry);
  }

  lemma NewEntryGrant(cfg: Config, sys: System, calls: seq<Call>, user: string, v: Value, before: System, table: Table)
    returns (n: nat)
    requires calls != [] && before == Exec(cfg, sys, calls[..|calls| - 1]) && sys.table == map[]
    requires v.Binding? && (user, v.entry.ref) in table
    requires Grants(cfg, before, calls[|calls| - 1], user, v.entry) || MatchesRow(v.entry, before.table, user)
    ensures CachedGrant(cfg, sys, calls, n, user, v, table)
  {
    n := |calls| - 1;
    if !Grants(cfg, before, calls[n], user, v.entry) {
      n := RowHasGrant(cfg, sys, calls[..n], user, v.entry.ref);
      GrantEarlier(cfg, sys, calls, n, user, v.entry);
    }
  }

  lemma {:induction false} CachedHasGrant(cfg: Config, sys: System, calls: seq<Call>, user: string, after: System,
                                          e: Option<Entry<Value>>)
    returns (n: nat)
    requires AllProper(calls) && ':' !in user && sys.table == map[] && EntryOf(cfg, sys.cache, BoundKey(user)).None?
    requires after == Exec(cfg, sys, calls) && e == EntryOf(cfg, after.cache, BoundKey(user)) && e.Some?
    ensures CachedGrant(cfg, sys, calls, n, user, e.value.value, after.table)
    decreases |calls|
  {
    hide Step;
    assert calls != [];
    var m := |calls| - 1;
    var before := Exec(cfg, sys, calls[..m]);
    LastStep(cfg, sys, calls);
    StepEntry(cfg, before, calls[m], user);
    if e == EntryOf(cfg, before.cache, BoundKey(user)) {
      n := CachedHasGrant(cfg, sys, calls[..m], user, before, e);
      KeptEntryGrant(cfg, sys, calls, n, user, e.value.value, before);
    } else {
      n := NewEntryGrant(cfg, sys, calls, user, e.value.value, before, after.table);
    }
  }

  /**
    End to end: what the guard serves after any legal run, from the cache or from the table, is of a
    reference the user has a row for, and one of the run's calls was that user's confirmed bind or
    registration that proved it, with the customer id it decrypts to. It is the row itself if the table
    lost no answer about this user's rows. A user with a row is always served.
   */
  lemma GuardServesGrantedBinding(cfg: Config, seeds: seq<CS.Customer>, calls: seq<Call>, user: string, ref: string,
                                  now: nat)
    returns (n: nat)
    requires Legal(0, calls) && ':' !in user
    ensures var sys := Exec(cfg, FreshSystem(seeds), calls);
            var served := ResolveBinding(cfg, sys, user, ref, now).1;
            && ((user, ref) in sys.table ==> served.Some?)
            && (served.Some? ==>
                  && (user, served.value.ref) in sys.table
                  && GrantedAt(cfg, FreshSystem(seeds), calls, n, user, served.value)
                  && (NoLostAnswers(calls, user) ==> MatchesRow(served.value, sys.table, user)))
  {
    var start := FreshSystem(seeds);
    var sys := Exec(cfg, start, calls);
    LegalIsProper(0, calls);
    if NoLostAnswers(calls, user) {
      RunKeepsGuard(cfg, start, calls, 0, user);
    }
    n := 0;
    if EntryOf(cfg, sys.cache, BoundKey(user)).Some? {
      n := CachedHasGrant(cfg, start, calls, user, sys, EntryOf(cfg, sys.cache, BoundKey(user)));
    }
    if Get(cfg, sys.cache, Encode(BoundKey(user)), now).1.None? && (user, ref) in sys.table {
      n := RowHasGrant(cfg, start, calls, user, ref);
    }
  }
}
