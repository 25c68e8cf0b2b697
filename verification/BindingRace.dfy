/**
  Binds, registrations and guard reads interleaved at their await points. Each thread is one
  request; between two of its steps any other thread may run, cached bindings may expire and
  requests may die. `Apply` leaves the state alone when an action is not possible.
 */
module BindingRace {
  import opened Prelude
  import opened BindingData
  import opened CustomerService

  /** A row with status `verified`; no step of these flows gives a row any other status. */
  datatype Row = Row(cipher: Option<Cipher>)

  /** What gives a request the right to a binding. */
  datatype Origin = BySecret | ByCreation(phone: string)

  datatype Thread =
    | VerifyPassed(user: string, ref: string)
    | NobodyThere(user: string, phone: string)                                  // register, after re-resolve
    | Selected(user: string, entry: BindingEntry, origin: Origin, existed: bool)  // upsert, after its select
    | Written(user: string, entry: BindingEntry)                                // row written, cache not warmed
    | GuardAsked(user: string)                                                  // guard missed the cache
    | GuardMissed(user: string, entry: BindingEntry)                            // guard read the table

  /** The guard put this customer id on a request of the user. */
  datatype Attachment = Attachment(user: string, ref: string, customerId: string)

  datatype State = State(
    customers: Customers,
    table: map<(string, string), Row>,
    guardCache: map<string, BindingEntry>,
    threads: map<nat, Thread>,
    attached: seq<Attachment>,
    selfRegistrations: seq<string>,          // normalised phones, in order of writing
    proven: map<(string, string), string>)   // (user, ref) verified or created, with the customer id

  datatype Action =
    | VerifyTrue(tid: nat, user: string, ref: string)
    | SelectRow(tid: nat, nonce: nat, at: nat)
    | ReResolve(tid: nat, user: string, phone: string)
    | CreateCustomer(tid: nat, nonce: nat, at: nat)
    | WriteRow(tid: nat)
    | WarmCache(tid: nat)
    | GuardRead(tid: nat, user: string)
    | GuardSelect(tid: nat, ref: string, at: nat)    // `ref`: the row the query returns, if any
    | GuardFill(tid: nat)
    | ExpireCached(user: string)
    | Die(tid: nat)

  /** The profile lookup of a seed customer. */
  function SeedId(seeds: seq<Customer>, ref: string): Option<string>
  {
    if seeds == [] then None else if seeds[0].ref == ref then Some(seeds[0].customerId) else SeedId(seeds[1..], ref)
  }

  function Attach(st: State, user: string, e: BindingEntry): State
  {
    match DecryptIfNeeded(e.cipher)
    case None => st  // integrity error: nothing is attached
    case Some(cid) => st.(attached := st.attached + [Attachment(user, e.ref, cid)])
  }

  function DoVerifyTrue(st: State, tid: nat, user: string, ref: string): State
  {
    var cid := SeedId(st.customers.seeds, ref);
    if tid in st.threads || cid.None? then st
    else st.(threads := st.threads[tid := VerifyPassed(user, ref)], proven := st.proven[(user, ref) := cid.value])
  }

  function DoSelectRow(st: State, tid: nat, nonce: nat, at: nat): State
  {
    if tid !in st.threads || !st.threads[tid].VerifyPassed? then st else
      var t := st.threads[tid];
      var cid := SeedId(st.customers.seeds, t.ref);
      if cid.None? then DoDie(st, tid) else
        var e := BindingEntry(EncryptIfNeeded(cid.value, nonce), t.ref, at);
        st.(threads := st.threads[tid := Selected(t.user, e, BySecret, (t.user, t.ref) in st.table)])
  }

  function DoReResolve(st: State, tid: nat, user: string, phone: string): State
  {
    if tid in st.threads || Resolve(st.customers, phone).status != Nobody then st
    else st.(threads := st.threads[tid := NobodyThere(user, phone)])
  }

  function DoCreate(st: State, tid: nat, nonce: nat, at: nat): State
  {
    if tid !in st.threads || !st.threads[tid].NobodyThere? then st else
      var t := st.threads[tid];
      var (customers, made) := Create(st.customers, t.phone);
      if made.None? then DoDie(st, tid) else
        var e := BindingEntry(EncryptIfNeeded(made.value.customerId, nonce), made.value.ref, at);
        st.(customers := customers,
            proven := st.proven[(t.user, e.ref) := made.value.customerId],
            threads := st.threads[tid := Selected(t.user, e, ByCreation(made.value.phone),
                                                  (t.user, e.ref) in st.table)])
  }

  /** The insert of a row that appeared since the select violates the unique index. */
  function DoWriteRow(st: State, tid: nat): State
  {
    if tid !in st.threads || !st.threads[tid].Selected? then st else
      var t := st.threads[tid];
      if !t.existed && (t.user, t.entry.ref) in st.table then DoDie(st, tid)
      else
        st.(table := st.table[(t.user, t.entry.ref) := Row(t.entry.cipher)],
            threads := st.threads[tid := Written(t.user, t.entry)],
            selfRegistrations := st.selfRegistrations + if t.origin.ByCreation? then [t.origin.phone] else [])
  }

  function DoWarmCache(st: State, tid: nat): State
  {
    if tid !in st.threads || !st.threads[tid].Written? then st else
      var t := st.threads[tid];
      st.(guardCache := st.guardCache[t.user := t.entry], threads := st.threads - {tid})
  }

  /** The cache read: a hit is attached at once, a miss goes on to the table. */
  function DoGuardRead(st: State, tid: nat, user: string): State
  {
    if tid in st.threads then st
    else if user in st.guardCache then Attach(st, user, st.guardCache[user])
    else st.(threads := st.threads[tid := GuardAsked(user)])
  }

  /** The table query, whatever has become of the cache meanwhile. */
  function DoGuardSelect(st: State, tid: nat, ref: string, at: nat): State
  {
    if tid !in st.threads || !st.threads[tid].GuardAsked? then st else
      var user := st.threads[tid].user;
      if (user, ref) !in st.table then DoDie(st, tid)
      else st.(threads := st.threads[tid := GuardMissed(user, BindingEntry(st.table[(user, ref)].cipher, ref, at))])
  }

  function DoGuardFill(st: State, tid: nat): State
  {
    if tid !in st.threads || !st.threads[tid].GuardMissed? then st else
      var t := st.threads[tid];
      Attach(st.(guardCache := st.guardCache[t.user := t.entry], threads := st.threads - {tid}), t.user, t.entry)
  }

  function DoDie(st: State, tid: nat): State
  {
    st.(threads := st.threads - {tid})
  }

  function DoExpire(st: State, user: string): State
  {
    st.(guardCache := st.guardCache - {user})
  }

  function Apply(st: State, a: Action): State
  {
    match a
    case VerifyTrue(tid, user, ref) => DoVerifyTrue(st, tid, user, ref)
    case SelectRow(tid, nonce, at) => DoSelectRow(st, tid, nonce, at)
    case ReResolve(tid, user, phone) => DoReResolve(st, tid, user, phone)
    case CreateCustomer(tid, nonce, at) => DoCreate(st, tid, nonce, at)
    case WriteRow(tid) => DoWriteRow(st, tid)
    case WarmCache(tid) => DoWarmCache(st, tid)
    case GuardRead(tid, user) => DoGuardRead(st, tid, user)
    case GuardSelect(tid, ref, at) => DoGuardSelect(st, tid, ref, at)
    case GuardFill(tid) => DoGuardFill(st, tid)
    case ExpireCached(user) => DoExpire(st, user)
    case Die(tid) => DoDie(st, tid)
  }

  function Run(st: State, acts: seq<Action>): State
    decreases |acts|
  {
    if acts == [] then st else Run(Apply(st, acts[0]), acts[1..])
  }

  // ---- Invariants ----

  /** The entry seals the customer id that the user proved for this reference. */
  ghost predicate SealsProven(st: State, user: string, ref: string, cipher: Option<Cipher>)
  {
    && (user, ref) in st.proven
    && DecryptIfNeeded(cipher) == if st.proven[(user, ref)] == "" then None else Some(st.proven[(user, ref)])
  }

  /** ... and the user has a row for it. */
  ghost predicate Backed(st: State, user: string, e: BindingEntry)
  {
    && SealsProven(st, user, e.ref, e.cipher)
    && (user, e.ref) in st.table
  }

  ghost predicate RowsSealed(st: State)
  {
    forall k :: k in st.table ==> SealsProven(st, k.0, k.1, st.table[k].cipher)
  }

  ghost predicate CacheBacked(st: State)
  {
    forall u :: u in st.guardCache ==> Backed(st, u, st.guardCache[u])
  }

  ghost predicate ThreadOk(st: State, t: Thread)
  {
    match t
    case VerifyPassed(u, r) =>
      (u, r) in st.proven && SeedId(st.customers.seeds, r) == Some(st.proven[(u, r)])
    case NobodyThere(_, _) => true
    case Selected(u, e, _, _) => SealsProven(st, u, e.ref, e.cipher)
    case Written(u, e) => Backed(st, u, e)
    case GuardAsked(_) => true
    case GuardMissed(u, e) => Backed(st, u, e)
  }

  ghost predicate ThreadsOk(st: State)
  {
    forall i :: i in st.threads ==> ThreadOk(st, st.threads[i])
  }

  ghost predicate AttachedOk(st: State)
  {
    forall i :: 0 <= i < |st.attached| ==>
      var x := st.attached[i]; (x.user, x.ref) in st.proven && st.proven[(x.user, x.ref)] == x.customerId
  }

  /** Proven references are seeds' or issued ones, each with its one customer id. */
  ghost predicate Issued(cs: Customers, ref: string, cid: string)
  {
    SeedId(cs.seeds, ref) == Some(cid) || exists n: nat :: n <= cs.counter && ref == NewRef(n) && cid == NewId(n)
  }

  ghost predicate ProvenOk(st: State)
  {
    forall k :: k in st.proven ==> Issued(st.customers, k.1, st.proven[k])
  }

  /** Seed references do not carry the prefix of issued ones. */
  predicate NoIssuedPrefix(seeds: seq<Customer>)
  {
    forall i :: 0 <= i < |seeds| ==> !("REF-NEW-" <= seeds[i].ref)
  }

  ghost predicate SeedsApart(seeds: seq<Customer>)
  {
    forall n: nat :: SeedId(seeds, NewRef(n)).None?
  }

  /** The registrations under way or done, one per phone, each behind a created customer. */
  ghost predicate Claims(st: State, i: nat, phone: string)
  {
    i in st.threads && st.threads[i].Selected? && st.threads[i].origin == ByCreation(phone)
  }

  ghost predicate RegistrationsOk(st: State, start: Customers)
  {
    && (forall i, p :: Claims(st, i, p) ==>
          p in st.customers.created && !PhoneTaken(start, p) && p !in st.selfRegistrations)
    && (forall i, j, p :: Claims(st, i, p) && Claims(st, j, p) ==> i == j)
    && (forall p :: p in st.selfRegistrations ==> p in st.customers.created && !PhoneTaken(start, p))
    && (forall a, b :: 0 <= a < b < |st.selfRegistrations| ==> st.selfRegistrations[a] != st.selfRegistrations[b])
    && (forall p :: PhoneTaken(start, p) ==> PhoneTaken(st.customers, p))
  }

  ghost predicate GuardInv(st: State)
  {
    && RowsSealed(st) && CacheBacked(st) && ThreadsOk(st) && AttachedOk(st) && ProvenOk(st)
    && SeedsApart(st.customers.seeds)
  }

  lemma {:induction false} PrefixKeepsSeedsApart(seeds: seq<Customer>, n: nat)
    requires NoIssuedPrefix(seeds)
    ensures SeedId(seeds, NewRef(n)).None?
  {
    if seeds != [] {
      assert "REF-NEW-" <= NewRef(n);
      PrefixKeepsSeedsApart(seeds[1..], n);
    }
  }

  // ---- Preservation ----

  /** A freshly issued reference was never proven before. */
  lemma FreshRefUnproven(st: State, user: string)
    requires ProvenOk(st) && SeedsApart(st.customers.seeds)
    ensures (user, NewRef(st.customers.counter + 1)) !in st.proven
  {
    var ref := NewRef(st.customers.counter + 1);
    if (user, ref) in st.proven {
      assert Issued(st.customers, (user, ref).1, st.proven[(user, ref)]);
      var n: nat :| n <= st.customers.counter && ref == NewRef(n);
      NewRefsAreDistinct(n, st.customers.counter + 1);
    }
  }

  // What a step may change: the threads, the proofs, one row, one cached binding, one attachment.

  lemma ThreadsMayChange(st: State, st': State)
    requires GuardInv(st) && st' == st.(threads := st'.threads, selfRegistrations := st'.selfRegistrations)
    requires forall i :: i in st'.threads ==> ThreadOk(st, st'.threads[i])
    ensures GuardInv(st')
  {
    forall i | i in st'.threads ensures ThreadOk(st', st'.threads[i]) {
      assert ThreadOk(st, st'.threads[i]);
    }
  }

  /** A proof may be added if it names the customer of its reference. */
  lemma ProofMayBeAdded(st: State, customers: Customers, k: (string, string), cid: string)
    requires GuardInv(st) && customers.seeds == st.customers.seeds && st.customers.counter <= customers.counter
    requires (k in st.proven ==> st.proven[k] == cid) && Issued(customers, k.1, cid)
    ensures GuardInv(st.(customers := customers, proven := st.proven[k := cid]))
  {
    var st' := st.(customers := customers, proven := st.proven[k := cid]);
    forall i | i in st'.threads ensures ThreadOk(st', st'.threads[i]) {
      assert ThreadOk(st, st.threads[i]);
    }
  }

  /** A row may be written if it seals what its user proved. */
  lemma RowMayBeWritten(st: State, user: string, e: BindingEntry)
    requires GuardInv(st) && SealsProven(st, user, e.ref, e.cipher)
    ensures GuardInv(st.(table := st.table[(user, e.ref) := Row(e.cipher)]))
  {
    var st' := st.(table := st.table[(user, e.ref) := Row(e.cipher)]);
    forall i | i in st'.threads ensures ThreadOk(st', st'.threads[i]) {
      assert ThreadOk(st, st.threads[i]);
    }
  }

  /** What the guard attaches from an entry that seals a proof is proven. */
  lemma EntryMayBeAttached(st: State, user: string, e: BindingEntry)
    requires GuardInv(st) && SealsProven(st, user, e.ref, e.cipher)
    ensures GuardInv(Attach(st, user, e))
  {
    var st' := Attach(st, user, e);
    forall i | i in st'.threads ensures ThreadOk(st', st'.threads[i]) {
      assert ThreadOk(st, st.threads[i]);
    }
  }

  /** A second proof of a seed reference names the same customer. */
  lemma SeedProofIsStable(st: State, user: string, ref: string)
    requires ProvenOk(st) && SeedsApart(st.customers.seeds)
    requires SeedId(st.customers.seeds, ref).Some? && (user, ref) in st.proven
    ensures st.proven[(user, ref)] == SeedId(st.customers.seeds, ref).value
  {
    assert Issued(st.customers, (user, ref).1, st.proven[(user, ref)]);
  }

  lemma VerifyKeepsGuardInv(st: State, tid: nat, user: string, ref: string)
    requires GuardInv(st)
    ensures GuardInv(DoVerifyTrue(st, tid, user, ref))
  {
    var cid := SeedId(st.customers.seeds, ref);
    if tid !in st.threads && cid.Some? {
      if (user, ref) in st.proven {
        SeedProofIsStable(st, user, ref);
      }
      ProofMayBeAdded(st, st.customers, (user, ref), cid.value);
      ThreadsMayChange(st.(proven := st.proven[(user, ref) := cid.value]), DoVerifyTrue(st, tid, user, ref));
    }
  }

  lemma CreateKeepsGuardInv(st: State, tid: nat, nonce: nat, at: nat)
    requires GuardInv(st)
    ensures GuardInv(DoCreate(st, tid, nonce, at))
  {
    if tid in st.threads && st.threads[tid].NobodyThere? {
      var t := st.threads[tid];
      var (customers, made) := Create(st.customers, t.phone);
      if made.None? {
        DieKeepsGuardInv(st, tid);
      } else {
        FreshRefUnproven(st, t.user);
        var k, cid := (t.user, made.value.ref), made.value.customerId;
        ProofMayBeAdded(st, customers, k, cid);
        ThreadsMayChange(st.(customers := customers, proven := st.proven[k := cid]), DoCreate(st, tid, nonce, at));
      }
    }
  }

  lemma SelectKeepsGuardInv(st: State, tid: nat, nonce: nat, at: nat)
    requires GuardInv(st)
    ensures GuardInv(DoSelectRow(st, tid, nonce, at))
  {
    ThreadsMayChange(st, DoSelectRow(st, tid, nonce, at));
  }

  lemma WriteKeepsGuardInv(st: State, tid: nat)
    requires GuardInv(st)
    ensures GuardInv(DoWriteRow(st, tid))
  {
    if tid in st.threads && st.threads[tid].Selected? {
      var t := st.threads[tid];
      assert ThreadOk(st, t);
      if !t.existed && (t.user, t.entry.ref) in st.table {
        DieKeepsGuardInv(st, tid);
      } else {
        RowMayBeWritten(st, t.user, t.entry);
        var written := st.(table := st.table[(t.user, t.entry.ref) := Row(t.entry.cipher)]);
        ThreadsMayChange(written, DoWriteRow(st, tid));
      }
    }
  }

  /** A backed entry may be cached, by a thread that ends with it. */
  lemma WarmedKeepsGuardInv(st: State, tid: nat, user: string, e: BindingEntry)
    requires GuardInv(st) && Backed(st, user, e)
    ensures GuardInv(st.(guardCache := st.guardCache[user := e], threads := st.threads - {tid}))
  {
    ThreadsMayChange(st, DoDie(st, tid));
  }

  lemma WarmKeepsGuardInv(st: State, tid: nat)
    requires GuardInv(st)
    ensures GuardInv(DoWarmCache(st, tid))
  {
    if tid in st.threads && st.threads[tid].Written? {
      assert ThreadOk(st, st.threads[tid]);
      WarmedKeepsGuardInv(st, tid, st.threads[tid].user, st.threads[tid].entry);
    }
  }

  lemma GuardFillKeepsGuardInv(st: State, tid: nat)
    requires GuardInv(st)
    ensures GuardInv(DoGuardFill(st, tid))
  {
    if tid in st.threads && st.threads[tid].GuardMissed? {
      var t := st.threads[tid];
      assert ThreadOk(st, t);
      WarmedKeepsGuardInv(st, tid, t.user, t.entry);
      var warmed := st.(guardCache := st.guardCache[t.user := t.entry], threads := st.threads - {tid});
      EntryMayBeAttached(warmed, t.user, t.entry);
    }
  }

  lemma GuardSelectKeepsGuardInv(st: State, tid: nat, ref: string, at: nat)
    requires GuardInv(st)
    ensures GuardInv(DoGuardSelect(st, tid, ref, at))
  {
    if tid in st.threads && st.threads[tid].GuardAsked? && (st.threads[tid].user, ref) in st.table {
      var k := (st.threads[tid].user, ref);
      assert SealsProven(st, k.0, k.1, st.table[k].cipher);
    }
    ThreadsMayChange(st, DoGuardSelect(st, tid, ref, at));
  }

  lemma GuardReadKeepsGuardInv(st: State, tid: nat, user: string)
    requires GuardInv(st)
    ensures GuardInv(DoGuardRead(st, tid, user))
  {
    if tid !in st.threads && user in st.guardCache {
      assert Backed(st, user, st.guardCache[user]);
      EntryMayBeAttached(st, user, st.guardCache[user]);
    } else {
      ThreadsMayChange(st, DoGuardRead(st, tid, user));
    }
  }

  lemma ReResolveKeepsGuardInv(st: State, tid: nat, user: string, phone: string)
    requires GuardInv(st)
    ensures GuardInv(DoReResolve(st, tid, user, phone))
  {
    ThreadsMayChange(st, DoReResolve(st, tid, user, phone));
  }

  lemma DieKeepsGuardInv(st: State, tid: nat)
    requires GuardInv(st)
    ensures GuardInv(DoDie(st, tid))
  {
    ThreadsMayChange(st, DoDie(st, tid));
  }

  lemma ExpireKeepsGuardInv(st: State, user: string)
    requires GuardInv(st)
    ensures GuardInv(DoExpire(st, user))
  {
  }

  lemma {:induction false} RunKeepsGuardInv(st: State, acts: seq<Action>)
    requires GuardInv(st)
    ensures GuardInv(Run(st, acts))
    decreases |acts|
  {
    if acts != [] {
      StepKeepsGuardInv(st, acts[0]);
      RunKeepsGuardInv(Apply(st, acts[0]), acts[1..]);
    }
  }

  lemma StepKeepsGuardInv(st: State, a: Action)
    requires GuardInv(st)
    ensures GuardInv(Apply(st, a))
  {
    match a {
      case VerifyTrue(tid, user, ref) => VerifyKeepsGuardInv(st, tid, user, ref);
      case SelectRow(tid, nonce, at) => SelectKeepsGuardInv(st, tid, nonce, at);
      case CreateCustomer(tid, nonce, at) => CreateKeepsGuardInv(st, tid, nonce, at);
      case WriteRow(tid) => WriteKeepsGuardInv(st, tid);
      case WarmCache(tid) => WarmKeepsGuardInv(st, tid);
      case GuardFill(tid) => GuardFillKeepsGuardInv(st, tid);
      case GuardSelect(tid, ref, at) => GuardSelectKeepsGuardInv(st, tid, ref, at);
      case GuardRead(tid, user) => GuardReadKeepsGuardInv(st, tid, user);
      case ReResolve(tid, user, phone) => ReResolveKeepsGuardInv(st, tid, user, phone);
      case Die(tid) => DieKeepsGuardInv(st, tid);
      case ExpireCached(user) => ExpireKeepsGuardInv(st, user);
    }
  }

  /** Only a thread whose phone nobody holds becomes the claimant, and then it is the only one. */
  lemma CreateKeepsRegistrations(st: State, tid: nat, nonce: nat, at: nat, start: Customers)
    requires RegistrationsOk(st, start)
    requires tid in st.threads && st.threads[tid].NobodyThere?
    ensures RegistrationsOk(DoCreate(st, tid, nonce, at), start)
  {
    var st' := DoCreate(st, tid, nonce, at);
    var norm := NormalizePhone(st.threads[tid].phone);
    assert forall i, p :: Claims(st', i, p) ==>
        Claims(st, i, p) || (i == tid && p == norm && !PhoneTaken(st.customers, norm));
  }

  lemma WriteKeepsRegistrations(st: State, tid: nat, start: Customers)
    requires RegistrationsOk(st, start)
    requires tid in st.threads && st.threads[tid].Selected?
    ensures RegistrationsOk(DoWriteRow(st, tid), start)
  {
    var st' := DoWriteRow(st, tid);
    var t := st.threads[tid];
    assert forall i, p :: Claims(st', i, p) ==> Claims(st, i, p) && i != tid;
    if t.origin.ByCreation? {
      assert Claims(st, tid, t.origin.phone);
    }
  }

  lemma OthersKeepRegistrations(st: State, st': State, start: Customers)
    requires RegistrationsOk(st, start)
    requires st'.customers == st.customers && st'.selfRegistrations == st.selfRegistrations
    requires forall i, p :: Claims(st', i, p) ==> Claims(st, i, p)
    ensures RegistrationsOk(st', start)
  {
  }

  lemma StepKeepsRegistrations(st: State, a: Action, start: Customers)
    requires RegistrationsOk(st, start)
    ensures RegistrationsOk(Apply(st, a), start)
  {
    if a.CreateCustomer? && a.tid in st.threads && st.threads[a.tid].NobodyThere? {
      CreateKeepsRegistrations(st, a.tid, a.nonce, a.at, start);
    } else if a.WriteRow? && a.tid in st.threads && st.threads[a.tid].Selected? {
      WriteKeepsRegistrations(st, a.tid, start);
    } else {
      OthersKeepRegistrations(st, Apply(st, a), start);
    }
  }

  lemma {:induction false} RunKeepsRegistrations(st: State, acts: seq<Action>, start: Customers)
    requires RegistrationsOk(st, start)
    ensures RegistrationsOk(Run(st, acts), start)
    decreases |acts|
  {
    if acts != [] {
      StepKeepsRegistrations(st, acts[0], start);
      RunKeepsRegistrations(Apply(st, acts[0]), acts[1..], start);
    }
  }

  // ---- Theorems ----

  function Fresh(customers: Customers): State
  {
    State(customers, map[], map[], map[], [], [], map[])
  }

  /**
    Guard agreement, over every interleaving: a cached binding is backed by the user's verified row
    for the same reference, both open to the customer id the user proved, and every id the guard
    ever attached was proven by that user, by secret or by creation.
   */
  lemma GuardAgreesWithTable(customers: Customers, acts: seq<Action>)
    requires NoIssuedPrefix(customers.seeds)
    ensures var st := Run(Fresh(customers), acts);
            && (forall u :: u in st.guardCache ==>
                  var e := st.guardCache[u];
                  && (u, e.ref) in st.table
                  && DecryptIfNeeded(st.table[(u, e.ref)].cipher) == DecryptIfNeeded(e.cipher))
            && (forall i :: 0 <= i < |st.attached| ==>
                  var x := st.attached[i];
                  && (x.user, x.ref) in st.proven && st.proven[(x.user, x.ref)] == x.customerId
                  && Issued(st.customers, x.ref, x.customerId))
  {
    forall n: nat ensures SeedId(customers.seeds, NewRef(n)).None? {
      PrefixKeepsSeedsApart(customers.seeds, n);
    }
    RunKeepsGuardInv(Fresh(customers), acts);
    var st := Run(Fresh(customers), acts);
    forall u | u in st.guardCache
      ensures var e := st.guardCache[u];
              && (u, e.ref) in st.table
              && DecryptIfNeeded(st.table[(u, e.ref)].cipher) == DecryptIfNeeded(e.cipher)
    {
      var k := (u, st.guardCache[u].ref);
      assert Backed(st, u, st.guardCache[u]);
      assert SealsProven(st, k.0, k.1, st.table[k].cipher);
    }
    forall i | 0 <= i < |st.attached| ensures Issued(st.customers, st.attached[i].ref, st.attached[i].customerId) {
      assert (st.attached[i].user, st.attached[i].ref) in st.proven;
    }
  }

  /**
    The register race: however many registrations of one phone interleave, at most one writes a
    binding, and none does if the phone already had a customer.
   */
  lemma AtMostOneRegistrationPerPhone(customers: Customers, acts: seq<Action>)
    ensures var st := Run(Fresh(customers), acts);
            && (forall a, b :: 0 <= a < b < |st.selfRegistrations| ==>
                  st.selfRegistrations[a] != st.selfRegistrations[b])
            && (forall p :: PhoneTaken(customers, p) ==> p !in st.selfRegistrations)
  {
    RunKeepsRegistrations(Fresh(customers), acts, customers);
  }

  /** A registered phone resolves to somebody ever after. */
  lemma RegisteredPhoneStaysResolvable(customers: Customers, acts: seq<Action>, more: seq<Action>, phone: string)
    requires var st := Run(Fresh(customers), acts);
             NormalizePhone(phone) in st.selfRegistrations || Resolve(st.customers, phone).status != Nobody
    ensures Resolve(Run(Run(Fresh(customers), acts), more).customers, phone).status != Nobody
  {
    RunKeepsRegistrations(Fresh(customers), acts, customers);
    var st := Run(Fresh(customers), acts);
    NobodyIffCreatable(st.customers, phone);
    TakenStaysTaken(st, more, NormalizePhone(phone));
    NobodyIffCreatable(Run(st, more).customers, phone);
  }

  lemma {:induction false} TakenStaysTaken(st: State, acts: seq<Action>, norm: string)
    requires PhoneTaken(st.customers, norm)
    ensures PhoneTaken(Run(st, acts).customers, norm)
    decreases |acts|
  {
    if acts != [] {
      TakenStaysTaken(Apply(st, acts[0]), acts[1..], norm);
    }
  }
}
