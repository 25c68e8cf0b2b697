/**
  The transactional outbox: one table, any number of processors that may interleave at every
  database call, lose their process at any point, and restart.
 */
module Outbox {
  import opened Prelude
  import opened Query

  datatype Status = PENDING | PROCESSING | PROCESSED | FAILED

  datatype Record = Record(status: Status, retryCount: nat, createdAt: nat, processedAt: Option<nat>)

  type Table = map<string, Record>

  // ---- Table operations, each one SQL statement ----

  /** `add`: a primary-key violation leaves the table alone. */
  function Add(t: Table, id: string, now: nat): Table
  {
    if id in t then t else t[id := Record(PENDING, 0, now, None)]
  }

  /** The compare-and-set: only a pending row is taken. */
  function TryAcquire(t: Table, id: string): (Table, bool)
  {
    if id in t && t[id].status == PENDING then (t[id := t[id].(status := PROCESSING)], true) else (t, false)
  }

  function MarkProcessed(t: Table, id: string, now: nat): Table
  {
    if id in t then t[id := t[id].(status := PROCESSED, processedAt := Some(now))] else t
  }

  function MarkFailed(t: Table, id: string): Table
  {
    if id in t then t[id := t[id].(status := FAILED, retryCount := t[id].retryCount + 1)] else t
  }

  predicate Retryable(r: Record, maxRetries: nat)
  {
    r.status == FAILED && r.retryCount < maxRetries
  }

  function ResetForRetry(t: Table, maxRetries: nat): Table
  {
    map id | id in t :: if Retryable(t[id], maxRetries) then t[id].(status := PENDING) else t[id]
  }

  predicate Disposable(r: Record, olderThan: int)
  {
    r.status == PROCESSED && r.processedAt.Some? && r.processedAt.value <= olderThan
  }

  function DeleteProcessed(t: Table, olderThan: int): Table
  {
    map id | id in t && !Disposable(t[id], olderThan) :: t[id]
  }

  /** The pending rows with their creation times. */
  function PendingTimes(t: Table): map<string, nat>
  {
    map id | id in t && t[id].status == PENDING :: t[id].createdAt
  }

  // ---- What the statements mean for one another ----

  /** An acquired row is acquired by nobody else, and no other row's acquisition is affected. */
  lemma AcquiredOnlyOnce(t: Table, id: string, other: string)
    requires TryAcquire(t, id).1
    ensures !TryAcquire(TryAcquire(t, id).0, id).1
    ensures other != id ==> (TryAcquire(TryAcquire(t, id).0, other).1 <==> TryAcquire(t, other).1)
  {
  }

  /** A failed attempt and the reset bring a row back if and only if retries remain. */
  lemma FailureCycle(t: Table, id: string, maxRetries: nat)
    requires TryAcquire(t, id).1
    ensures var after := ResetForRetry(MarkFailed(TryAcquire(t, id).0, id), maxRetries);
            && id in after && after[id].retryCount == t[id].retryCount + 1
            && (TryAcquire(after, id).1 <==> t[id].retryCount + 1 < maxRetries)
            && (!TryAcquire(after, id).1 ==> ResetForRetry(after, maxRetries)[id] == after[id])
  {
  }

  /** The reset keeps every row, moves only failed rows below the limit, and is idempotent. */
  lemma ResetMovesOnlyRetryable(t: Table, maxRetries: nat, id: string)
    requires id in t
    ensures var after := ResetForRetry(t, maxRetries);
            && after.Keys == t.Keys
            && (after[id] != t[id] <==> Retryable(t[id], maxRetries))
            && after[id].retryCount == t[id].retryCount && after[id].createdAt == t[id].createdAt
            && ResetForRetry(after, maxRetries) == after
  {
  }

  /** The cleanup drops what was processed by then and nothing else, in one go or in several. */
  lemma CleanupComposes(t: Table, id: string, earlier: int, later: int, now: nat)
    requires earlier <= later
    ensures DeleteProcessed(DeleteProcessed(t, earlier), later) == DeleteProcessed(t, later)
    ensures id in t ==> (id !in DeleteProcessed(MarkProcessed(t, id, now), later) <==> now <= later)
    ensures id in t && t[id].status != PROCESSED ==> id in DeleteProcessed(t, later)
  {
  }

  /** A row survives the cleanup unless it was processed, and that by the given date. */
  lemma CleanupTakesOldProcessed(t: Table, id: string, olderThan: int)
    requires id in t
    ensures id in DeleteProcessed(t, olderThan) <==>
            !(t[id].status == PROCESSED && t[id].processedAt.Some? && t[id].processedAt.value <= olderThan)
    ensures id in DeleteProcessed(t, olderThan) ==> DeleteProcessed(t, olderThan)[id] == t[id]
  {
  }

  class OutboxRepository {
    var table: Table

    constructor ()
      ensures table == map[]
    {
      table := map[];
    }

    method AddEvent(id: string, now: nat)
      modifies this
      ensures table == Add(old(table), id, now)
    {
      if id !in table {
        table := table[id := Record(PENDING, 0, now, None)];
      }
    }

    method GetPending(limit: nat) returns (batch: seq<string>)
      ensures IsOldest(PendingTimes(table), limit, batch)
    {
      batch := SelectOldest(PendingTimes(table), limit);
    }

    method MarkAsProcessing(id: string) returns (acquired: bool)
      modifies this
      ensures (table, acquired) == TryAcquire(old(table), id)
    {
      acquired := id in table && table[id].status == PENDING;
      if acquired {
        table := table[id := table[id].(status := PROCESSING)];
      }
    }

    method MarkAsProcessed(id: string, now: nat)
      modifies this
      ensures table == MarkProcessed(old(table), id, now)
    {
      if id in table {
        table := table[id := table[id].(status := PROCESSED, processedAt := Some(now))];
      }
    }

    method MarkAsFailed(id: string)
      modifies this
      ensures table == MarkFailed(old(table), id)
    {
      if id in table {
        table := table[id := table[id].(status := FAILED, retryCount := table[id].retryCount + 1)];
      }
    }

    method Reset(maxRetries: nat)
      modifies this
      ensures table == ResetForRetry(old(table), maxRetries)
    {
      table := map id | id in table ::
                 if Retryable(table[id], maxRetries) then table[id].(status := PENDING) else table[id];
    }

    method DeleteOld(olderThan: int)
      modifies this
      ensures table == DeleteProcessed(old(table), olderThan)
    {
      table := map id | id in table && !Disposable(table[id], olderThan) :: table[id];
    }
  }

  // ---- One processor, undisturbed ----

  /** How handing over the event goes: `publish` returned, it threw, or the payload did not parse. */
  datatype Handover = Accepted | Rejected | Unparsable

  /** What the outside does to one entry: each database call, and the handing over. */
  datatype EntryFate = EntryFate(acquire: DbCall, handover: Handover, processed: DbCall, failed: DbCall)

  function After(call: DbCall, before: Table, after: Table): Table
  {
    if call.NotDone? then before else after
  }

  /** The error path: record the failure; `false` means that this threw, too. */
  function RecordFailure(t: Table, id: string, fate: EntryFate): (Table, bool)
  {
    (After(fate.failed, t, MarkFailed(t, id)), fate.failed.Done?)
  }

  /** One entry: acquire, publish, record. `false` means that an exception ends the batch. */
  function ProcessEntry(t: Table, id: string, fate: EntryFate, now: nat): (Table, bool)
  {
    var (t1, acquired) := TryAcquire(t, id);
    if !fate.acquire.Done? then (After(fate.acquire, t, t1), false)
    else if !acquired then (t, true)
    else if !fate.handover.Accepted? then RecordFailure(t1, id, fate)
    else
      var t2 := After(fate.processed, t1, MarkProcessed(t1, id, now));
      if fate.processed.Done? then (t2, true) else RecordFailure(t2, id, fate)
  }

  function ProcessAll(t: Table, batch: seq<string>, fates: string -> EntryFate, now: nat): (Table, bool)
    decreases |batch|
  {
    if batch == [] then (t, true) else
      var (t1, ok) := ProcessEntry(t, batch[0], fates(batch[0]), now);
      if ok then ProcessAll(t1, batch[1..], fates, now) else (t1, false)
  }

  /** The retry reset runs only after a non-empty batch that was not cut short. */
  function ProcessBatch(t: Table, batch: seq<string>, fates: string -> EntryFate, reset: DbCall, now: nat,
                        maxRetries: nat): Table
  {
    if batch == [] then t else
      var (t1, ok) := ProcessAll(t, batch, fates, now);
      if ok then After(reset, t1, ResetForRetry(t1, maxRetries)) else t1
  }

  class OutboxProcessor {
    const repository: OutboxRepository
    const batchSize: nat
    const maxRetries: nat
    var isProcessing: bool

    constructor (repository: OutboxRepository, batchSize: nat, maxRetries: nat)
      ensures this.repository == repository && this.batchSize == batchSize && this.maxRetries == maxRetries
      ensures !isProcessing
    {
      this.repository, this.batchSize, this.maxRetries := repository, batchSize, maxRetries;
      isProcessing := false;
    }

    method HandleEntry(id: string, fate: EntryFate, now: nat) returns (ok: bool)
      modifies repository
      ensures (repository.table, ok) == ProcessEntry(old(repository.table), id, fate, now)
    {
      var acquired := false;
      if !fate.acquire.NotDone? {
        acquired := repository.MarkAsProcessing(id);
      }
      if !fate.acquire.Done? {
        return false;
      }
      if !acquired {
        return true;
      }
      if fate.handover.Accepted? {
        if !fate.processed.NotDone? {
          repository.MarkAsProcessed(id, now);
        }
        if fate.processed.Done? {
          return true;
        }
      }
      if !fate.failed.NotDone? {
        repository.MarkAsFailed(id);
      }
      return fate.failed.Done?;
    }

    /** `polled`: the batch query answered. */
    method ProcessOutbox(polled: bool, fates: string -> EntryFate, reset: DbCall, now: nat)
      returns (entries: seq<string>)
      modifies this, repository
      ensures isProcessing == old(isProcessing)
      ensures isProcessing || !polled ==> repository.table == old(repository.table)
      ensures !isProcessing && polled ==>
                && IsOldest(PendingTimes(old(repository.table)), batchSize, entries)
                && repository.table == ProcessBatch(old(repository.table), entries, fates, reset, now, maxRetries)
    {
      entries := [];
      if isProcessing || !polled {
        return;
      }
      isProcessing := true;
      entries := repository.GetPending(batchSize);
      if |entries| != 0 {
        var ok := HandleAll(entries, fates, now);
        if ok && !reset.NotDone? {
          repository.Reset(maxRetries);
        }
      }
      isProcessing := false;
    }

    method HandleAll(entries: seq<string>, fates: string -> EntryFate, now: nat) returns (ok: bool)
      modifies repository
      ensures (repository.table, ok) == ProcessAll(old(repository.table), entries, fates, now)
    {
      for i := 0 to |entries|
        invariant ProcessAll(repository.table, entries[i..], fates, now) ==
                  ProcessAll(old(repository.table), entries, fates, now)
      {
        assert entries[i..][1..] == entries[i + 1..];
        ok := HandleEntry(entries[i], fates(entries[i]), now);
        if !ok {
          return;
        }
      }
      return true;
    }
  }

  // ---- What a batch does to each row ----

  ghost predicate Pending(t: Table, batch: seq<string>)
  {
    && (forall i :: 0 <= i < |batch| ==> batch[i] in t && t[batch[i]].status == PENDING)
    && (forall i, j :: 0 <= i < j < |batch| ==> batch[i] != batch[j])
  }

  /** No database call fails. */
  ghost predicate Calm(batch: seq<string>, fates: string -> EntryFate)
  {
    forall i :: 0 <= i < |batch| ==>
      var f := fates(batch[i]); f.acquire.Done? && f.processed.Done? && f.failed.Done?
  }

  /** What a batch makes of a row it holds. */
  function Handled(r: Record, ok: bool, now: nat): Record
  {
    if ok then r.(status := PROCESSED, processedAt := Some(now))
    else r.(status := FAILED, retryCount := r.retryCount + 1)
  }

  lemma {:induction false} EveryEntryIsHandled(t: Table, batch: seq<string>, fates: string -> EntryFate, now: nat)
    requires Pending(t, batch) && Calm(batch, fates)
    ensures ProcessAll(t, batch, fates, now).1
    ensures ProcessAll(t, batch, fates, now).0 ==
            map id | id in t :: if id in batch then Handled(t[id], fates(id).handover.Accepted?, now) else t[id]
    decreases |batch|
  {
    if batch != [] {
      var t1 := ProcessEntry(t, batch[0], fates(batch[0]), now).0;
      assert batch[0] !in batch[1..];
      assert Calm(batch[1..], fates) by {
        assert forall i :: 0 <= i < |batch| - 1 ==> batch[1..][i] == batch[i + 1];
      }
      EveryEntryIsHandled(t1, batch[1..], fates, now);
      assert batch == [batch[0]] + batch[1..];
    }
  }

  /**
    A calm batch by its effect: rows of the batch are processed or go back for retry while their
    retries last, other rows move only from failed to pending, and no row comes or goes.
   */
  lemma BatchOutcome(t: Table, limit: nat, batch: seq<string>, fates: string -> EntryFate, now: nat, maxRetries: nat,
                     id: string)
    requires IsOldest(PendingTimes(t), limit, batch) && batch != [] && id in t && Calm(batch, fates)
    ensures var t' := ProcessBatch(t, batch, fates, Done, now, maxRetries);
            && t'.Keys == t.Keys
            && (id in batch && fates(id).handover.Accepted? ==>
                  t'[id] == Record(PROCESSED, t[id].retryCount, t[id].createdAt, Some(now)))
            && (id in batch && !fates(id).handover.Accepted? ==>
                  && t'[id].retryCount == t[id].retryCount + 1
                  && t'[id].status == if t[id].retryCount + 1 < maxRetries then PENDING else FAILED)
            && (id !in batch && !Retryable(t[id], maxRetries) ==> t'[id] == t[id])
            && (id !in batch && Retryable(t[id], maxRetries) ==> t'[id] == t[id].(status := PENDING))
  {
    EveryEntryIsHandled(t, batch, fates, now);
  }

  // ---- Processors ----

  /** Where one processor stands. `todo` is the rest of its batch. */
  datatype Processor =
    | Idle
    | Working(todo: seq<string>)                  // between entries
    | Holding(id: string, todo: seq<string>)      // acquired, not yet published
    | Published(id: string, todo: seq<string>)    // bus took the event, row not yet updated
    | Failing(id: string, todo: seq<string>)      // parse, publish or update threw

  /** Bookkeeping: how often each event was acquired and offered to the bus, and which ones the bus took. */
  datatype System = System(
    table: Table,
    procs: map<nat, Processor>,
    added: set<string>,
    acquisitions: map<string, nat>,
    publications: map<string, nat>,   // calls of `publish`, failed ones included
    delivered: set<string>)           // events of which some `publish` returned

  function CountOf(m: map<string, nat>, id: string): nat { if id in m then m[id] else 0 }

  function Inc(m: map<string, nat>, id: string): map<string, nat> { m[id := CountOf(m, id) + 1] }

  datatype Action =
    | AddNew(id: string, now: nat)                   // event ids are never reused
    | Poll(p: nat, batch: seq<string>)               // getPending: any ids, later steps re-check them
    | Acquire(p: nat)
    | Publish(p: nat, throws: bool)                  // `throws`: after handing over, or before
    | BadPayload(p: nat)                             // JSON.parse threw
    | RecordProcessed(p: nat, now: nat, applied: bool, throws: bool)  // `applied && throws`: only the answer was lost
    | RecordFailed(p: nat, applied: bool, throws: bool)
    | FinishBatch(p: nat)                            // resetForRetry, then idle
    | Clean(olderThan: int)
    | Crash(p: nat)

  function ProcOf(s: System, p: nat): Processor { if p in s.procs then s.procs[p] else Idle }

  function Apply(s: System, maxRetries: nat, a: Action): System
  {
    match a
    case AddNew(id, now) =>
      if id in s.added then s else s.(table := Add(s.table, id, now), added := s.added + {id})
    case Poll(p, batch) =>
      if ProcOf(s, p).Idle? && batch != [] then s.(procs := s.procs[p := Working(batch)]) else s
    case Acquire(p) =>
      var w := ProcOf(s, p);
      if !w.Working? || w.todo == [] then s else
        var (t, acquired) := TryAcquire(s.table, w.todo[0]);
        if acquired
        then s.(table := t, procs := s.procs[p := Holding(w.todo[0], w.todo[1..])],
                acquisitions := Inc(s.acquisitions, w.todo[0]))
        else s.(procs := s.procs[p := Working(w.todo[1..])])
    case Publish(p, throws) =>
      var w := ProcOf(s, p);
      if !w.Holding? then s else
        s.(publications := Inc(s.publications, w.id),
           delivered := if throws then s.delivered else s.delivered + {w.id},
           procs := s.procs[p := if throws then Failing(w.id, w.todo) else Published(w.id, w.todo)])
    case BadPayload(p) =>
      var w := ProcOf(s, p);
      if w.Holding? then s.(procs := s.procs[p := Failing(w.id, w.todo)]) else s
    case RecordProcessed(p, now, applied, throws) =>
      var w := ProcOf(s, p);
      if !w.Published? then s else
        s.(table := if applied || !throws then MarkProcessed(s.table, w.id, now) else s.table,
           procs := s.procs[p := if throws then Failing(w.id, w.todo) else Working(w.todo)])
    case RecordFailed(p, applied, throws) =>
      var w := ProcOf(s, p);
      if !w.Failing? then s else
        s.(table := if applied || !throws then MarkFailed(s.table, w.id) else s.table,
           procs := s.procs[p := if throws then Idle else Working(w.todo)])
    case FinishBatch(p) =>
      if ProcOf(s, p) == Working([])
      then s.(table := ResetForRetry(s.table, maxRetries), procs := s.procs[p := Idle]) else s
    case Clean(olderThan) => s.(table := DeleteProcessed(s.table, olderThan))
    case Crash(p) => s.(procs := s.procs[p := Idle])
  }

  function Run(s: System, maxRetries: nat, acts: seq<Action>): System
    decreases |acts|
  {
    if acts == [] then s else Run(Apply(s, maxRetries, acts[0]), maxRetries, acts[1..])
  }

  const START := System(map[], map[], {}, map[], map[], {})

  // ---- Invariants ----

  predicate Holds(w: Processor, id: string)
  {
    (w.Holding? || w.Published? || w.Failing?) && w.id == id
  }

  /** A held row is being processed; one whose update lost its answer may be processed or even gone. */
  ghost predicate HeldOk(s: System, w: Processor, id: string)
  {
    && id in s.added
    && (|| (id in s.table && s.table[id].status == PROCESSING)
        || (w.Failing? && (id in s.table ==> s.table[id].status == PROCESSED)))
  }

  ghost predicate Exclusive(s: System)
  {
    && (forall p, id :: Holds(ProcOf(s, p), id) ==> HeldOk(s, ProcOf(s, p), id))
    && (forall id :: id in s.table ==> id in s.added)
    && (forall p, q, id :: Holds(ProcOf(s, p), id) && Holds(ProcOf(s, q), id) ==> p == q)
  }

  function Expected(r: Record): nat
  {
    r.retryCount + if r.status == PROCESSING || r.status == PROCESSED then 1 else 0
  }

  /** How far the publications may lag: an acquisition not yet handed to the bus. */
  ghost predicate Counted(s: System, maxRetries: nat, id: string)
  {
    var acquired, published := CountOf(s.acquisitions, id), CountOf(s.publications, id);
    && published <= acquired <= AtLeastOne(maxRetries)
    && (id in s.table ==> id in s.added && acquired == Expected(s.table[id]))
    && (id in s.table && s.table[id].status == PENDING ==> s.table[id].retryCount < AtLeastOne(maxRetries))
    && (id in s.table && s.table[id].status == PROCESSED ==> id in s.delivered)
    && (id in s.added && id !in s.table ==> id in s.delivered)
    && (id !in s.added ==> acquired == 0)
  }

  function AtLeastOne(n: nat): nat { if n == 0 then 1 else n }

  /** A holder that has not published yet leaves room for one more publication. */
  ghost predicate Pace(s: System, p: nat)
  {
    var w := ProcOf(s, p);
    && (w.Holding? ==> CountOf(s.publications, w.id) < CountOf(s.acquisitions, w.id))
    && (w.Published? ==> w.id in s.delivered)
  }

  ghost predicate Inv(s: System, maxRetries: nat)
  {
    Exclusive(s) && (forall id :: Counted(s, maxRetries, id)) && (forall p :: Pace(s, p))
  }

  /** A holder after a step held before it, or has just won the compare-and-set. */
  lemma HolderAfter(s: System, maxRetries: nat, a: Action, p: nat, id: string)
    requires Exclusive(s) && Holds(ProcOf(Apply(s, maxRetries, a), p), id)
    ensures Holds(ProcOf(s, p), id) || (a == Acquire(p) && id in s.table && s.table[id].status == PENDING)
    ensures var s' := Apply(s, maxRetries, a); HeldOk(s', ProcOf(s', p), id)
  {
  }

  lemma StepKeepsExclusive(s: System, maxRetries: nat, a: Action)
    requires Exclusive(s)
    ensures Exclusive(Apply(s, maxRetries, a))
  {
    var s' := Apply(s, maxRetries, a);
    forall p, id | Holds(ProcOf(s', p), id) ensures HeldOk(s', ProcOf(s', p), id) {
      HolderAfter(s, maxRetries, a, p, id);
    }
    forall p, q, id | Holds(ProcOf(s', p), id) && Holds(ProcOf(s', q), id) ensures p == q {
      HolderAfter(s, maxRetries, a, p, id);
      HolderAfter(s, maxRetries, a, q, id);
      assert Holds(ProcOf(s, p), id) ==> HeldOk(s, ProcOf(s, p), id);
      assert Holds(ProcOf(s, q), id) ==> HeldOk(s, ProcOf(s, q), id);
    }
  }

  lemma AcquireKeepsCount(s: System, maxRetries: nat, p: nat, id: string)
    requires Inv(s, maxRetries)
    ensures Counted(Apply(s, maxRetries, Acquire(p)), maxRetries, id)
  {
    assert Counted(s, maxRetries, id);
  }

  lemma PublishKeepsCount(s: System, maxRetries: nat, p: nat, throws: bool, id: string)
    requires Inv(s, maxRetries)
    ensures Counted(Apply(s, maxRetries, Publish(p, throws)), maxRetries, id)
  {
    assert Counted(s, maxRetries, id) && Pace(s, p);
  }

  lemma RecordKeepsCount(s: System, maxRetries: nat, a: Action, id: string)
    requires Inv(s, maxRetries) && (a.RecordProcessed? || a.RecordFailed?)
    ensures Counted(Apply(s, maxRetries, a), maxRetries, id)
  {
    assert Counted(s, maxRetries, id) && Pace(s, a.p);
    var w := ProcOf(s, a.p);
    if w.Published? || w.Failing? {
      assert Holds(w, w.id) && HeldOk(s, w, w.id);
    }
  }

  lemma TableKeepsCount(s: System, maxRetries: nat, a: Action, id: string)
    requires Inv(s, maxRetries)
    requires !(a.Acquire? || a.Publish? || a.RecordProcessed? || a.RecordFailed?)
    ensures Counted(Apply(s, maxRetries, a), maxRetries, id)
  {
    assert Counted(s, maxRetries, id);
  }

  lemma StepKeepsCount(s: System, maxRetries: nat, a: Action, id: string)
    requires Inv(s, maxRetries)
    ensures Counted(Apply(s, maxRetries, a), maxRetries, id)
  {
    match a {
      case Acquire(p) => AcquireKeepsCount(s, maxRetries, p, id);
      case Publish(p, throws) => PublishKeepsCount(s, maxRetries, p, throws, id);
      case RecordProcessed(_, _, _, _) => RecordKeepsCount(s, maxRetries, a, id);
      case RecordFailed(_, _, _) => RecordKeepsCount(s, maxRetries, a, id);
      case _ => TableKeepsCount(s, maxRetries, a, id);
    }
  }

  lemma StepKeepsPace(s: System, maxRetries: nat, a: Action, p: nat)
    requires Inv(s, maxRetries)
    ensures Pace(Apply(s, maxRetries, a), p)
  {
    var w := ProcOf(s, p);
    assert Pace(s, p);
    if a.Acquire? && ProcOf(s, a.p).Working? && ProcOf(s, a.p).todo != [] {
      assert Counted(s, maxRetries, ProcOf(s, a.p).todo[0]);
    }
    if a.Publish? && ProcOf(s, a.p).Holding? && w.Holding? {
      assert Holds(w, w.id) && Holds(ProcOf(s, a.p), ProcOf(s, a.p).id);
    }
  }

  lemma {:induction false} RunKeepsInv(s: System, maxRetries: nat, acts: seq<Action>)
    requires Inv(s, maxRetries)
    ensures Inv(Run(s, maxRetries, acts), maxRetries)
    decreases |acts|
  {
    if acts != [] {
      var s' := Apply(s, maxRetries, acts[0]);
      StepKeepsExclusive(s, maxRetries, acts[0]);
      forall id ensures Counted(s', maxRetries, id) { StepKeepsCount(s, maxRetries, acts[0], id); }
      forall p ensures Pace(s', p) { StepKeepsPace(s, maxRetries, acts[0], p); }
      RunKeepsInv(s', maxRetries, acts[1..]);
    }
  }

  // ---- The undisturbed batch is one run ----

  function EntryScript(p: nat, fate: EntryFate, now: nat): seq<Action>
  {
    if fate.acquire.NotDone? then [Crash(p)]
    else if fate.acquire.AnswerLost? then [Acquire(p), Crash(p)]
    else
      [Acquire(p), if fate.handover.Unparsable? then BadPayload(p) else Publish(p, fate.handover.Rejected?),
       RecordProcessed(p, now, !fate.processed.NotDone?, !fate.processed.Done?),
       RecordFailed(p, !fate.failed.NotDone?, !fate.failed.Done?)]
  }

  function BatchScript(p: nat, batch: seq<string>, fates: string -> EntryFate, now: nat): seq<Action>
  {
    if batch == [] then [] else EntryScript(p, fates(batch[0]), now) + BatchScript(p, batch[1..], fates, now)
  }

  lemma {:induction false} RunAppend(s: System, maxRetries: nat, a: seq<Action>, b: seq<Action>)
    ensures Run(s, maxRetries, a + b) == Run(Run(s, maxRetries, a), maxRetries, b)
    decreases |a|
  {
    if a == [] {
      assert a + b == b;
    } else {
      assert (a + b)[1..] == a[1..] + b;
      RunAppend(Apply(s, maxRetries, a[0]), maxRetries, a[1..], b);
    }
  }

  /** Cleaning is the table's cleanup and disturbs no processor. */
  lemma CleanIsCleanup(s: System, maxRetries: nat, id: string, olderThan: int, now: nat)
    requires id in s.table && s.table[id].status == PROCESSED && s.table[id].processedAt == Some(now)
    ensures var s' := Run(s, maxRetries, [Clean(olderThan)]);
            (id in s'.table <==> olderThan < now) && s'.procs == s.procs
  {
    assert [Clean(olderThan)][1..] == [];
    assert Run(s, maxRetries, [Clean(olderThan)]) == Apply(s, maxRetries, Clean(olderThan));
  }

  /** A processor with a batch under way takes no other. */
  lemma BusyProcessorIgnoresPolls(s: System, maxRetries: nat, p: nat, batch: seq<string>)
    requires !ProcOf(s, p).Idle?
    ensures Run(s, maxRetries, [Poll(p, batch)]) == s
  {
    assert [Poll(p, batch)][1..] == [];
    assert Run(s, maxRetries, [Poll(p, batch)]) == Apply(s, maxRetries, Poll(p, batch));
  }

  lemma RunFour(s: System, maxRetries: nat, a: Action, b: Action, c: Action, d: Action)
    ensures Run(s, maxRetries, [a, b, c, d]) ==
            Apply(Apply(Apply(Apply(s, maxRetries, a), maxRetries, b), maxRetries, c), maxRetries, d)
  {
    RunAppend(s, maxRetries, [a, b], [c, d]);
    assert [a, b] + [c, d] == [a, b, c, d];
    RunTwo(s, maxRetries, a, b);
    RunTwo(Run(s, maxRetries, [a, b]), maxRetries, c, d);
  }

  lemma RunTwo(s: System, maxRetries: nat, a: Action, b: Action)
    ensures Run(s, maxRetries, [a, b]) == Apply(Apply(s, maxRetries, a), maxRetries, b)
  {
    assert [a, b][1..] == [b] && [b][1..] == [];
    assert Run(Apply(s, maxRetries, a), maxRetries, [b]) == Apply(Apply(s, maxRetries, a), maxRetries, b);
  }

  /** Not acquired: the entry is passed over, and the rest of its script does nothing. */
  lemma PassedEntry(s: System, maxRetries: nat, p: nat, todo: seq<string>, fate: EntryFate, now: nat)
    requires todo != [] && ProcOf(s, p) == Working(todo) && fate.acquire.Done? && !TryAcquire(s.table, todo[0]).1
    ensures var s' := Run(s, maxRetries, EntryScript(p, fate, now));
            s'.table == s.table && ProcOf(s', p) == Working(todo[1..])
  {
    var acts := EntryScript(p, fate, now);
    RunFour(s, maxRetries, acts[0], acts[1], acts[2], acts[3]);
  }

  lemma AcquiredEntry(s: System, maxRetries: nat, p: nat, todo: seq<string>, fate: EntryFate, now: nat)
    requires todo != [] && ProcOf(s, p) == Working(todo) && fate.acquire.Done? && TryAcquire(s.table, todo[0]).1
    ensures var s' := Run(s, maxRetries, EntryScript(p, fate, now));
            var (t, ok) := ProcessEntry(s.table, todo[0], fate, now);
            s'.table == t && ProcOf(s', p) == if ok then Working(todo[1..]) else Idle
  {
    hide TryAcquire, MarkProcessed, MarkFailed, Inc;
    var acts := EntryScript(p, fate, now);
    RunFour(s, maxRetries, acts[0], acts[1], acts[2], acts[3]);
  }

  lemma EntryIsARun(s: System, maxRetries: nat, p: nat, todo: seq<string>, fate: EntryFate, now: nat)
    requires todo != [] && ProcOf(s, p) == Working(todo)
    ensures var s' := Run(s, maxRetries, EntryScript(p, fate, now));
            var (t, ok) := ProcessEntry(s.table, todo[0], fate, now);
            s'.table == t && ProcOf(s', p) == if ok then Working(todo[1..]) else Idle
  {
    var acts := EntryScript(p, fate, now);
    if fate.acquire.NotDone? {
      assert acts[1..] == [];
    } else if fate.acquire.AnswerLost? {
      RunTwo(s, maxRetries, acts[0], acts[1]);
    } else {
      hide Run, EntryScript;
      if TryAcquire(s.table, todo[0]).1 {
        AcquiredEntry(s, maxRetries, p, todo, fate, now);
      } else {
        PassedEntry(s, maxRetries, p, todo, fate, now);
      }
    }
  }

  lemma IdleEntry(s: System, maxRetries: nat, p: nat, fate: EntryFate, now: nat)
    requires ProcOf(s, p).Idle?
    ensures var s' := Run(s, maxRetries, EntryScript(p, fate, now)); s'.table == s.table && ProcOf(s', p).Idle?
  {
    var acts := EntryScript(p, fate, now);
    if fate.acquire.NotDone? {
      assert acts[1..] == [];
      assert Run(s, maxRetries, acts) == Apply(s, maxRetries, acts[0]);
    } else if fate.acquire.AnswerLost? {
      RunTwo(s, maxRetries, acts[0], acts[1]);
    } else {
      RunFour(s, maxRetries, acts[0], acts[1], acts[2], acts[3]);
    }
  }

  /** A processor that has dropped its batch does nothing more in it. */
  lemma {:induction false} IdleScript(s: System, maxRetries: nat, p: nat, batch: seq<string>,
                                      fates: string -> EntryFate, now: nat)
    requires ProcOf(s, p).Idle?
    ensures var s' := Run(s, maxRetries, BatchScript(p, batch, fates, now)); s'.table == s.table && ProcOf(s', p).Idle?
    decreases |batch|
  {
    if batch != [] {
      var acts := EntryScript(p, fates(batch[0]), now);
      IdleEntry(s, maxRetries, p, fates(batch[0]), now);
      IdleScript(Run(s, maxRetries, acts), maxRetries, p, batch[1..], fates, now);
      RunAppend(s, maxRetries, acts, BatchScript(p, batch[1..], fates, now));
    }
  }

  lemma {:induction false} EntriesAreARun(s: System, maxRetries: nat, p: nat, batch: seq<string>,
                                          fates: string -> EntryFate, now: nat)
    requires ProcOf(s, p) == Working(batch)
    ensures var s' := Run(s, maxRetries, BatchScript(p, batch, fates, now));
            var (t, ok) := ProcessAll(s.table, batch, fates, now);
            s'.table == t && ProcOf(s', p) == if ok then Working([]) else Idle
    decreases |batch|
  {
    if batch != [] {
      var acts, rest := EntryScript(p, fates(batch[0]), now), BatchScript(p, batch[1..], fates, now);
      var s1 := Run(s, maxRetries, acts);
      EntryIsARun(s, maxRetries, p, batch, fates(batch[0]), now);
      if ProcOf(s1, p).Idle? {
        IdleScript(s1, maxRetries, p, batch[1..], fates, now);
      } else {
        EntriesAreARun(s1, maxRetries, p, batch[1..], fates, now);
      }
      RunAppend(s, maxRetries, acts, rest);
    }
  }

  /** `processOutbox` from poll to reset, failing calls included, is one run of the transition system. */
  lemma BatchIsARun(s: System, maxRetries: nat, p: nat, batch: seq<string>, fates: string -> EntryFate, reset: DbCall,
                    now: nat)
    requires ProcOf(s, p).Idle? && batch != []
    ensures var finish := if reset.NotDone? then Crash(p) else FinishBatch(p);
            var s' := Run(s, maxRetries, [Poll(p, batch)] + BatchScript(p, batch, fates, now) + [finish]);
            s'.table == ProcessBatch(s.table, batch, fates, reset, now, maxRetries) && ProcOf(s', p).Idle?
  {
    var poll, script := [Poll(p, batch)], BatchScript(p, batch, fates, now);
    var finish := [if reset.NotDone? then Crash(p) else FinishBatch(p)];
    var s1 := Apply(s, maxRetries, Poll(p, batch));
    assert poll[1..] == [] && finish[1..] == [];
    assert Run(s, maxRetries, poll) == s1;
    EntriesAreARun(s1, maxRetries, p, batch, fates, now);
    RunAppend(s, maxRetries, poll, script);
    RunAppend(s, maxRetries, poll + script, finish);
    var s2 := Run(s1, maxRetries, script);
    assert Run(s2, maxRetries, finish) == Apply(s2, maxRetries, finish[0]);
  }

  // ---- Theorems over every interleaving with crashes ----

  /** No entry is ever held by two processors. */
  lemma NoDoubleHolding(maxRetries: nat, acts: seq<Action>, p: nat, q: nat, id: string)
    requires var s := Run(START, maxRetries, acts); Holds(ProcOf(s, p), id) && Holds(ProcOf(s, q), id)
    ensures p == q
  {
    RunKeepsInv(START, maxRetries, acts);
  }

  /** Acquisitions equal the retry count, plus one while processing or processed. */
  lemma AcquisitionsMatchRetryCount(maxRetries: nat, acts: seq<Action>, id: string)
    requires id in Run(START, maxRetries, acts).table
    ensures var s := Run(START, maxRetries, acts);
            CountOf(s.acquisitions, id) == s.table[id].retryCount +
              if s.table[id].status == PROCESSING || s.table[id].status == PROCESSED then 1 else 0
  {
    RunKeepsInv(START, maxRetries, acts);
    assert Counted(Run(START, maxRetries, acts), maxRetries, id);
  }

  /** Each event reaches the bus at most `maxRetries` times, or once if that is zero. */
  lemma PublicationsBounded(maxRetries: nat, acts: seq<Action>, id: string)
    ensures CountOf(Run(START, maxRetries, acts).publications, id) <= AtLeastOne(maxRetries)
  {
    RunKeepsInv(START, maxRetries, acts);
    assert Counted(Run(START, maxRetries, acts), maxRetries, id);
  }

  /** An added event is in the table or the bus took it: nothing is dropped undelivered. */
  lemma NothingLeavesUnpublished(maxRetries: nat, acts: seq<Action>, id: string)
    requires var s := Run(START, maxRetries, acts); id in s.added && id !in s.table
    ensures id in Run(START, maxRetries, acts).delivered
  {
    RunKeepsInv(START, maxRetries, acts);
    assert Counted(Run(START, maxRetries, acts), maxRetries, id);
  }

  /** A processed row was taken by the bus, at one of its acquisitions. */
  lemma ProcessedWasDelivered(maxRetries: nat, acts: seq<Action>, id: string)
    requires var s := Run(START, maxRetries, acts); id in s.table && s.table[id].status == PROCESSED
    ensures id in Run(START, maxRetries, acts).delivered
  {
    RunKeepsInv(START, maxRetries, acts);
    assert Counted(Run(START, maxRetries, acts), maxRetries, id);
  }

  /** With `maxRetries` zero the bound of zero is exceeded: the first attempt is always made. */
  lemma ZeroRetriesStillPublishes()
    ensures var acts := [AddNew("e", 0), Poll(0, ["e"]), Acquire(0), Publish(0, false)];
            CountOf(Run(START, 0, acts).publications, "e") == 1
  {
  }

  /** A crash mid-entry strands its row: no action of any processor moves a row that nobody holds. */
  lemma AbandonedRowStays(s: System, maxRetries: nat, a: Action, id: string)
    requires Exclusive(s) && id in s.table && s.table[id].status == PROCESSING && id in s.added
    requires forall p :: !Holds(ProcOf(s, p), id)
    ensures var s' := Apply(s, maxRetries, a);
            && id in s'.table && s'.table[id] == s.table[id] && forall p :: !Holds(ProcOf(s', p), id)
  {
    var s' := Apply(s, maxRetries, a);
    forall p ensures !Holds(ProcOf(s', p), id) {
      assert !Holds(ProcOf(s, p), id);
    }
    match a {
      case RecordProcessed(p, _, _, _) => assert !Holds(ProcOf(s, p), id);
      case RecordFailed(p, _, _) => assert !Holds(ProcOf(s, p), id);
      case _ =>
    }
  }
}
