/**
  Chat store-and-forward: messages are stored first, pushed by flushes that may overlap, lose
  acknowledgements or die, and shown merged with the receiver's thread. The receiver keeps at most
  one copy per message id and `sent: true` means that this message was accepted.
 */
module Chat {
  import opened Prelude
  import opened Query

  datatype Row = Row(user: string, text: string, createdAt: nat, forwardedAt: Option<nat>)

  type Rows = map<string, Row>

  const FLUSH_BATCH: nat := 50

  datatype Item = Item(id: string, user: string, text: string)

  // ---- Delivery ----

  /** The receiver's deduplication. */
  function Accept(receiver: seq<Item>, it: Item): seq<Item>
  {
    if HasId(receiver, it.id) then receiver else receiver + [it]
  }

  predicate HasId(items: seq<Item>, id: string)
  {
    exists i :: 0 <= i < |items| && items[i].id == id
  }

  datatype Outcome = Acked | AckLost | Rejected | Unreachable

  function Deliver(receiver: seq<Item>, it: Item, out: Outcome): seq<Item>
  {
    if out.Acked? || out.AckLost? then Accept(receiver, it) else receiver
  }

  function MarkForwarded(rows: Rows, id: string, now: nat): Rows
  {
    if id in rows then rows[id := rows[id].(forwardedAt := Some(now))] else rows
  }

  function ItemOf(rows: Rows, id: string): Item
    requires id in rows
  {
    Item(id, rows[id].user, rows[id].text)
  }

  predicate Eligible(rows: Rows, id: string)
  {
    id in rows && rows[id].forwardedAt.None?
  }

  // ---- Overlapping flushes as a transition system ----

  datatype Flush = Flushing(todo: seq<Item>) | Marking(id: string, todo: seq<Item>)

  datatype System = System(rows: Rows, receiver: seq<Item>, flushes: map<nat, Flush>)

  datatype Action =
    | Send(id: string, user: string, text: string, now: nat)
    | StartFlush(f: nat, batch: seq<string>)
    | Push(f: nat, out: Outcome)
    | Mark(f: nat, now: nat, applied: bool)   // a failing update is logged and the flush goes on
    | EndFlush(f: nat)   // finished or died

  function Snapshot(rows: Rows, batch: seq<string>): (items: seq<Item>)
    requires forall i :: 0 <= i < |batch| ==> batch[i] in rows
    ensures |items| == |batch|
  {
    seq(|batch|, i requires 0 <= i < |batch| => ItemOf(rows, batch[i]))
  }

  function Apply(s: System, a: Action): System
  {
    match a
    case Send(id, user, text, now) =>
      if id in s.rows then s else s.(rows := s.rows[id := Row(user, text, now, None)])
    case StartFlush(f, batch) =>
      if f in s.flushes || |batch| > FLUSH_BATCH || exists i :: 0 <= i < |batch| && !Eligible(s.rows, batch[i]) then s
      else s.(flushes := s.flushes[f := Flushing(Snapshot(s.rows, batch))])
    case Push(f, out) =>
      if f !in s.flushes || !s.flushes[f].Flushing? || s.flushes[f].todo == [] then s else
        var it, rest := s.flushes[f].todo[0], s.flushes[f].todo[1..];
        s.(receiver := Deliver(s.receiver, it, out),
           flushes := s.flushes[f := if out.Acked? then Marking(it.id, rest) else Flushing(rest)])
    case Mark(f, now, applied) =>
      if f !in s.flushes || !s.flushes[f].Marking? then s else
        s.(rows := if applied then MarkForwarded(s.rows, s.flushes[f].id, now) else s.rows,
           flushes := s.flushes[f := Flushing(s.flushes[f].todo)])
    case EndFlush(f) => s.(flushes := s.flushes - {f})
  }

  function Run(s: System, acts: seq<Action>): System
    decreases |acts|
  {
    if acts == [] then s else Run(Apply(s, acts[0]), acts[1..])
  }

  const START := System(map[], [], map[])

  // ---- Invariants ----

  ghost predicate Genuine(rows: Rows, it: Item)
  {
    it.id in rows && it.user == rows[it.id].user && it.text == rows[it.id].text
  }

  ghost predicate NoDuplicates(receiver: seq<Item>)
  {
    forall i, j :: 0 <= i < j < |receiver| ==> receiver[i].id != receiver[j].id
  }

  ghost predicate FlushOk(s: System, f: Flush)
  {
    && (forall i :: 0 <= i < |f.todo| ==> Genuine(s.rows, f.todo[i]))
    && (f.Marking? ==> HasId(s.receiver, f.id))
  }

  ghost predicate Inv(s: System)
  {
    && NoDuplicates(s.receiver)
    && (forall i :: 0 <= i < |s.receiver| ==> Genuine(s.rows, s.receiver[i]))
    && (forall id :: id in s.rows && s.rows[id].forwardedAt.Some? ==> HasId(s.receiver, id))
    && (forall f :: f in s.flushes ==> FlushOk(s, s.flushes[f]))
  }

  ghost predicate SameContent(r: Row, r': Row)
  {
    r'.user == r.user && r'.text == r.text && r'.createdAt == r.createdAt
  }

  /** Rows keep their content, the receiver only grows. */
  ghost predicate Extends(s: System, s': System)
  {
    && (forall id :: id in s.rows ==> id in s'.rows && SameContent(s.rows[id], s'.rows[id]))
    && |s.receiver| <= |s'.receiver| && s'.receiver[..|s.receiver|] == s.receiver
  }

  lemma HasIdGrows(s: System, s': System, id: string)
    requires Extends(s, s') && HasId(s.receiver, id)
    ensures HasId(s'.receiver, id)
  {
  }

  lemma AcceptedHasId(receiver: seq<Item>, it: Item)
    ensures HasId(Accept(receiver, it), it.id)
  {
    if !HasId(receiver, it.id) {
      assert (receiver + [it])[|receiver|].id == it.id;
    }
  }

  lemma StepExtends(s: System, a: Action)
    ensures Extends(s, Apply(s, a))
  {
  }

  lemma FlushStaysOk(s: System, s': System, f: Flush)
    requires Extends(s, s') && FlushOk(s, f)
    ensures FlushOk(s', f)
  {
  }

  lemma StepKeepsFlushes(s: System, a: Action)
    requires Inv(s)
    ensures var s' := Apply(s, a); forall f :: f in s'.flushes ==> FlushOk(s', s'.flushes[f])
  {
    var s' := Apply(s, a);
    StepExtends(s, a);
    forall f | f in s'.flushes ensures FlushOk(s', s'.flushes[f]) {
      if f in s.flushes {
        FlushStaysOk(s, s', s.flushes[f]);
        if a.Push? && a.f == f && s.flushes[f].Flushing? && s.flushes[f].todo != [] {
          AcceptedHasId(s.receiver, s.flushes[f].todo[0]);
        }
      }
    }
  }

  lemma StepKeepsInv(s: System, a: Action)
    requires Inv(s)
    ensures Inv(Apply(s, a))
  {
    var s' := Apply(s, a);
    StepExtends(s, a);
    StepKeepsFlushes(s, a);
    forall id | id in s'.rows && s'.rows[id].forwardedAt.Some? ensures HasId(s'.receiver, id) {
      if id in s.rows && s.rows[id].forwardedAt.Some? {
        HasIdGrows(s, s', id);
      }
    }
  }

  lemma {:induction false} RunKeepsInv(s: System, acts: seq<Action>)
    requires Inv(s)
    ensures Inv(Run(s, acts)) && Extends(s, Run(s, acts))
    decreases |acts|
  {
    if acts != [] {
      StepKeepsInv(s, acts[0]);
      StepExtends(s, acts[0]);
      RunKeepsInv(Apply(s, acts[0]), acts[1..]);
      var m, e := Apply(s, acts[0]).receiver, Run(s, acts).receiver;
      assert e[..|s.receiver|] == e[..|m|][..|s.receiver|];
    }
  }

  /**
    Over every interleaving of sends and overlapping flushes, with lost acknowledgements, rejections
    and deaths: a row marked forwarded is at the receiver with its own text, nothing is there twice
    or invented, and every message is still eligible or already there.
   */
  lemma NothingLostNothingDoubled(acts: seq<Action>)
    ensures var s := Run(START, acts);
            && NoDuplicates(s.receiver)
            && (forall i :: 0 <= i < |s.receiver| ==> Genuine(s.rows, s.receiver[i]))
            && (forall id :: id in s.rows ==> Eligible(s.rows, id) || HasId(s.receiver, id))
  {
    RunKeepsInv(START, acts);
  }

  // ---- One flush as the loop it is ----

  /** What becomes of one row in a flush: the push, and after an acknowledgement the row update. */
  datatype Fate = Fate(out: Outcome, marked: DbCall)

  /** The unforwarded rows with their creation times. */
  function EligibleTimes(rows: Rows): map<string, nat>
  {
    map id | id in rows && rows[id].forwardedAt.None? :: rows[id].createdAt
  }

  function FlushItem(rows: Rows, receiver: seq<Item>, it: Item, fate: Fate, now: nat): (Rows, seq<Item>)
  {
    (if fate.out.Acked? && !fate.marked.NotDone? then MarkForwarded(rows, it.id, now) else rows,
     Deliver(receiver, it, fate.out))
  }

  /** `flushOnce` over a batch: rows, receiver and number of rows reported as forwarded. */
  function FlushItems(rows: Rows, receiver: seq<Item>, items: seq<Item>, fates: string -> Fate, now: nat)
    : (Rows, seq<Item>, nat)
    decreases |items|
  {
    if items == [] then (rows, receiver, 0)
    else
      var fate := fates(items[0].id);
      var (rows1, receiver1) := FlushItem(rows, receiver, items[0], fate, now);
      var (rows2, receiver2, k) := FlushItems(rows1, receiver1, items[1..], fates, now);
      (rows2, receiver2, k + if fate.out.Acked? && fate.marked.Done? then 1 else 0)
  }

  class ChatOutboxForwarder {
    var rows: Rows
    var receiver: seq<Item>   // the other side of the wire

    constructor ()
      ensures rows == map[] && receiver == []
    {
      rows, receiver := map[], [];
    }

    method FlushOnce(reachable: bool, fates: string -> Fate, now: nat) returns (forwarded: nat, batch: seq<string>)
      modifies this
      ensures !reachable ==> forwarded == 0 && rows == old(rows) && receiver == old(receiver)
      ensures reachable ==>
                && IsOldest(EligibleTimes(old(rows)), 50, batch)
                && (rows, receiver, forwarded) ==
                    FlushItems(old(rows), old(receiver), Snapshot(old(rows), batch), fates, now)
    {
      forwarded, batch := 0, [];
      if !reachable {
        return;
      }
      batch := SelectOldest(EligibleTimes(rows), FLUSH_BATCH);
      forwarded := ForwardAll(Snapshot(rows, batch), fates, now);
    }

    method ForwardAll(pending: seq<Item>, fates: string -> Fate, now: nat) returns (forwarded: nat)
      modifies this
      ensures (rows, receiver, forwarded) == FlushItems(old(rows), old(receiver), pending, fates, now)
    {
      forwarded := 0;
      for i := 0 to |pending|
        invariant var (r, c, k) := FlushItems(rows, receiver, pending[i..], fates, now);
                  (r, c, k + forwarded) == FlushItems(old(rows), old(receiver), pending, fates, now)
      {
        assert pending[i..][1..] == pending[i + 1..];
        var counted := Forward(pending[i], fates(pending[i].id), now);
        if counted {
          forwarded := forwarded + 1;
        }
      }
    }

    method Forward(it: Item, fate: Fate, now: nat) returns (counted: bool)
      modifies this
      ensures (rows, receiver) == FlushItem(old(rows), old(receiver), it, fate, now)
      ensures counted == (fate.out.Acked? && fate.marked.Done?)
    {
      receiver := Deliver(receiver, it, fate.out);
      counted := false;
      if fate.out.Acked? {
        if !fate.marked.NotDone? {
          rows := MarkForwarded(rows, it.id, now);
        }
        counted := fate.marked.Done?;
      }
    }
  }

  /** The receiver took this message in the flush. */
  predicate Taken(fate: Fate)
  {
    fate.out.Acked? || fate.out.AckLost?
  }

  predicate Among(items: seq<Item>, id: string)
  {
    exists i :: 0 <= i < |items| && items[i].id == id
  }

  lemma FlushOne(rows: Rows, receiver: seq<Item>, it: Item, fate: Fate, now: nat, id: string)
    ensures var (rows', receiver') := FlushItem(rows, receiver, it, fate, now);
            && rows'.Keys == rows.Keys
            && (id in rows ==>
                  rows'[id] == if id == it.id && fate.out == Acked && fate.marked != NotDone
                               then rows[id].(forwardedAt := Some(now)) else rows[id])
            && (HasId(receiver', id) <==> HasId(receiver, id) || (id == it.id && Taken(fate)))
  {
    var receiver' := FlushItem(rows, receiver, it, fate, now).1;
    if HasId(receiver, id) {
      var i :| 0 <= i < |receiver| && receiver[i].id == id;
      assert receiver'[i].id == id;
    }
    if Taken(fate) {
      AcceptedHasId(receiver, it);
    }
  }

  lemma {:induction false} AmongCons(items: seq<Item>, id: string)
    requires items != []
    ensures Among(items, id) <==> items[0].id == id || Among(items[1..], id)
  {
    if Among(items[1..], id) {
      var i :| 0 <= i < |items| - 1 && items[1..][i].id == id;
      assert items[i + 1].id == id;
    }
    if Among(items, id) && items[0].id != id {
      var i :| 0 <= i < |items| && items[i].id == id;
      assert items[1..][i - 1].id == id;
    }
  }

  /**
    A flush by its effect on one message: its row is marked with the time of the flush exactly if it was
    acknowledged and the update took effect, it is at the receiver exactly if it was before or was taken,
    and nothing else of the rows changes.
   */
  lemma {:induction false} FlushOutcome(rows: Rows, receiver: seq<Item>, items: seq<Item>, fates: string -> Fate,
                                        now: nat, id: string)
    ensures var (rows', receiver', _) := FlushItems(rows, receiver, items, fates, now);
            && rows'.Keys == rows.Keys
            && (id in rows ==>
                  rows'[id] == if Among(items, id) && fates(id).out == Acked && fates(id).marked != NotDone
                               then rows[id].(forwardedAt := Some(now)) else rows[id])
            && (HasId(receiver', id) <==> HasId(receiver, id) || (Among(items, id) && Taken(fates(id))))
    decreases |items|
  {
    if items != [] {
      var (rows1, receiver1) := FlushItem(rows, receiver, items[0], fates(items[0].id), now);
      FlushOne(rows, receiver, items[0], fates(items[0].id), now, id);
      FlushOutcome(rows1, receiver1, items[1..], fates, now, id);
      AmongCons(items, id);
    }
  }

  function FatesOf(items: seq<Item>, fates: string -> Fate): seq<Fate>
  {
    seq(|items|, i requires 0 <= i < |items| => fates(items[i].id))
  }

  /** The reported number is that of the messages acknowledged and marked without an error. */
  lemma {:induction false} ForwardedIsCounted(rows: Rows, receiver: seq<Item>, items: seq<Item>, fates: string -> Fate,
                                              now: nat)
    ensures FlushItems(rows, receiver, items, fates, now).2 == multiset(FatesOf(items, fates))[Fate(Acked, Done)]
    decreases |items|
  {
    if items != [] {
      var fate := fates(items[0].id);
      var (rows1, receiver1) := FlushItem(rows, receiver, items[0], fate, now);
      ForwardedIsCounted(rows1, receiver1, items[1..], fates, now);
      assert FatesOf(items, fates) == [fate] + FatesOf(items[1..], fates);
    }
  }

  /** The steps that one undisturbed flush takes. */
  function ItemScript(f: nat, fate: Fate, now: nat): seq<Action>
  {
    if fate.out.Acked? then [Push(f, Acked), Mark(f, now, !fate.marked.NotDone?)] else [Push(f, fate.out)]
  }

  function Script(f: nat, items: seq<Item>, fates: string -> Fate, now: nat): seq<Action>
  {
    if items == [] then [] else ItemScript(f, fates(items[0].id), now) + Script(f, items[1..], fates, now)
  }

  lemma {:induction false} RunAppend(s: System, a: seq<Action>, b: seq<Action>)
    ensures Run(s, a + b) == Run(Run(s, a), b)
    decreases |a|
  {
    if a == [] {
      assert a + b == b;
    } else {
      assert (a + b)[1..] == a[1..] + b;
      RunAppend(Apply(s, a[0]), a[1..], b);
    }
  }

  lemma ItemIsARun(s: System, f: nat, fate: Fate, now: nat)
    requires f in s.flushes && s.flushes[f].Flushing? && s.flushes[f].todo != []
    ensures var it := s.flushes[f].todo[0];
            var s' := Run(s, ItemScript(f, fate, now));
            && (s'.rows, s'.receiver) == FlushItem(s.rows, s.receiver, it, fate, now)
            && f in s'.flushes && s'.flushes[f] == Flushing(s.flushes[f].todo[1..])
  {
    var acts := ItemScript(f, fate, now);
    var s1 := Apply(s, acts[0]);
    if fate.out.Acked? {
      assert acts[1..] == [acts[1]] && [acts[1]][1..] == [];
      assert Run(s1, acts[1..]) == Apply(s1, acts[1]);
    } else {
      assert acts[1..] == [];
    }
  }

  /** The sequential flush, failing updates included, is one run of the transition system. */
  lemma {:induction false} FlushIsARun(s: System, f: nat, items: seq<Item>, fates: string -> Fate, now: nat)
    requires f in s.flushes && s.flushes[f] == Flushing(items)
    ensures var s' := Run(s, Script(f, items, fates, now));
            var r := FlushItems(s.rows, s.receiver, items, fates, now);
            && s'.rows == r.0 && s'.receiver == r.1
            && f in s'.flushes && s'.flushes[f] == Flushing([])
    decreases |items|
  {
    if items != [] {
      var acts, rest := ItemScript(f, fates(items[0].id), now), Script(f, items[1..], fates, now);
      ItemIsARun(s, f, fates(items[0].id), now);
      FlushIsARun(Run(s, acts), f, items[1..], fates, now);
      RunAppend(s, acts, rest);
    }
  }

  /** What a flush selects may be started in the transition system. */
  lemma SelectionStarts(s: System, f: nat, batch: seq<string>)
    requires f !in s.flushes && IsOldest(EligibleTimes(s.rows), FLUSH_BATCH, batch)
    ensures var s' := Apply(s, StartFlush(f, batch));
            f in s'.flushes && s'.flushes[f] == Flushing(Snapshot(s.rows, batch))
  {
    assert forall i :: 0 <= i < |batch| ==> batch[i] in EligibleTimes(s.rows);
  }

  /** `flushOnce` from selection to end, as one run that leaves no flush behind. */
  lemma FlushOnceIsARun(s: System, f: nat, batch: seq<string>, fates: string -> Fate, now: nat)
    requires f !in s.flushes && IsOldest(EligibleTimes(s.rows), FLUSH_BATCH, batch)
    ensures forall i :: 0 <= i < |batch| ==> batch[i] in s.rows
    ensures var items := Snapshot(s.rows, batch);
            var (rows, receiver, _) := FlushItems(s.rows, s.receiver, items, fates, now);
            var s' := Run(s, [StartFlush(f, batch)] + (Script(f, items, fates, now) + [EndFlush(f)]));
            s'.rows == rows && s'.receiver == receiver && f !in s'.flushes
  {
    assert forall i :: 0 <= i < |batch| ==> batch[i] in EligibleTimes(s.rows);
    var items := Snapshot(s.rows, batch);
    var s1 := Apply(s, StartFlush(f, batch));
    SelectionStarts(s, f, batch);
    FlushIsARun(s1, f, items, fates, now);
    var all := [StartFlush(f, batch)] + (Script(f, items, fates, now) + [EndFlush(f)]);
    assert all[1..] == Script(f, items, fates, now) + [EndFlush(f)];
    RunAppend(s1, Script(f, items, fates, now), [EndFlush(f)]);
    var s2 := Run(s1, Script(f, items, fates, now));
    assert [EndFlush(f)][1..] == [];
    assert Run(s2, [EndFlush(f)]) == Apply(s2, EndFlush(f));
  }
}
