/**
  The single-use promise of a stored resolve result when binds of one session overlap. A bind reads
  the result, later writes its binding, and deletes the result last. Every stored result carries a
  serial number, so that uses can be counted.
 */
module TokenRace {

  datatype Thread =
    | Checked(session: string, serial: nat)   // read the result and passed the reference check
    | Saved(session: string, serial: nat)     // wrote its binding, has not yet deleted the result

  datatype State = State(
    tokens: map<string, nat>,    // session -> serial of its stored result
    next: nat,
    threads: map<nat, Thread>,
    uses: seq<nat>)              // serials behind the bindings written, in order

  datatype Action =
    | StoreResult(session: string)             // bind-init
    | ReadToken(tid: nat, session: string)
    | SaveBinding(tid: nat)
    | DeleteToken(tid: nat)
    | GiveUp(tid: nat)                         // locked, wrong secret, or the request died
    | LoseToken(session: string)               // expiry, eviction, or a registration

  const START := State(map[], 0, map[], [])

  function Apply(st: State, a: Action): State
  {
    match a
    case StoreResult(session) => st.(tokens := st.tokens[session := st.next], next := st.next + 1)
    case ReadToken(tid, session) =>
      if !CanRead(st, tid, session) then st
      else st.(threads := st.threads[tid := Checked(session, st.tokens[session])])
    case SaveBinding(tid) =>
      if tid !in st.threads || !st.threads[tid].Checked? then st else
        var t := st.threads[tid];
        st.(threads := st.threads[tid := Saved(t.session, t.serial)], uses := st.uses + [t.serial])
    case DeleteToken(tid) =>
      if tid !in st.threads || !st.threads[tid].Saved? then st else
        st.(tokens := st.tokens - {st.threads[tid].session}, threads := st.threads - {tid})
    case GiveUp(tid) => st.(threads := st.threads - {tid})
    case LoseToken(session) => st.(tokens := st.tokens - {session})
  }

  function Run(st: State, acts: seq<Action>): State
    decreases |acts|
  {
    if acts == [] then st else Run(Apply(st, acts[0]), acts[1..])
  }

  predicate CanRead(st: State, tid: nat, session: string)
  {
    tid !in st.threads && session in st.tokens
  }

  /** No result stands behind two bindings. */
  ghost predicate SingleUse(st: State)
  {
    forall i, j :: 0 <= i < j < |st.uses| ==> st.uses[i] != st.uses[j]
  }

  /** The result was not used and no bind under way holds it. */
  ghost predicate Free(st: State, serial: nat)
  {
    serial !in st.uses && forall t :: t in st.threads ==> st.threads[t].serial != serial
  }

  /** The condition on a schedule: whoever reads a result finds it free. */
  ghost predicate ReadsFree(st: State, acts: seq<Action>)
    decreases |acts|
  {
    acts == [] ||
    (&& (acts[0].ReadToken? && CanRead(st, acts[0].tid, acts[0].session) ==> Free(st, st.tokens[acts[0].session]))
     && ReadsFree(Apply(st, acts[0]), acts[1..]))
  }

  ghost predicate Inv(st: State)
  {
    && SingleUse(st)
    && (forall t :: t in st.threads ==> (st.threads[t].Saved? <==> st.threads[t].serial in st.uses))
    && (forall t, u :: t in st.threads && u in st.threads && st.threads[t].serial == st.threads[u].serial ==> t == u)
  }

  lemma StepKeepsInv(st: State, a: Action)
    requires Inv(st)
    requires a.ReadToken? && CanRead(st, a.tid, a.session) ==> Free(st, st.tokens[a.session])
    ensures Inv(Apply(st, a))
  {
  }

  lemma {:induction false} RunKeepsInv(st: State, acts: seq<Action>)
    requires Inv(st) && ReadsFree(st, acts)
    ensures Inv(Run(st, acts))
    decreases |acts|
  {
    if acts != [] {
      StepKeepsInv(st, acts[0]);
      RunKeepsInv(Apply(st, acts[0]), acts[1..]);
    }
  }

  /** A schedule in which every read finds its result free uses no result twice. */
  lemma FreeReadsAreSingleUse(acts: seq<Action>)
    requires ReadsFree(START, acts)
    ensures SingleUse(Run(START, acts))
  {
    RunKeepsInv(START, acts);
  }

  predicate NoReads(acts: seq<Action>)
  {
    forall i :: 0 <= i < |acts| ==> !acts[i].ReadToken?
  }

  lemma {:induction false} NoReadsReadFree(st: State, acts: seq<Action>)
    requires NoReads(acts)
    ensures ReadsFree(st, acts)
    decreases |acts|
  {
    if acts != [] {
      assert NoReads(acts[1..]);
      NoReadsReadFree(Apply(st, acts[0]), acts[1..]);
    }
  }

  /** Two bindings on one result: the reader saves, and so does whoever held it. */
  lemma SecondUse(st: State, tid: nat, session: string) returns (more: seq<Action>)
    requires Inv(st) && CanRead(st, tid, session) && !Free(st, st.tokens[session])
    ensures NoReads(more) && !SingleUse(Run(Apply(st, ReadToken(tid, session)), more))
  {
    var serial := st.tokens[session];
    var st1 := Apply(st, ReadToken(tid, session));
    var st2 := Apply(st1, SaveBinding(tid));
    assert st2.uses[|st.uses|] == serial;
    if serial in st.uses {
      var i :| 0 <= i < |st.uses| && st.uses[i] == serial;
      assert st2.uses[i] == serial;
      more := [SaveBinding(tid)];
      assert more[1..] == [];
      assert Run(st1, more) == st2;
    } else {
      var t :| t in st.threads && st.threads[t].serial == serial;
      var st3 := Apply(st2, SaveBinding(t));
      assert st3.uses[|st.uses|] == serial && st3.uses[|st.uses| + 1] == serial;
      more := [SaveBinding(tid), SaveBinding(t)];
      assert more[1..] == [SaveBinding(t)] && more[1..][1..] == [];
      assert Run(st2, more[1..]) == st3;
    }
  }

  /**
    The condition is exact: after any schedule of free reads, one more read can lead to a second use
    of a result, without any further read, if and only if it does not find its result free.
   */
  lemma SecondUsePossibleExactly(pre: seq<Action>, tid: nat, session: string)
    requires ReadsFree(START, pre) && CanRead(Run(START, pre), tid, session)
    ensures (exists more :: NoReads(more) && !SingleUse(Run(Apply(Run(START, pre), ReadToken(tid, session)), more)))
            <==> !Free(Run(START, pre), Run(START, pre).tokens[session])
  {
    var st := Run(START, pre);
    RunKeepsInv(START, pre);
    if Free(st, st.tokens[session]) {
      forall more | NoReads(more) ensures SingleUse(Run(Apply(st, ReadToken(tid, session)), more)) {
        StepKeepsInv(st, ReadToken(tid, session));
        NoReadsReadFree(Apply(st, ReadToken(tid, session)), more);
        RunKeepsInv(Apply(st, ReadToken(tid, session)), more);
      }
    } else {
      var more := SecondUse(st, tid, session);
    }
  }

  /** "Single-use": two overlapping binds of one session both write a binding on one stored result. */
  lemma OverlappingBindsShareAResult()
    ensures !SingleUse(Run(START,
                           [StoreResult("s"), ReadToken(1, "s"), ReadToken(2, "s"), SaveBinding(1), SaveBinding(2)]))
  {
    var acts := [StoreResult("s"), ReadToken(1, "s"), ReadToken(2, "s"), SaveBinding(1), SaveBinding(2)];
    var s1 := Apply(START, acts[0]);
    var s2 := Apply(s1, acts[1]);
    var s3 := Apply(s2, acts[2]);
    var s4 := Apply(s3, acts[3]);
    var s5 := Apply(s4, acts[4]);
    assert s5.uses == [0, 0];
    assert acts[1..][1..] == acts[2..] && acts[2..][1..] == acts[3..] && acts[3..][1..] == acts[4..] &&
        acts[4..][1..] == [];
    assert Run(s3, acts[3..]) == Run(s4, acts[4..]) == Run(s5, []) == s5;
    assert Run(s1, acts[1..]) == Run(s2, acts[2..]) == s5;
    assert Run(START, acts) == s5 && s5.uses[0] == s5.uses[1];
  }

  // ---- Binds one after another read free results ----

  datatype Call =
    | InitCall(session: string)
    | BindCall(tid: nat, session: string, verified: bool)
    | OtherLoss(session: string)

  function Steps(c: Call): seq<Action>
  {
    match c
    case InitCall(session) => [StoreResult(session)]
    case BindCall(tid, session, verified) =>
      if verified then [ReadToken(tid, session), SaveBinding(tid), DeleteToken(tid)]
      else [ReadToken(tid, session), GiveUp(tid)]
    case OtherLoss(session) => [LoseToken(session)]
  }

  function Serial(calls: seq<Call>): seq<Action>
  {
    if calls == [] then [] else Steps(calls[0]) + Serial(calls[1..])
  }

  /** Nothing under way, and every stored result unused. */
  ghost predicate Quiet(st: State)
  {
    && st.threads == map[]
    && (forall session :: session in st.tokens ==> st.tokens[session] < st.next && st.tokens[session] !in st.uses)
    && (forall i :: 0 <= i < |st.uses| ==> st.uses[i] < st.next)
    && (forall a, b :: a in st.tokens && b in st.tokens && st.tokens[a] == st.tokens[b] ==> a == b)
  }

  lemma {:induction false} ReadsFreeAppend(st: State, a: seq<Action>, b: seq<Action>)
    requires ReadsFree(st, a) && ReadsFree(Run(st, a), b)
    ensures ReadsFree(st, a + b)
    decreases |a|
  {
    if a == [] {
      assert a + b == b;
    } else {
      assert (a + b)[1..] == a[1..] + b;
      ReadsFreeAppend(Apply(st, a[0]), a[1..], b);
    }
  }

  lemma VerifiedBindStaysQuiet(st: State, tid: nat, session: string)
    requires Quiet(st)
    ensures var acts := Steps(BindCall(tid, session, true)); ReadsFree(st, acts) && Quiet(Run(st, acts))
  {
    var acts := Steps(BindCall(tid, session, true));
    var s1 := Apply(st, acts[0]);
    var s2 := Apply(s1, acts[1]);
    var s3 := Apply(s2, acts[2]);
    assert acts[1..][1..] == [acts[2]] && [acts[2]][1..] == [];
    assert Run(s2, [acts[2]]) == s3 && Run(s1, acts[1..]) == s3;
    assert ReadsFree(s2, [acts[2]]) && ReadsFree(s1, acts[1..]);
    assert s3.threads == map[];
  }

  lemma FailedBindStaysQuiet(st: State, tid: nat, session: string)
    requires Quiet(st)
    ensures var acts := Steps(BindCall(tid, session, false)); ReadsFree(st, acts) && Quiet(Run(st, acts))
  {
    var acts := Steps(BindCall(tid, session, false));
    var s1 := Apply(st, acts[0]);
    assert acts[1..] == [acts[1]] && [acts[1]][1..] == [];
    assert Run(s1, acts[1..]) == Apply(s1, acts[1]);
    assert ReadsFree(s1, acts[1..]);
    assert Apply(s1, acts[1]).threads == map[];
  }

  lemma CallStaysQuiet(st: State, c: Call)
    requires Quiet(st)
    ensures ReadsFree(st, Steps(c)) && Quiet(Run(st, Steps(c)))
  {
    match c {
      case BindCall(tid, session, verified) =>
        if verified {
          VerifiedBindStaysQuiet(st, tid, session);
        } else {
          FailedBindStaysQuiet(st, tid, session);
        }
      case _ => assert Steps(c)[1..] == [];
    }
  }

  lemma {:induction false} SerialReadsFree(st: State, calls: seq<Call>)
    requires Quiet(st)
    ensures ReadsFree(st, Serial(calls))
    decreases |calls|
  {
    if calls != [] {
      CallStaysQuiet(st, calls[0]);
      SerialReadsFree(Run(st, Steps(calls[0])), calls[1..]);
      ReadsFreeAppend(st, Steps(calls[0]), Serial(calls[1..]));
    }
  }

  /** Without overlap the promise holds: serialised binds use every stored result at most once. */
  lemma SerialBindsAreSingleUse(calls: seq<Call>)
    ensures SingleUse(Run(START, Serial(calls)))
  {
    SerialReadsFree(START, calls);
    FreeReadsAreSingleUse(Serial(calls));
  }
}
