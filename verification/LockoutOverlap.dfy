/**
  One lockout ceiling when attempts overlap: an attempt passes the lock check, and records its failure
  some time later. What is left of the rate bound depends on how many attempts are under way at once.
 */
module LockoutOverlap {
  import opened Prelude
  import opened LockoutGate

  datatype Move =
    | Enter(at: nat)    // the lock check; refused while the gate is locked
    | Record(at: nat)   // an attempt under way fails
    | Leave(at: nat)    // an attempt under way ends otherwise
    | Wipe(at: nat)     // a success clears the counter

  /** The gate, and how many attempts have passed its check and are still under way. */
  datatype Front = Front(gate: Gate, inside: nat)

  function MoveStep(c: Ceiling, f: Front, m: Move): Front
  {
    match m
    case Enter(at) => if Locked(f.gate, at) then f else f.(inside := f.inside + 1)
    case Record(at) => if f.inside == 0 then f else Front(GateStep(c, f.gate, Fail(at)), f.inside - 1)
    case Leave(_) => if f.inside == 0 then f else f.(inside := f.inside - 1)
    case Wipe(at) => f.(gate := GateStep(c, f.gate, Clear(at)))
  }

  /** The move records a failure at a time from `a` on. */
  predicate Counts(f: Front, m: Move, a: nat)
  {
    m.Record? && f.inside > 0 && a <= m.at
  }

  /**
    What n failures inside [a, a + window) say, if at most k attempts are ever under way: once a lock
    reaches past the interval nobody enters, and each attempt still inside can fail once more.
   */
  ghost predicate LateBudget(c: Ceiling, f: Front, n: nat, a: nat, k: nat)
  {
    && f.inside <= k
    && (f.gate.counter.Some? ==> 1 <= f.gate.counter.value.n < c.limit)
    && if f.gate.until >= a + c.windowSec * 1000 then n + f.inside <= 2 * c.limit - 3 + k
       else match f.gate.counter
            case None => n == 0
            case Some(Count(i, since)) => (since < a ==> n <= i - 1) && n <= c.limit - 2 + i
  }

  lemma LateBudgetStep(c: Ceiling, f: Front, n: nat, m: Move, a: nat, k: nat)
    requires Sane(c) && LateBudget(c, f, n, a, k) && MoveStep(c, f, m).inside <= k
    requires m.at < a + c.windowSec * 1000 && (m.Wipe? || m.at < a ==> n == 0)
    ensures LateBudget(c, MoveStep(c, f, m), n + if Counts(f, m, a) then 1 else 0, a, k)
  {
  }

  lemma LateBudgetBounds(c: Ceiling, f: Front, n: nat, a: nat, k: nat)
    requires Sane(c) && LateBudget(c, f, n, a, k)
    ensures n <= 2 * c.limit - 3 + k
  {
  }

  // ---- Whole runs of moves ----

  function After(c: Ceiling, moves: seq<Move>): Front
  {
    if moves == [] then Front(OPEN_GATE, 0) else MoveStep(c, After(c, moves[..|moves| - 1]), moves[|moves| - 1])
  }

  /** Number of failures recorded in the half-open interval [a, b). */
  function Recorded(c: Ceiling, moves: seq<Move>, a: nat, b: nat): nat
  {
    if moves == [] then 0
    else
      var init, m := moves[..|moves| - 1], moves[|moves| - 1];
      Recorded(c, init, a, b) + if Counts(After(c, init), m, a) && m.at < b then 1 else 0
  }

  predicate InOrder(moves: seq<Move>)
  {
    forall i, j :: 0 <= i < j < |moves| ==> moves[i].at <= moves[j].at
  }

  predicate NoWipe(moves: seq<Move>, a: nat, b: nat)
  {
    forall i :: 0 <= i < |moves| && moves[i].Wipe? ==> !(a <= moves[i].at < b)
  }

  ghost predicate AtMostInside(c: Ceiling, moves: seq<Move>, k: nat)
  {
    forall i :: 0 <= i <= |moves| ==> After(c, moves[..i]).inside <= k
  }

  lemma MovesPrefix(c: Ceiling, moves: seq<Move>, a: nat, b: nat, k: nat)
    requires moves != [] && InOrder(moves) && NoWipe(moves, a, b) && AtMostInside(c, moves, k)
    ensures var init := moves[..|moves| - 1]; InOrder(init) && NoWipe(init, a, b) && AtMostInside(c, init, k)
    ensures After(c, moves).inside <= k
  {
    var init := moves[..|moves| - 1];
    forall i | 0 <= i <= |init| ensures After(c, init[..i]).inside <= k {
      assert init[..i] == moves[..i];
    }
    assert moves[..|moves|] == moves;
  }

  lemma {:induction false} LateBudgetHolds(c: Ceiling, moves: seq<Move>, a: nat, b: nat, k: nat)
    requires Sane(c) && b == a + c.windowSec * 1000
    requires InOrder(moves) && NoWipe(moves, a, b) && AtMostInside(c, moves, k)
    requires moves != [] ==> moves[|moves| - 1].at < b
    ensures LateBudget(c, After(c, moves), Recorded(c, moves, a, b), a, k)
    ensures Recorded(c, moves, a, b) > 0 ==> a <= moves[|moves| - 1].at
    decreases |moves|
  {
    if moves != [] {
      var init, m := moves[..|moves| - 1], moves[|moves| - 1];
      MovesPrefix(c, moves, a, b, k);
      LateBudgetHolds(c, init, a, b, k);
      LateBudgetStep(c, After(c, init), Recorded(c, init, a, b), m, a, k);
    }
  }

  /**
    The rate bound under overlap: with at most k attempts under way at any time, any half-open interval
    one window long without a clearing holds at most 2L - 3 + k failures. With k = 1, that is 2L - 2.
   */
  lemma {:induction false} OverlapBound(c: Ceiling, moves: seq<Move>, a: nat, b: nat, k: nat)
    requires Sane(c) && b == a + c.windowSec * 1000
    requires InOrder(moves) && NoWipe(moves, a, b) && AtMostInside(c, moves, k)
    ensures Recorded(c, moves, a, b) <= 2 * c.limit - 3 + k
    decreases |moves|
  {
    if moves != [] {
      if moves[|moves| - 1].at < b {
        LateBudgetHolds(c, moves, a, b, k);
        LateBudgetBounds(c, After(c, moves), Recorded(c, moves, a, b), a, k);
      } else {
        MovesPrefix(c, moves, a, b, k);
        OverlapBound(c, moves[..|moves| - 1], a, b, k);
      }
    }
  }

  // ---- The bound is reached ----

  /** Moves in order up to time t, never more than k inside, that lead to front f with n failures in [a, b). */
  ghost predicate Leads(c: Ceiling, moves: seq<Move>, t: nat, f: Front, n: nat, a: nat, b: nat, k: nat)
  {
    && InOrder(moves) && (forall i :: 0 <= i < |moves| ==> moves[i].at <= t && !moves[i].Wipe?)
    && AtMostInside(c, moves, k) && After(c, moves) == f && Recorded(c, moves, a, b) == n
  }

  lemma OneMove(c: Ceiling, moves: seq<Move>, t: nat, f: Front, n: nat, a: nat, b: nat, k: nat, m: Move)
    requires Leads(c, moves, t, f, n, a, b, k) && t <= m.at && !m.Wipe? && MoveStep(c, f, m).inside <= k
    ensures Leads(c, moves + [m], m.at, MoveStep(c, f, m), n + if Counts(f, m, a) && m.at < b then 1 else 0, a, b, k)
  {
    var all := moves + [m];
    assert all[..|moves|] == moves;
    forall i | 0 <= i <= |all| ensures After(c, all[..i]).inside <= k {
      assert i <= |moves| ==> all[..i] == moves[..i];
      assert i == |all| ==> all[..i] == all;
    }
  }

  /** An attempt that overlaps with no other. */
  lemma OneAttempt(c: Ceiling, moves: seq<Move>, t: nat, g: Gate, n: nat, a: nat, b: nat, k: nat, at: nat)
    returns (all: seq<Move>)
    requires Leads(c, moves, t, Front(g, 0), n, a, b, k) && t <= at && !Locked(g, at) && 1 <= k
    ensures Leads(c, all, at, Front(GateStep(c, g, Fail(at)), 0), n + if a <= at < b then 1 else 0, a, b, k)
  {
    OneMove(c, moves, t, Front(g, 0), n, a, b, k, Enter(at));
    OneMove(c, moves + [Enter(at)], at, Front(g, 1), n, a, b, k, Record(at));
    all := moves + [Enter(at)] + [Record(at)];
  }

  /** Admitted failures one after another are such attempts. */
  lemma {:induction false} Serially(c: Ceiling, evs: seq<Event>, t: nat, g: Gate, n: nat, a: nat, b: nat, k: nat)
    returns (moves: seq<Move>)
    requires Reaches(c, evs, t, g, n, a, b) && 1 <= k
    ensures Leads(c, moves, t, Front(g, 0), n, a, b, k)
    decreases |evs|
  {
    if evs == [] {
      moves := [];
    } else {
      var init, e := evs[..|evs| - 1], evs[|evs| - 1];
      Prefixes(c, evs);
      assert AdmittedAt(c, evs, |init|);
      var before := Serially(c, init, e.at, GateAfter(c, init), Fails(init, a, b), a, b, k);
      moves := OneAttempt(c, before, e.at, GateAfter(c, init), Fails(init, a, b), a, b, k, e.at);
    }
  }

  lemma {:induction false} EnterMany(c: Ceiling, moves: seq<Move>, t: nat, g: Gate, n: nat, a: nat, b: nat, k: nat,
                                     inside: nat, more: nat)
    returns (all: seq<Move>)
    requires Leads(c, moves, t, Front(g, inside), n, a, b, k) && !Locked(g, t) && inside + more <= k
    ensures Leads(c, all, t, Front(g, inside + more), n, a, b, k)
    decreases more
  {
    all := moves;
    if more > 0 {
      OneMove(c, moves, t, Front(g, inside), n, a, b, k, Enter(t));
      all := EnterMany(c, moves + [Enter(t)], t, g, n, a, b, k, inside + 1, more - 1);
    }
  }

  lemma {:induction false} RecordMany(c: Ceiling, moves: seq<Move>, t: nat, f: Front, n: nat, a: nat, b: nat, k: nat)
    returns (all: seq<Move>, f': Front)
    requires Leads(c, moves, t, f, n, a, b, k) && a <= t < b
    ensures Leads(c, all, t, f', n + f.inside, a, b, k)
    decreases f.inside
  {
    all, f' := moves, f;
    if f.inside > 0 {
      OneMove(c, moves, t, f, n, a, b, k, Record(t));
      all, f' := RecordMany(c, moves + [Record(t)], t, MoveStep(c, f, Record(t)), n + 1, a, b, k);
    }
  }

  /** The bound is reached, whatever the ceiling and the number of attempts under way. */
  lemma OverlapBoundIsTight(c: Ceiling, k: nat) returns (moves: seq<Move>, a: nat)
    requires Sane(c) && 1 <= k
    ensures InOrder(moves) && NoWipe(moves, a, a + c.windowSec * 1000) && AtMostInside(c, moves, k)
    ensures Recorded(c, moves, a, a + c.windowSec * 1000) == 2 * c.limit - 3 + k
  {
    var w := c.windowSec * 1000;
    a := 1;
    var g := Gate(Some(Count(c.limit - 1, w)), -1);
    var early := FirstWindow(c, w);
    var late := SecondWindow(c, w, early);
    var before := Serially(c, late, w, g, 2 * c.limit - 3, 1, 1 + w, k);
    var entered := EnterMany(c, before, w, g, 2 * c.limit - 3, 1, 1 + w, k, 0, k);
    var f;
    moves, f := RecordMany(c, entered, w, Front(g, k), 2 * c.limit - 3, 1, 1 + w, k);
  }
}
