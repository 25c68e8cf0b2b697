/**
  One lockout ceiling in isolation: a windowed failure counter with a lock.
  The theory is stated once for any limit, window and lock duration.
 */
module LockoutGate {
  import opened Prelude

  datatype Ceiling = Ceiling(limit: nat, windowSec: nat, lockSec: nat)

  datatype Count = Count(n: nat, since: nat)

  /** `until` is the last locked instant, -1 when no lock was ever armed. */
  datatype Gate = Gate(counter: Option<Count>, until: int)

  const OPEN_GATE := Gate(None, -1)

  datatype Event = Fail(at: nat) | Clear(at: nat)

  predicate Locked(g: Gate, now: nat)
  {
    now <= g.until
  }

  /** The counter after one more failure: it restarts once its window has elapsed. */
  function Bumped(c: Ceiling, g: Gate, now: nat): Count
  {
    if g.counter.Some? && now - g.counter.value.since < c.windowSec * 1000
    then Count(g.counter.value.n + 1, g.counter.value.since)
    else Count(1, now)
  }

  /** Reaching the limit arms the lock and forgets the counter. */
  function GateStep(c: Ceiling, g: Gate, e: Event): Gate
  {
    match e
    case Clear(_) => g.(counter := None)
    case Fail(now) =>
      var b := Bumped(c, g, now);
      if b.n >= c.limit then Gate(None, now + c.lockSec * 1000) else g.(counter := Some(b))
  }

  function GateAfter(c: Ceiling, evs: seq<Event>): Gate
  {
    if evs == [] then OPEN_GATE else GateStep(c, GateAfter(c, evs[..|evs| - 1]), evs[|evs| - 1])
  }

  predicate Ordered(evs: seq<Event>)
  {
    forall i, j :: 0 <= i < j < |evs| ==> evs[i].at <= evs[j].at
  }

  predicate AdmittedAt(c: Ceiling, evs: seq<Event>, i: nat)
    requires i < |evs|
  {
    evs[i].Fail? ==> !Locked(GateAfter(c, evs[..i]), evs[i].at)
  }

  /** Every failure happened while the gate was not locked. */
  ghost predicate Admitted(c: Ceiling, evs: seq<Event>)
  {
    forall i :: 0 <= i < |evs| ==> AdmittedAt(c, evs, i)
  }

  /** Number of failures in the half-open interval [a, b). */
  function Fails(evs: seq<Event>, a: nat, b: nat): nat
  {
    if evs == [] then 0
    else
      var e := evs[|evs| - 1];
      Fails(evs[..|evs| - 1], a, b) + if e.Fail? && a <= e.at < b then 1 else 0
  }

  predicate NoClear(evs: seq<Event>, a: nat, b: nat)
  {
    forall i :: 0 <= i < |evs| && evs[i].Clear? ==> !(a <= evs[i].at < b)
  }

  ghost predicate Sane(c: Ceiling)
  {
    c.limit >= 2 && c.windowSec > 0 && c.lockSec >= c.windowSec
  }

  /** What `n` failures inside [a, a + window) say about the gate. */
  ghost predicate Budget(c: Ceiling, g: Gate, n: nat, a: nat)
  {
    match g.counter
    case None => n == 0 || (n <= 2 * c.limit - 2 && g.until >= a + c.windowSec * 1000)
    case Some(Count(k, since)) =>
      && 1 <= k < c.limit
      && (since < a ==> n <= k - 1)
      && n <= c.limit - 2 + k
  }

  lemma Prefixes(c: Ceiling, evs: seq<Event>)
    requires evs != [] && Ordered(evs) && Admitted(c, evs)
    ensures Ordered(evs[..|evs| - 1]) && Admitted(c, evs[..|evs| - 1])
  {
    var init := evs[..|evs| - 1];
    forall i | 0 <= i < |init| ensures AdmittedAt(c, init, i) {
      assert AdmittedAt(c, evs, i) && init[..i] == evs[..i];
    }
  }

  lemma BudgetStep(c: Ceiling, g: Gate, n: nat, a: nat, e: Event)
    requires Sane(c) && Budget(c, g, n, a) && e.at < a + c.windowSec * 1000
    requires e.Fail? ==> !Locked(g, e.at)
    requires e.Clear? || e.at < a ==> n == 0
    ensures Budget(c, GateStep(c, g, e), n + if e.Fail? && a <= e.at then 1 else 0, a)
  {
  }

  lemma {:induction false} BudgetHolds(c: Ceiling, evs: seq<Event>, a: nat)
    requires Sane(c) && Ordered(evs) && Admitted(c, evs) && NoClear(evs, a, a + c.windowSec * 1000)
    requires evs != [] ==> evs[|evs| - 1].at < a + c.windowSec * 1000
    ensures Budget(c, GateAfter(c, evs), Fails(evs, a, a + c.windowSec * 1000), a)
    ensures Fails(evs, a, a + c.windowSec * 1000) > 0 ==> a <= evs[|evs| - 1].at
    decreases |evs|
  {
    if evs != [] {
      var init, e := evs[..|evs| - 1], evs[|evs| - 1];
      Prefixes(c, evs);
      BudgetHolds(c, init, a);
      assert AdmittedAt(c, evs, |init|);
      BudgetStep(c, GateAfter(c, init), Fails(init, a, a + c.windowSec * 1000), a, e);
    }
  }

  /**
    The rate bound: whatever the run, any half-open interval one window long without a clearing
    holds at most twice the limit minus two failures.
   */
  lemma {:induction false} WindowBound(c: Ceiling, evs: seq<Event>, a: nat)
    requires Sane(c) && Ordered(evs) && Admitted(c, evs) && NoClear(evs, a, a + c.windowSec * 1000)
    ensures Fails(evs, a, a + c.windowSec * 1000) <= 2 * c.limit - 2
    decreases |evs|
  {
    if evs != [] {
      if evs[|evs| - 1].at < a + c.windowSec * 1000 {
        BudgetHolds(c, evs, a);
      } else {
        Prefixes(c, evs);
        WindowBound(c, evs[..|evs| - 1], a);
      }
    }
  }

  // ---- The bound is reached, for every ceiling ----

  lemma AdmittedAppend(c: Ceiling, evs: seq<Event>, e: Event)
    requires Admitted(c, evs) && (e.Fail? ==> !Locked(GateAfter(c, evs), e.at))
    ensures Admitted(c, evs + [e])
    ensures GateAfter(c, evs + [e]) == GateStep(c, GateAfter(c, evs), e)
  {
    var all := evs + [e];
    assert all[..|evs|] == evs;
    forall i | 0 <= i < |all| ensures AdmittedAt(c, all, i) {
      assert i < |evs| ==> AdmittedAt(c, evs, i) && all[..i] == evs[..i];
    }
  }

  lemma FailsAppend(evs: seq<Event>, e: Event, a: nat, b: nat)
    ensures Fails(evs + [e], a, b) == Fails(evs, a, b) + if e.Fail? && a <= e.at < b then 1 else 0
  {
    assert (evs + [e])[..|evs|] == evs;
  }

  ghost predicate FailuresUpTo(evs: seq<Event>, t: nat)
  {
    Ordered(evs) && forall i :: 0 <= i < |evs| ==> evs[i].Fail? && evs[i].at <= t
  }

  /** Admitted failures up to time t, `n` of them in [a, b), that brought the gate to `g`. */
  ghost predicate Reaches(c: Ceiling, evs: seq<Event>, t: nat, g: Gate, n: nat, a: nat, b: nat)
  {
    FailuresUpTo(evs, t) && Admitted(c, evs) && GateAfter(c, evs) == g && Fails(evs, a, b) == n
  }

  lemma OneMore(c: Ceiling, evs: seq<Event>, t: nat, g: Gate, n: nat, a: nat, b: nat, now: nat)
    requires Reaches(c, evs, t, g, n, a, b) && t <= now && !Locked(g, now)
    ensures Reaches(c, evs + [Fail(now)], now, GateStep(c, g, Fail(now)), n + if a <= now < b then 1 else 0, a, b)
  {
    AdmittedAppend(c, evs, Fail(now));
    FailsAppend(evs, Fail(now), a, b);
  }

  /** Failures at one instant within the interval that stay below the limit. */
  lemma {:induction false} Burst(c: Ceiling, evs: seq<Event>, t: nat, k: nat, since: nat, n: nat, a: nat, b: nat,
                                 more: nat)
    returns (all: seq<Event>)
    requires Reaches(c, evs, t, Gate(Some(Count(k, since)), -1), n, a, b)
    requires a <= t < b && t - since < c.windowSec * 1000 && k + more < c.limit
    ensures Reaches(c, all, t, Gate(Some(Count(k + more, since)), -1), n + more, a, b)
    decreases more
  {
    all := evs;
    if more > 0 {
      OneMore(c, evs, t, Gate(Some(Count(k, since)), -1), n, a, b, t);
      all := Burst(c, evs + [Fail(t)], t, k + 1, since, n + 1, a, b, more - 1);
    }
  }

  lemma Later(c: Ceiling, evs: seq<Event>, t: nat, g: Gate, n: nat, a: nat, b: nat, later: nat)
    requires Reaches(c, evs, t, g, n, a, b) && t <= later
    ensures Reaches(c, evs, later, g, n, a, b)
  {
  }

  /** One failure at 0 and the rest of the budget but one at the window's last instant. */
  lemma FirstWindow(c: Ceiling, w: nat) returns (evs: seq<Event>)
    requires Sane(c) && w == c.windowSec * 1000
    ensures Reaches(c, evs, w - 1, Gate(Some(Count(c.limit - 1, 0)), -1), c.limit - 2, 1, 1 + w)
  {
    assert Reaches(c, [], 0, OPEN_GATE, 0, 1, 1 + w);
    OneMore(c, [], 0, OPEN_GATE, 0, 1, 1 + w, 0);
    assert GateStep(c, OPEN_GATE, Fail(0)) == Gate(Some(Count(1, 0)), -1);
    var first := [] + [Fail(0)];
    Later(c, first, 0, Gate(Some(Count(1, 0)), -1), 0, 1, 1 + w, w - 1);
    evs := Burst(c, first, w - 1, 1, 0, 0, 1, 1 + w, c.limit - 2);
  }

  /** A full budget when the window has just restarted. */
  lemma SecondWindow(c: Ceiling, w: nat, early: seq<Event>) returns (evs: seq<Event>)
    requires Sane(c) && w == c.windowSec * 1000
    requires Reaches(c, early, w - 1, Gate(Some(Count(c.limit - 1, 0)), -1), c.limit - 2, 1, 1 + w)
    ensures Reaches(c, evs, w, Gate(Some(Count(c.limit - 1, w)), -1), 2 * c.limit - 3, 1, 1 + w)
  {
    var g := Gate(Some(Count(c.limit - 1, 0)), -1);
    OneMore(c, early, w - 1, g, c.limit - 2, 1, 1 + w, w);
    assert GateStep(c, g, Fail(w)) == Gate(Some(Count(1, w)), -1);
    evs := Burst(c, early + [Fail(w)], w, 1, w, c.limit - 1, 1, 1 + w, c.limit - 2);
  }

  /** The bound is reached, whatever the ceiling. */
  lemma WindowBoundIsTight(c: Ceiling) returns (evs: seq<Event>, a: nat)
    requires Sane(c)
    ensures Ordered(evs) && Admitted(c, evs) && NoClear(evs, a, a + c.windowSec * 1000)
    ensures Fails(evs, a, a + c.windowSec * 1000) == 2 * c.limit - 2
  {
    var w := c.windowSec * 1000;
    a := 1;
    var early := FirstWindow(c, w);
    var late := SecondWindow(c, w, early);
    OneMore(c, late, w, Gate(Some(Count(c.limit - 1, w)), -1), 2 * c.limit - 3, 1, 1 + w, w);
    evs := late + [Fail(w)];
  }

  /** Between events a stored count is at least 1 and strictly below its limit. */
  lemma CountBelowLimit(c: Ceiling, evs: seq<Event>)
    ensures var g := GateAfter(c, evs); g.counter.Some? ==> 1 <= g.counter.value.n < c.limit
  {
  }

  lemma {:induction false} UntilBounded(c: Ceiling, evs: seq<Event>)
    requires Ordered(evs)
    ensures GateAfter(c, evs).until <= if evs == [] then -1 else evs[|evs| - 1].at + c.lockSec * 1000
  {
    if evs != [] {
      UntilBounded(c, evs[..|evs| - 1]);
    }
  }

  /** No event shortens a lock. */
  lemma {:induction false} LockNeverShortens(c: Ceiling, evs: seq<Event>, more: seq<Event>)
    requires Ordered(evs + more)
    ensures GateAfter(c, evs).until <= GateAfter(c, evs + more).until
    decreases |more|
  {
    if more == [] {
      assert evs + more == evs;
    } else {
      var all := evs + more;
      var init := evs + more[..|more| - 1];
      assert all[..|all| - 1] == init;
      assert Ordered(init);
      LockNeverShortens(c, evs, more[..|more| - 1]);
      UntilBounded(c, init);
    }
  }

  /**
    Lock persistence: once a failure at time t arms the lock, the gate reports locked at every
    instant up to t plus the full duration, whatever failures and clearings follow.
   */
  lemma ArmedLockPersists(c: Ceiling, evs: seq<Event>, t: nat, more: seq<Event>, now: nat)
    requires Ordered(evs + [Fail(t)] + more)
    requires Bumped(c, GateAfter(c, evs), t).n >= c.limit
    requires now <= t + c.lockSec * 1000
    ensures Locked(GateAfter(c, evs + [Fail(t)] + more), now)
  {
    var armed := evs + [Fail(t)];
    assert armed[..|armed| - 1] == evs;
    LockNeverShortens(c, armed, more);
  }
}
