/**
  The circuit breaker of one port with any number of calls in flight. A call starts at the gate of
  `execute`, and its completion is recorded whenever it arrives. Rates are exact rationals.
 */
module CircuitBreaker {

  datatype Mode = Closed | Opened | HalfOpen

  /** Zero stands for an option left out; `Or` supplies the default. */
  datatype Options = Options(errorThreshold: nat, minRequests: nat, resetTimeout: nat, timeout: nat)

  function Or(n: nat, default: nat): nat { if n == 0 then default else n }

  function MinRequests(o: Options): nat { Or(o.minRequests, 10) }
  function ResetTimeout(o: Options): nat { Or(o.resetTimeout, 30000) }
  function TimeWindow(o: Options): nat { Or(o.timeout, 60000) }

  datatype Breaker = Breaker(mode: Mode, changedAt: nat, requests: nat, failures: nat, successCount: nat,
                             failureCount: nat)

  // ---- The state machine ----

  function Initial(now: nat): Breaker { Breaker(Closed, now, 0, 0, 0, 0) }

  /** Failure rate at or above the threshold, as percentages. */
  predicate RateReached(o: Options, b: Breaker)
  {
    b.requests > 0 && 100 * b.failures >= Or(o.errorThreshold, 50) * b.requests
  }

  predicate ShouldOpen(o: Options, b: Breaker)
  {
    b.mode != Opened && b.requests >= MinRequests(o) && RateReached(o, b)
  }

  predicate ShouldAttemptReset(o: Options, b: Breaker, now: nat)
  {
    b.mode == Opened && now - b.changedAt >= ResetTimeout(o)
  }

  function Open(b: Breaker, now: nat): Breaker { b.(mode := Opened, changedAt := now) }
  function Close(b: Breaker, now: nat): Breaker { Breaker(Closed, now, 0, 0, 0, 0) }
  function ToHalfOpen(b: Breaker, now: nat): Breaker { Breaker(HalfOpen, now, 0, 0, 0, 0) }

  function CleanupOldRequests(o: Options, b: Breaker, now: nat): Breaker
  {
    if now - b.changedAt > TimeWindow(o)
    then b.(requests := b.successCount, failures := b.failureCount, changedAt := now)
    else b
  }

  function RecordSuccess(o: Options, b: Breaker, now: nat): Breaker
  {
    var b1 := b.(requests := b.requests + 1, successCount := b.successCount + 1);
    CleanupOldRequests(o, if b1.mode == HalfOpen then Close(b1, now) else b1, now)
  }

  /** `counted`: the error filter lets the error through. */
  function RecordFailure(o: Options, b: Breaker, counted: bool, now: nat): Breaker
  {
    if !counted then b
    else
      var b1 := b.(requests := b.requests + 1, failures := b.failures + 1, failureCount := b.failureCount + 1);
      CleanupOldRequests(o, if b1.mode == HalfOpen then Open(b1, now) else b1, now)
  }

  class CircuitBreakerState {
    const options: Options
    var mode: Mode
    var changedAt: nat
    var requests: nat
    var failures: nat
    var successCount: nat
    var failureCount: nat

    function Value(): Breaker
      reads this
    {
      Breaker(mode, changedAt, requests, failures, successCount, failureCount)
    }

    constructor (options: Options, now: nat)
      ensures this.options == options && Value() == Initial(now)
    {
      this.options := options;
      mode, changedAt, requests, failures, successCount, failureCount := Closed, now, 0, 0, 0, 0;
    }

    method ResetMetrics()
      modifies this
      ensures Value() == old(Value()).(requests := 0, failures := 0, successCount := 0, failureCount := 0)
    {
      requests, failures, successCount, failureCount := 0, 0, 0, 0;
    }

    method OpenCircuit(now: nat)
      modifies this
      ensures Value() == Open(old(Value()), now)
    {
      mode, changedAt := Opened, now;
    }

    method CloseCircuit(now: nat)
      modifies this
      ensures Value() == Close(old(Value()), now)
    {
      mode, changedAt := Closed, now;
      ResetMetrics();
    }

    method HalfOpenCircuit(now: nat)
      modifies this
      ensures Value() == ToHalfOpen(old(Value()), now)
    {
      mode, changedAt := HalfOpen, now;
      ResetMetrics();
    }

    method Cleanup(now: nat)
      modifies this
      ensures Value() == CleanupOldRequests(options, old(Value()), now)
    {
      if now - changedAt > TimeWindow(options) {
        requests := successCount;
        failures := failureCount;
        changedAt := now;
      }
    }

    method OnSuccess(now: nat)
      modifies this
      ensures Value() == RecordSuccess(options, old(Value()), now)
    {
      requests := requests + 1;
      successCount := successCount + 1;
      if mode == HalfOpen {
        CloseCircuit(now);
      }
      Cleanup(now);
    }

    method OnFailure(counted: bool, now: nat)
      modifies this
      ensures Value() == RecordFailure(options, old(Value()), counted, now)
    {
      if !counted {
        return;
      }
      requests := requests + 1;
      failures := failures + 1;
      failureCount := failureCount + 1;
      if mode == HalfOpen {
        OpenCircuit(now);
      }
      Cleanup(now);
    }
  }

  // ---- Runs: calls start and complete in any order ----

  datatype Step = Start(now: nat) | Succeed(now: nat) | Fail(counted: bool, now: nat)

  /** Does the gate of `execute` let this start reach the adapter? */
  predicate Admits(o: Options, b: Breaker, now: nat)
  {
    b.mode != Opened || ShouldAttemptReset(o, b, now)
  }

  function Next(o: Options, b: Breaker, s: Step): Breaker
  {
    match s
    case Start(now) => if ShouldAttemptReset(o, b, now) then ToHalfOpen(b, now) else b
    case Succeed(now) => RecordSuccess(o, b, now)
    case Fail(counted, now) =>
      var b1 := RecordFailure(o, b, counted, now);
      if ShouldOpen(o, b1) then Open(b1, now) else b1
  }

  function Run(o: Options, b: Breaker, steps: seq<Step>): Breaker
    decreases |steps|
  {
    if steps == [] then b else Next(o, Run(o, b, steps[..|steps| - 1]), steps[|steps| - 1])
  }

  predicate Timed(clock: nat, steps: seq<Step>)
  {
    && (forall i :: 0 <= i < |steps| ==> clock <= steps[i].now)
    && (forall i, j :: 0 <= i < j < |steps| ==> steps[i].now <= steps[j].now)
  }

  // ---- The open period ----

  /**
    While open, a late completion keeps the breaker open. It never moves the opening earlier, and moves it
    to its own time exactly if it is counted and the time window has passed.
   */
  lemma LateCompletionsOnlyLengthen(o: Options, b: Breaker, s: Step)
    requires b.mode == Opened && b.changedAt <= s.now && !(s.Start? && ShouldAttemptReset(o, b, s.now))
    ensures var b' := Next(o, b, s);
            && b'.mode == Opened && b.changedAt <= b'.changedAt <= s.now
            && b'.changedAt == if && (s.Succeed? || (s.Fail? && s.counted))
                                  && s.now - b.changedAt > (if o.timeout == 0 then 60_000 else o.timeout)
                               then s.now else b.changedAt
  {
  }

  /** OPEN is left only by an admitted start, to HALF_OPEN. */
  lemma OpenLeftOnlyThroughHalfOpen(o: Options, b: Breaker, s: Step)
    requires b.mode == Opened && b.changedAt <= s.now && Next(o, b, s).mode != Opened
    ensures s.Start? && Next(o, b, s).mode == HalfOpen
    ensures s.now >= b.changedAt + if o.resetTimeout == 0 then 30_000 else o.resetTimeout
  {
  }

  /** Step i tripped the breaker (or re-tripped it from HALF_OPEN). */
  predicate Trips(o: Options, b: Breaker, steps: seq<Step>, i: nat)
    requires i < |steps|
  {
    Run(o, b, steps[..i]).mode != Opened && Run(o, b, steps[..i + 1]).mode == Opened
  }

  lemma {:induction false} ChangedAtNotInFuture(o: Options, b: Breaker, steps: seq<Step>)
    requires Timed(b.changedAt, steps)
    ensures Run(o, b, steps).changedAt <= if steps == [] then b.changedAt else steps[|steps| - 1].now
    decreases |steps|
  {
    if steps != [] {
      ChangedAtNotInFuture(o, b, steps[..|steps| - 1]);
    }
  }

  /** After a trip at time t, until t + resetTimeout the breaker is open with a later opening time. */
  lemma {:induction false} StaysOpen(o: Options, b: Breaker, steps: seq<Step>, i: nat, j: nat)
    requires Timed(b.changedAt, steps) && i < j <= |steps| && Trips(o, b, steps, i)
    requires steps[j - 1].now < steps[i].now + ResetTimeout(o)
    ensures var r := Run(o, b, steps[..j]); r.mode == Opened && steps[i].now <= r.changedAt <= steps[j - 1].now
    decreases j
  {
    assert steps[..j][..j - 1] == steps[..j - 1];
    ChangedAtNotInFuture(o, b, steps[..j - 1]);
    if j > i + 1 {
      StaysOpen(o, b, steps, i, j - 1);
      LateCompletionsOnlyLengthen(o, Run(o, b, steps[..j - 1]), steps[j - 1]);
    }
  }

  /**
    Under every interleaving of starts and late completions: after a trip at step i, no start before
    step i's time plus the reset timeout reaches the adapter.
   */
  lemma NoCallUntilResetTimeout(o: Options, b: Breaker, steps: seq<Step>, i: nat, j: nat)
    requires Timed(b.changedAt, steps) && i < j < |steps| && Trips(o, b, steps, i)
    requires steps[j].Start? && Admits(o, Run(o, b, steps[..j]), steps[j].now)
    ensures steps[j].now >= steps[i].now + if o.resetTimeout == 0 then 30_000 else o.resetTimeout
  {
    if steps[j].now < steps[i].now + ResetTimeout(o) {
      StaysOpen(o, b, steps, i, j);
    }
  }

  // ---- The counters ----

  /** Outcomes recorded since the metrics were last reset. */
  datatype Tally = Tally(successes: nat, countedFailures: nat)

  /** Counts outcomes from the history alone; a reset happens on entering HALF_OPEN and on its success. */
  function TallyOf(o: Options, b: Breaker, steps: seq<Step>): Tally
    decreases |steps|
  {
    if steps == [] then Tally(0, 0)
    else
      var before := Run(o, b, steps[..|steps| - 1]);
      var t := TallyOf(o, b, steps[..|steps| - 1]);
      match steps[|steps| - 1]
      case Start(now) => if ShouldAttemptReset(o, before, now) then Tally(0, 0) else t
      case Succeed(_) => if before.mode == HalfOpen then Tally(0, 0) else t.(successes := t.successes + 1)
      case Fail(counted, _) => if counted then t.(countedFailures := t.countedFailures + 1) else t
  }

  ghost predicate CountersOk(b: Breaker, t: Tally)
  {
    && b.failures == b.failureCount == t.countedFailures
    && b.successCount == t.successes
    && b.successCount <= b.requests <= b.successCount + b.failureCount
    && (b.mode == HalfOpen ==> t == Tally(0, 0))
  }

  /** Over every run the counters keep their relations and count exactly the recorded outcomes. */
  lemma {:induction false} CountersCountOutcomes(o: Options, start: nat, steps: seq<Step>)
    ensures CountersOk(Run(o, Initial(start), steps), TallyOf(o, Initial(start), steps))
    decreases |steps|
  {
    if steps != [] {
      CountersCountOutcomes(o, start, steps[..|steps| - 1]);
    }
  }

  /**
    A trip out of CLOSED comes with at least the minimum number of outcomes since the last reset,
    a counted failure among them; `shouldOpen` never holds in HALF_OPEN, where only a counted
    failure opens.
   */
  lemma TripNeedsOutcomes(o: Options, start: nat, steps: seq<Step>, s: Step)
    requires var b := Run(o, Initial(start), steps);
             b.mode == Closed && Next(o, b, s).mode == Opened
    ensures s.Fail?
    ensures var t := TallyOf(o, Initial(start), steps + [s]);
            t.countedFailures >= 1 && t.successes + t.countedFailures >= MinRequests(o)
  {
    var all := steps + [s];
    assert all[..|steps|] == steps;
    CountersCountOutcomes(o, start, all);
    CountersCountOutcomes(o, start, steps);
    var b := Run(o, Initial(start), steps);
    var b1 := RecordFailure(o, b, s.counted, s.now);
    assert RateReached(o, b1);
  }

  /** Counted failures since the metrics were reset or the window rolled, whichever came later. */
  function Recent(o: Options, b: Breaker, steps: seq<Step>): nat
    decreases |steps|
  {
    if steps == [] then 0
    else
      var before := Run(o, b, steps[..|steps| - 1]);
      var last := steps[|steps| - 1];
      var n := Recent(o, b, steps[..|steps| - 1]);
      if last.Start? then if ShouldAttemptReset(o, before, last.now) then 0 else n
      else if last.Fail? && !last.counted then n
      else if before.mode == HalfOpen || last.now - before.changedAt > (if o.timeout == 0 then 60_000 else o.timeout)
      then 0
      else if last.Fail? then n + 1
      else n
  }

  /** Outside OPEN, requests are the successes since the reset and the failures since the last roll. */
  lemma {:induction false} RequestsCounted(o: Options, start: nat, steps: seq<Step>)
    ensures var b := Run(o, Initial(start), steps);
            b.mode != Opened ==>
              b.requests == TallyOf(o, Initial(start), steps).successes + Recent(o, Initial(start), steps)
    decreases |steps|
  {
    if steps != [] {
      RequestsCounted(o, start, steps[..|steps| - 1]);
      CountersCountOutcomes(o, start, steps[..|steps| - 1]);
    }
  }

  /**
    The trip, exactly: a failure in CLOSED opens the breaker if and only if the requests the history
    leaves reach the minimum and the failures since the reset reach the threshold percentage of them.
    It need not be a counted one.
   */
  lemma TripExactly(o: Options, start: nat, steps: seq<Step>, counted: bool, now: nat)
    requires Run(o, Initial(start), steps).mode == Closed
    ensures var all := steps + [Fail(counted, now)];
            var t := TallyOf(o, Initial(start), all);
            var requests := t.successes + Recent(o, Initial(start), all);
            Run(o, Initial(start), all).mode == Opened
            <==> (&& requests >= (if o.minRequests == 0 then 10 else o.minRequests)
                  && 100 * t.countedFailures >= (if o.errorThreshold == 0 then 50 else o.errorThreshold) * requests)
  {
    var all := steps + [Fail(counted, now)];
    assert all[..|steps|] == steps;
    var b := Run(o, Initial(start), steps);
    var b1 := RecordFailure(o, b, counted, now);
    CountersCountOutcomes(o, start, steps);
    RequestsCounted(o, start, steps);
  }

  /** An error that the filter keeps out of the counts can open the breaker: successes are never checked. */
  lemma FilteredErrorCanTrip()
    ensures var steps := [Fail(true, 1), Succeed(2)];
            && Run(Options(50, 2, 0, 0), Initial(0), steps).mode == Closed
            && Run(Options(50, 2, 0, 0), Initial(0), steps + [Fail(false, 3)]).mode == Opened
  {
    var o, steps := Options(50, 2, 0, 0), [Fail(true, 1), Succeed(2)];
    assert steps[..1] == [Fail(true, 1)] && steps[..1][..0] == [];
    assert Run(o, Initial(0), steps[..1]) == Next(o, Initial(0), Fail(true, 1));
    assert (steps + [Fail(false, 3)])[..2] == steps;
  }

  /** Successes and counted failures. */
  function Outcomes(steps: seq<Step>): nat
  {
    if steps == [] then 0
    else
      var last := steps[|steps| - 1];
      Outcomes(steps[..|steps| - 1]) + if last.Succeed? || (last.Fail? && last.counted) then 1 else 0
  }

  lemma {:induction false} FewOutcomesStayClosed(o: Options, b: Breaker, more: seq<Step>)
    requires b == Breaker(Closed, b.changedAt, 0, 0, 0, 0)
    requires Outcomes(more) < if o.minRequests == 0 then 10 else o.minRequests
    ensures var b' := Run(o, b, more); b'.mode == Closed && b'.successCount <= b'.requests <= Outcomes(more)
    decreases |more|
  {
    if more != [] {
      FewOutcomesStayClosed(o, b, more[..|more| - 1]);
    }
  }

  /**
    A probe that succeeds closes the breaker with all counters at zero, and fewer outcomes than the
    minimum, whatever they are, leave it closed.
   */
  lemma ProbeSuccessCloses(o: Options, start: nat, steps: seq<Step>, now: nat, more: seq<Step>)
    requires Run(o, Initial(start), steps).mode == HalfOpen
    requires Outcomes(more) < if o.minRequests == 0 then 10 else o.minRequests
    ensures var all := steps + [Succeed(now)];
            && Run(o, Initial(start), all).mode == Closed
            && TallyOf(o, Initial(start), all) == Tally(0, 0)
            && Run(o, Initial(start), all + more).mode == Closed
  {
    var all := steps + [Succeed(now)];
    assert all[..|steps|] == steps;
    RunConcat(o, Initial(start), all, more);
    FewOutcomesStayClosed(o, Run(o, Initial(start), all), more);
  }

  lemma {:induction false} RunConcat(o: Options, b: Breaker, steps: seq<Step>, more: seq<Step>)
    ensures Run(o, b, steps + more) == Run(o, Run(o, b, steps), more)
    decreases |more|
  {
    if more == [] {
      assert steps + more == steps;
    } else {
      assert (steps + more)[..|steps| + |more| - 1] == steps + more[..|more| - 1];
      RunConcat(o, b, steps, more[..|more| - 1]);
    }
  }

  lemma {:induction false} HalfOpenNeverTripsByRate(o: Options, start: nat, steps: seq<Step>)
    requires Run(o, Initial(start), steps).mode == HalfOpen
    ensures !ShouldOpen(o, Run(o, Initial(start), steps))
  {
    CountersCountOutcomes(o, start, steps);
  }

  // ---- Where the code and its comments part ----

  predicate AllStarts(steps: seq<Step>)
  {
    forall i :: 0 <= i < |steps| ==> steps[i].Start?
  }

  /**
    "Allow single probe": in every HALF_OPEN state any number of starts is admitted, one after
    another, and none of them changes the state; only a completion leaves it.
   */
  lemma {:induction false} HalfOpenAdmitsEveryStart(o: Options, b: Breaker, steps: seq<Step>, now: nat)
    requires b.mode == HalfOpen && AllStarts(steps)
    ensures Run(o, b, steps) == b && Admits(o, Run(o, b, steps), now)
    decreases |steps|
  {
    if steps != [] {
      assert AllStarts(steps[..|steps| - 1]);
      HalfOpenAdmitsEveryStart(o, b, steps[..|steps| - 1], now);
    }
  }

  /** Exactly: two starts in a row are both admitted unless the breaker is open and must stay so. */
  lemma TwoProbesAdmittedExactly(o: Options, b: Breaker, t1: nat, t2: nat)
    requires b.changedAt <= t1 <= t2
    ensures Admits(o, b, t1) && Admits(o, Next(o, b, Start(t1)), t2)
            <==> !(b.mode == Opened && t1 < b.changedAt + if o.resetTimeout == 0 then 30_000 else o.resetTimeout)
  {
  }

  /** Such a state is reached: one counted failure, then a start after the reset timeout. */
  lemma HalfOpenIsReachable()
    ensures Run(Options(50, 1, 10, 0), Initial(0), [Fail(true, 0), Start(10)]).mode == HalfOpen
  {
  }

  /** "Reset metrics for new window": a window roll forgets no failure, only failed requests. */
  lemma WindowRollForgetsNoFailure(o: Options, start: nat, steps: seq<Step>, now: nat)
    ensures var b := Run(o, Initial(start), steps);
            var b' := CleanupOldRequests(o, b, now);
            b'.failures == b.failures && b'.requests <= b.requests
  {
    CountersCountOutcomes(o, start, steps);
  }
}
