/**
  The binding flow when binds overlap: a bind reads its resolve result and checks the locks, then waits
  for the verification, and settles when the answer comes; meanwhile other binds are asked and settled
  and every other call of the flow may run. Settling is one step.
 */
module BindingOverlap {
  import opened Prelude
  import opened MemoryCache
  import opened LockoutGate
  import opened LockoutOverlap
  import opened BindingKeys
  import opened BindingData
  import opened RateLimiter
  import opened BindingService
  import opened KeyLosses
  import opened BindingRates
  import opened CacheRoom
  import E = BindingEvictions
  import CS = CustomerService

  /** A bind under way; `seen` is how much of the history its lock check saw. */
  datatype Waiting = Waiting(user: string, session: string, ref: string, asked: nat, seen: nat)

  datatype State = State(sys: System, waiting: map<nat, Waiting>)

  datatype Action =
    | Whole(call: Call)                                                   // any other call, at once
    | Ask(tid: nat, user: string, session: string, ref: string, at: nat)
    | Answer(tid: nat, factor: string, verdict: Verdict, at: nat)

  function TimeOf(a: Action): nat
  {
    if a.Whole? then a.call.now else a.at
  }

  function Settled(cfg: Config, sys: System, w: Waiting, factor: string, verdict: Verdict, at: nat): System
  {
    SettleBind(cfg, sys, w.user, w.session, w.ref, factor, verdict, w.asked, at).0
  }

  function Apply(cfg: Config, st: State, a: Action): State
  {
    match a
    case Whole(call) => if call.BindCall? then st else st.(sys := Step(cfg, st.sys, call))
    case Ask(tid, user, session, ref, at) =>
      if tid in st.waiting then st
      else
        var (sys, refused) := AskBind(cfg, st.sys, user, session, ref, at);
        State(sys, if refused.Some? then st.waiting
                   else st.waiting[tid := Waiting(user, session, ref, at, |st.sys.hist|)])
    case Answer(tid, factor, verdict, at) =>
      if tid !in st.waiting then st
      else State(Settled(cfg, st.sys, st.waiting[tid], factor, verdict, at), st.waiting - {tid})
  }

  function Run(cfg: Config, st: State, acts: seq<Action>): State
    decreases |acts|
  {
    if acts == [] then st else Run(cfg, Apply(cfg, st, acts[0]), acts[1..])
  }

  function Start(seeds: seq<CS.Customer>): State
  {
    State(FreshSystem(seeds), map[])
  }

  predicate ProperAction(a: Action)
  {
    match a
    case Whole(call) => Proper(call)
    case Ask(_, user, _, _, _) => ':' !in user
    case Answer(_, _, _, _) => true
  }

  predicate InSequence(clock: nat, acts: seq<Action>)
    decreases |acts|
  {
    acts == [] || (clock <= TimeOf(acts[0]) && ProperAction(acts[0]) && InSequence(TimeOf(acts[0]), acts[1..]))
  }

  function Finish(clock: nat, acts: seq<Action>): nat
    decreases |acts|
  {
    if acts == [] then clock else Finish(TimeOf(acts[0]), acts[1..])
  }

  /** No write of the action evicts the ceiling's running counter or its lock in force. */
  predicate ActionSpares(cfg: Config, st: State, a: Action, id: GateId)
  {
    match a
    case Whole(call) => !call.BindCall? ==> CallSpares(cfg, st.sys, call, id)
    case Ask(_, _, _, _, _) => true
    case Answer(tid, _, verdict, at) =>
      tid in st.waiting ==>
        var w := st.waiting[tid]; SettleSpares(cfg, st.sys.cache, w.user, w.session, w.ref, verdict, at, id)
  }

  predicate ScheduleSpares(cfg: Config, st: State, acts: seq<Action>, id: GateId)
    decreases |acts|
  {
    acts == [] || (ActionSpares(cfg, st, acts[0], id) && ScheduleSpares(cfg, Apply(cfg, st, acts[0]), acts[1..], id))
  }

  // ---- A bind that overlaps with nothing is the bind call ----

  lemma AskThenAnswerIsBind(cfg: Config, sys: System, waiting: map<nat, Waiting>, tid: nat, call: Call)
    requires call.BindCall? && tid !in waiting
    ensures var ask := Ask(tid, call.user, call.session, call.ref, call.now);
            var answer := Answer(tid, call.factor, call.verdict, call.answered);
            Apply(cfg, Apply(cfg, State(sys, waiting), ask), answer) == State(Step(cfg, sys, call), waiting)
  {
    assert waiting[tid := Waiting(call.user, call.session, call.ref, call.now, |sys.hist|)] - {tid} == waiting;
  }

  // ---- The cached ceilings still follow the history ----

  ghost predicate WaitingOk(hist: seq<BindingEvent>, w: Waiting, id: GateId, clock: nat)
  {
    && ':' !in w.user && w.asked <= clock && w.seen <= |hist|
    && (Covers(id, w.user, w.ref) ==> !Locked(GateOf(hist[..w.seen], id), w.asked))
  }

  ghost predicate Timed(hist: seq<BindingEvent>, id: GateId, clock: nat)
  {
    Ordered(Project(hist, id)) && EventsUpTo(Project(hist, id), clock)
  }

  ghost predicate Follows(cfg: Config, st: State, id: GateId, clock: nat)
  {
    && Sim(cfg, st.sys.cache, id, GateOf(st.sys.hist, id), clock)
    && Timed(st.sys.hist, id, clock)
    && forall t :: t in st.waiting ==> WaitingOk(st.sys.hist, st.waiting[t], id, clock)
  }

  lemma TimedAppend(hist: seq<BindingEvent>, e: BindingEvent, id: GateId, clock: nat)
    requires Timed(hist, id, clock) && clock <= e.at
    ensures Timed(hist + [e], id, e.at)
  {
    hide Project, Seen, Ordered, EventsUpTo;
    ProjectAppend(hist, e, id);
    SeenIsTimed(e, id);
    if Seen(e, id) == [] {
      LaterEvents(Project(hist, id), clock, e.at);
      assert Project(hist, id) + [] == Project(hist, id);
    } else {
      EventsAppend(Project(hist, id), Seen(e, id)[0], clock);
    }
  }

  lemma TimedLater(hist: seq<BindingEvent>, id: GateId, clock: nat, now: nat)
    requires Timed(hist, id, clock) && clock <= now
    ensures Timed(hist, id, now)
  {
    LaterEvents(Project(hist, id), clock, now);
  }

  lemma SeenIsTimed(e: BindingEvent, id: GateId)
    ensures var evs := Seen(e, id); evs == [] || (evs == [evs[0]] && evs[0].at == e.at)
  {
  }

  lemma LaterEvents(evs: seq<LockoutGate.Event>, clock: nat, now: nat)
    requires EventsUpTo(evs, clock) && clock <= now
    ensures EventsUpTo(evs, now)
  {
  }

  lemma EventsAppend(evs: seq<LockoutGate.Event>, x: LockoutGate.Event, clock: nat)
    requires Ordered(evs) && EventsUpTo(evs, clock) && clock <= x.at
    ensures Ordered(evs + [x]) && EventsUpTo(evs + [x], x.at)
  {
  }

  /** The history grows by at most one event, of the time of the action. */
  ghost predicate GrowsBy(hist: seq<BindingEvent>, hist': seq<BindingEvent>, e: Option<BindingEvent>, at: nat)
  {
    hist' == (if e.Some? then hist + [e.value] else hist) && (e.Some? ==> e.value.at == at)
  }

  lemma WaitingStays(hist: seq<BindingEvent>, hist': seq<BindingEvent>, e: Option<BindingEvent>, w: Waiting, id: GateId,
                     clock: nat, now: nat)
    requires WaitingOk(hist, w, id, clock) && clock <= now && GrowsBy(hist, hist', e, now)
    ensures WaitingOk(hist', w, id, now)
  {
    assert hist'[..w.seen] == hist[..w.seen];
  }

  lemma WholeKeepsFollows(cfg: Config, st: State, call: Call, id: GateId, clock: nat)
    requires !call.BindCall? && Proper(call) && ColonFreeGate(id) && clock <= call.now
    requires Follows(cfg, st, id, clock) && CallSpares(cfg, st.sys, call, id)
    ensures Follows(cfg, Apply(cfg, st, Whole(call)), id, call.now)
  {
    hide Step, CallSpares, GateOf, Sim, Timed, WaitingOk;
    var g := GateOf(st.sys.hist, id);
    TimePasses(cfg, st.sys.cache, id, g, clock, call.now);
    TimedLater(st.sys.hist, id, clock, call.now);
    OtherCallKeepsSim(cfg, st.sys, call, id, g);
    var e := OtherCallEvent(cfg, st.sys, call);
    if e.Some? {
      GateOfAppend(st.sys.hist, e.value, id);
      TimedAppend(st.sys.hist, e.value, id, clock);
    }
    forall t | t in st.waiting ensures WaitingOk(Step(cfg, st.sys, call).hist, st.waiting[t], id, call.now) {
      WaitingStays(st.sys.hist, Step(cfg, st.sys, call).hist, e, st.waiting[t], id, clock, call.now);
    }
  }

  lemma NewWaitingOk(hist: seq<BindingEvent>, w: Waiting, id: GateId, now: nat)
    requires ':' !in w.user && w.asked == now && w.seen == |hist|
    requires Covers(id, w.user, w.ref) ==> !Locked(GateOf(hist, id), now)
    ensures WaitingOk(hist, w, id, now)
  {
    assert hist[..|hist|] == hist;
  }

  lemma AskKeepsFollows(cfg: Config, st: State, a: Action, id: GateId, clock: nat)
    requires a.Ask? && ':' !in a.user && ColonFreeGate(id) && clock <= a.at && Follows(cfg, st, id, clock)
    ensures Follows(cfg, Apply(cfg, st, a), id, a.at)
  {
    hide AskBind, GateOf, Sim, Timed, Covers, WaitingOk;
    var g, st' := GateOf(st.sys.hist, id), Apply(cfg, st, a);
    TimePasses(cfg, st.sys.cache, id, g, clock, a.at);
    TimedLater(st.sys.hist, id, clock, a.at);
    AskKeepsSim(cfg, st.sys, a.user, a.session, a.ref, a.at, id, g, clock);
    forall t | t in st'.waiting ensures WaitingOk(st'.sys.hist, st'.waiting[t], id, a.at) {
      if t in st.waiting {
        WaitingStays(st.sys.hist, st.sys.hist, None, st.waiting[t], id, clock, a.at);
      } else {
        assert t == a.tid;
        assert AskBind(cfg, st.sys, a.user, a.session, a.ref, a.at).1.None?;
        assert st'.waiting[t] == Waiting(a.user, a.session, a.ref, a.at, |st.sys.hist|);
        NewWaitingOk(st.sys.hist, st'.waiting[t], id, a.at);
      }
    }
  }

  lemma AnswerKeepsFollows(cfg: Config, st: State, a: Action, id: GateId, clock: nat)
    requires a.Answer? && a.tid in st.waiting && ColonFreeGate(id) && clock <= a.at
    requires Follows(cfg, st, id, clock) && ActionSpares(cfg, st, a, id)
    ensures Follows(cfg, Apply(cfg, st, a), id, a.at)
  {
    hide SettleBind, SettleSpares;
    var g, w := GateOf(st.sys.hist, id), st.waiting[a.tid];
    var e := SettleEvent(w.user, w.session, w.ref, a.verdict, w.asked, a.at);
    TimePasses(cfg, st.sys.cache, id, g, clock, a.at);
    SettleKeepsSim(cfg, st.sys, w.user, w.session, w.ref, a.factor, a.verdict, w.asked, a.at, id, g);
    GateOfAppend(st.sys.hist, e, id);
    TimedAppend(st.sys.hist, e, id, clock);
    forall t | t in st.waiting ensures WaitingOk(st.sys.hist + [e], st.waiting[t], id, a.at) {
      WaitingStays(st.sys.hist, st.sys.hist + [e], Some(e), st.waiting[t], id, clock, a.at);
    }
  }

  lemma FollowsLater(cfg: Config, st: State, id: GateId, clock: nat, now: nat)
    requires Follows(cfg, st, id, clock) && clock <= now
    ensures Follows(cfg, st, id, now)
  {
    TimePasses(cfg, st.sys.cache, id, GateOf(st.sys.hist, id), clock, now);
  }

  /** Every step keeps the cached ceilings equal to what the history prescribes. */
  lemma StepKeepsFollows(cfg: Config, st: State, a: Action, id: GateId, clock: nat)
    requires ProperAction(a) && ColonFreeGate(id) && clock <= TimeOf(a)
    requires Follows(cfg, st, id, clock) && ActionSpares(cfg, st, a, id)
    ensures Follows(cfg, Apply(cfg, st, a), id, TimeOf(a))
  {
    hide Step, CallSpares, SettleSpares, AskBind, SettleBind, Follows;
    FollowsLater(cfg, st, id, clock, TimeOf(a));
    match a {
      case Whole(call) => if !call.BindCall? { WholeKeepsFollows(cfg, st, call, id, clock); }
      case Ask(_, _, _, _, _) => AskKeepsFollows(cfg, st, a, id, clock);
      case Answer(tid, _, _, _) => if tid in st.waiting { AnswerKeepsFollows(cfg, st, a, id, clock); }
    }
  }

  lemma {:induction false} RunFollows(cfg: Config, st: State, acts: seq<Action>, id: GateId, clock: nat)
    requires ColonFreeGate(id) && InSequence(clock, acts) && ScheduleSpares(cfg, st, acts, id)
    requires Follows(cfg, st, id, clock)
    ensures Follows(cfg, Run(cfg, st, acts), id, Finish(clock, acts))
    decreases |acts|
  {
    hide Apply, ActionSpares, Follows;
    if acts != [] {
      StepKeepsFollows(cfg, st, acts[0], id, clock);
      RunFollows(cfg, Apply(cfg, st, acts[0]), acts[1..], id, TimeOf(acts[0]));
    }
  }

  // ---- The bound in the number of binds under way ----

  /** The binds under way that the ceiling covers. */
  function Under(st: State, id: GateId): set<nat>
  {
    set t | t in st.waiting && Covers(id, st.waiting[t].user, st.waiting[t].ref)
  }

  function FrontOf(st: State, id: GateId): Front
  {
    Front(GateOf(st.sys.hist, id), |Under(st, id)|)
  }

  /** At every point of the schedule at most k of them. */
  predicate AtMostUnderWay(cfg: Config, st: State, acts: seq<Action>, id: GateId, k: nat)
    decreases |acts|
  {
    |Under(st, id)| <= k && (acts == [] || AtMostUnderWay(cfg, Apply(cfg, st, acts[0]), acts[1..], id, k))
  }

  function VerdictMoves(verdict: Verdict, at: nat, id: GateId): seq<Move>
  {
    if verdict.Refused? then [Record(at)]
    else if Binds(verdict) && !id.CustomerGate? then [Wipe(at), Leave(at)]
    else [Leave(at)]
  }

  /** The moves, two at most, that an action makes at the ceiling. */
  function MovesOf(cfg: Config, st: State, a: Action, id: GateId): seq<Move>
  {
    match a
    case Whole(_) => []
    case Ask(tid, user, session, ref, at) =>
      if tid !in st.waiting && AskBind(cfg, st.sys, user, session, ref, at).1.None? && Covers(id, user, ref)
      then [Enter(at)] else []
    case Answer(tid, _, verdict, at) =>
      if tid in Under(st, id) then VerdictMoves(verdict, at, id) else []
  }

  function Moved(c: Ceiling, f: Front, moves: seq<Move>): Front
  {
    if moves == [] then f
    else if |moves| == 1 then MoveStep(c, f, moves[0])
    else MoveStep(c, MoveStep(c, f, moves[0]), moves[1])
  }

  /** What the verdict means to a covering gate. */
  lemma VerdictMeans(f: Front, w: Waiting, verdict: Verdict, at: nat, id: GateId)
    requires f.inside > 0 && Covers(id, w.user, w.ref)
    ensures var e := SettleEvent(w.user, w.session, w.ref, verdict, w.asked, at);
            Moved(CeilingOf(id), f, VerdictMoves(verdict, at, id)) == Front(SeenStep(f.gate, e, id), f.inside - 1)
  {
  }

  lemma SettledHist(cfg: Config, sys: System, w: Waiting, factor: string, verdict: Verdict, at: nat)
    ensures Settled(cfg, sys, w, factor, verdict, at).hist ==
            sys.hist + [SettleEvent(w.user, w.session, w.ref, verdict, w.asked, at)]
  {
  }

  lemma OneOut(st: State, tid: nat, id: GateId, sys: System)
    ensures var st' := State(sys, st.waiting - {tid});
            && Under(st', id) == Under(st, id) - {tid}
            && |Under(st', id)| == |Under(st, id)| - if tid in Under(st, id) then 1 else 0
  {
    assert Under(State(sys, st.waiting - {tid}), id) == Under(st, id) - {tid};
  }

  lemma AnswerMoves(cfg: Config, st: State, a: Action, id: GateId)
    requires a.Answer? && a.tid in st.waiting
    ensures FrontOf(Apply(cfg, st, a), id) == Moved(CeilingOf(id), FrontOf(st, id), MovesOf(cfg, st, a, id))
  {
    hide Settled, GateOf, Under, Moved, SeenStep, VerdictMoves;
    var w := st.waiting[a.tid];
    SettledHist(cfg, st.sys, w, a.factor, a.verdict, a.at);
    GateOfAppend(st.sys.hist, SettleEvent(w.user, w.session, w.ref, a.verdict, w.asked, a.at), id);
    OneOut(st, a.tid, id, Settled(cfg, st.sys, w, a.factor, a.verdict, a.at));
    AnswerFront(st, a, id);
  }

  lemma AnswerFront(st: State, a: Action, id: GateId)
    requires a.Answer? && a.tid in st.waiting
    ensures var w := st.waiting[a.tid];
            var e := SettleEvent(w.user, w.session, w.ref, a.verdict, w.asked, a.at);
            var moves := if a.tid in Under(st, id) then VerdictMoves(a.verdict, a.at, id) else [];
            Moved(CeilingOf(id), FrontOf(st, id), moves) ==
            Front(SeenStep(GateOf(st.sys.hist, id), e, id),
                  |Under(st, id)| - if a.tid in Under(st, id) then 1 else 0)
  {
    if a.tid in Under(st, id) {
      VerdictMeans(FrontOf(st, id), st.waiting[a.tid], a.verdict, a.at, id);
    }
  }

  lemma AskedSets(st: State, st': State, tid: nat, w: Waiting, id: GateId)
    requires tid !in st.waiting && st'.waiting == st.waiting[tid := w]
    ensures |Under(st', id)| == |Under(st, id)| + if Covers(id, w.user, w.ref) then 1 else 0
  {
    hide Covers;
    var before, after := Under(st, id), Under(st', id);
    forall t ensures t in after <==> t in before || (t == tid && Covers(id, w.user, w.ref)) {
      assert t != tid && t in st.waiting ==> st'.waiting[t] == st.waiting[t];
    }
    assert after == if Covers(id, w.user, w.ref) then before + {tid} else before;
  }

  lemma AskMoves(cfg: Config, st: State, a: Action, id: GateId, clock: nat)
    requires a.Ask? && clock <= a.at && Follows(cfg, st, id, clock)
    ensures FrontOf(Apply(cfg, st, a), id) == Moved(CeilingOf(id), FrontOf(st, id), MovesOf(cfg, st, a, id))
  {
    hide AskBind, GateOf, Under;
    AskKeepsSim(cfg, st.sys, a.user, a.session, a.ref, a.at, id, GateOf(st.sys.hist, id), clock);
    var st' := Apply(cfg, st, a);
    if a.tid !in st.waiting && AskBind(cfg, st.sys, a.user, a.session, a.ref, a.at).1.None? {
      AskedSets(st, st', a.tid, Waiting(a.user, a.session, a.ref, a.at, |st.sys.hist|), id);
    } else {
      SameUnder(st, st', id);
    }
  }

  lemma SameUnder(st: State, st': State, id: GateId)
    requires st'.waiting == st.waiting
    ensures Under(st', id) == Under(st, id)
  {
  }

  lemma WholeMoves(cfg: Config, st: State, call: Call, id: GateId)
    requires !call.BindCall?
    ensures FrontOf(Apply(cfg, st, Whole(call)), id) == FrontOf(st, id)
  {
    hide Step, GateOf;
    var e := OtherCallEvent(cfg, st.sys, call);
    if e.Some? {
      GateOfAppend(st.sys.hist, e.value, id);
    }
    SameUnder(st, Apply(cfg, st, Whole(call)), id);
  }

  /** Every action moves gate and attempts as its moves say. */
  lemma StepMoves(cfg: Config, st: State, a: Action, id: GateId, clock: nat)
    requires clock <= TimeOf(a) && Follows(cfg, st, id, clock)
    ensures FrontOf(Apply(cfg, st, a), id) == Moved(CeilingOf(id), FrontOf(st, id), MovesOf(cfg, st, a, id))
  {
    hide Step, AskBind, SettleBind, FrontOf, Follows, GateOf;
    match a {
      case Whole(call) => if !call.BindCall? { WholeMoves(cfg, st, call, id); }
      case Ask(_, _, _, _, _) => AskMoves(cfg, st, a, id, clock);
      case Answer(tid, _, _, _) => if tid in st.waiting { AnswerMoves(cfg, st, a, id); }
    }
  }

  lemma StepCounts(cfg: Config, st: State, a: Action, id: GateId, from: nat, to: nat)
    ensures var counted := a.Answer? && a.tid in Under(st, id) && a.verdict.Refused? && from <= a.at < to;
            FailedVerifies(Apply(cfg, st, a).sys.hist, id, from, to) ==
            FailedVerifies(st.sys.hist, id, from, to) + if counted then 1 else 0
  {
    hide Step, Settled;
    match a {
      case Whole(call) =>
        if !call.BindCall? {
          var e := OtherCallEvent(cfg, st.sys, call);
          if e.Some? {
            FailedVerifiesAppend(st.sys.hist, e.value, id, from, to);
          }
        }
      case Ask(_, _, _, _, _) =>
      case Answer(tid, factor, verdict, at) =>
        if tid in st.waiting {
          var w := st.waiting[tid];
          var e := SettleEvent(w.user, w.session, w.ref, verdict, w.asked, at);
          SettledHist(cfg, st.sys, w, factor, verdict, at);
          FailedVerifiesAppend(st.sys.hist, e, id, from, to);
        }
    }
  }

  /** Failures so far, while the interval lasts and once it is over. */
  ghost predicate Within(st: State, id: GateId, clock: nat, a: nat, b: nat, k: nat)
  {
    var n, c := FailedVerifies(st.sys.hist, id, a, b), CeilingOf(id);
    && n <= 2 * c.limit - 3 + k && (n > 0 ==> a <= clock)
    && (clock < b ==> LateBudget(c, FrontOf(st, id), n, a, k))
  }

  /** No success of the pair or the user in the interval (customer ceilings are never cleared). */
  predicate Unwiped(cfg: Config, st: State, act: Action, id: GateId, a: nat, b: nat)
  {
    forall m :: m in MovesOf(cfg, st, act, id) && m.Wipe? ==> !(a <= m.at < b)
  }

  lemma MovesStayWithin(cfg: Config, st: State, act: Action, id: GateId, clock: nat, a: nat, b: nat, k: nat)
    requires clock <= TimeOf(act) < b && b == a + CeilingOf(id).windowSec * 1000
    requires Within(st, id, clock, a, b, k) && Unwiped(cfg, st, act, id, a, b)
    requires Moved(CeilingOf(id), FrontOf(st, id), MovesOf(cfg, st, act, id)).inside <= k
    ensures var n := FailedVerifies(st.sys.hist, id, a, b);
            var counted := act.Answer? && act.tid in Under(st, id) && act.verdict.Refused? && a <= act.at < b;
            LateBudget(CeilingOf(id), Moved(CeilingOf(id), FrontOf(st, id), MovesOf(cfg, st, act, id)),
                       n + if counted then 1 else 0, a, k)
  {
    var c, f, moves := CeilingOf(id), FrontOf(st, id), MovesOf(cfg, st, act, id);
    var n := FailedVerifies(st.sys.hist, id, a, b);
    if moves != [] {
      assert moves[0] in moves;
      LateBudgetStep(c, f, n, moves[0], a, k);
      if |moves| == 2 {
        LateBudgetStep(c, MoveStep(c, f, moves[0]), n, moves[1], a, k);
      }
    }
  }

  lemma StepStaysWithin(cfg: Config, st: State, act: Action, id: GateId, clock: nat, a: nat, b: nat, k: nat)
    requires clock <= TimeOf(act) && b == a + CeilingOf(id).windowSec * 1000
    requires Follows(cfg, st, id, clock) && Within(st, id, clock, a, b, k) && Unwiped(cfg, st, act, id, a, b)
    requires |Under(Apply(cfg, st, act), id)| <= k
    ensures Within(Apply(cfg, st, act), id, TimeOf(act), a, b, k)
  {
    hide Apply, MovesOf, Follows, FailedVerifies, GateOf;
    StepMoves(cfg, st, act, id, clock);
    StepCounts(cfg, st, act, id, a, b);
    if TimeOf(act) < b {
      MovesStayWithin(cfg, st, act, id, clock, a, b, k);
      LateBudgetBounds(CeilingOf(id), FrontOf(Apply(cfg, st, act), id),
                       FailedVerifies(Apply(cfg, st, act).sys.hist, id, a, b), a, k);
    }
  }

  predicate NeverWiped(cfg: Config, st: State, acts: seq<Action>, id: GateId, a: nat, b: nat)
    decreases |acts|
  {
    acts == [] || (Unwiped(cfg, st, acts[0], id, a, b) && NeverWiped(cfg, Apply(cfg, st, acts[0]), acts[1..], id, a, b))
  }

  lemma {:induction false} RunStaysWithin(cfg: Config, st: State, acts: seq<Action>, id: GateId, clock: nat, a: nat,
                                          b: nat, k: nat)
    requires ColonFreeGate(id) && InSequence(clock, acts) && ScheduleSpares(cfg, st, acts, id)
    requires b == a + CeilingOf(id).windowSec * 1000 && Follows(cfg, st, id, clock) && Within(st, id, clock, a, b, k)
    requires AtMostUnderWay(cfg, st, acts, id, k) && NeverWiped(cfg, st, acts, id, a, b)
    ensures FailedVerifies(Run(cfg, st, acts).sys.hist, id, a, b) <= 2 * CeilingOf(id).limit - 3 + k
    decreases |acts|
  {
    hide Apply, ActionSpares, Follows, Unwiped;
    if acts != [] {
      StepKeepsFollows(cfg, st, acts[0], id, clock);
      StepStaysWithin(cfg, st, acts[0], id, clock, a, b, k);
      RunStaysWithin(cfg, Apply(cfg, st, acts[0]), acts[1..], id, TimeOf(acts[0]), a, b, k);
    }
  }

  // ---- From the history of successes to the moves ----

  lemma StepExtends(cfg: Config, st: State, a: Action)
    ensures st.sys.hist <= Apply(cfg, st, a).sys.hist
  {
    hide Step, Settled;
    match a {
      case Whole(call) =>
        if !call.BindCall? {
          var e := OtherCallEvent(cfg, st.sys, call);
        }
      case Ask(_, _, _, _, _) =>
      case Answer(tid, factor, verdict, at) =>
        if tid in st.waiting {
          SettledHist(cfg, st.sys, st.waiting[tid], factor, verdict, at);
        }
    }
  }

  lemma {:induction false} RunExtends(cfg: Config, st: State, acts: seq<Action>)
    ensures st.sys.hist <= Run(cfg, st, acts).sys.hist
    decreases |acts|
  {
    hide Apply;
    if acts != [] {
      StepExtends(cfg, st, acts[0]);
      RunExtends(cfg, Apply(cfg, st, acts[0]), acts[1..]);
    }
  }

  lemma SuccessWipes(cfg: Config, st: State, act: Action, id: GateId, a: nat, b: nat, hist: seq<BindingEvent>)
    requires Apply(cfg, st, act).sys.hist <= hist && NoSuccess(hist, id, a, b)
    ensures Unwiped(cfg, st, act, id, a, b)
  {
    hide Step, Settled, AskBind;
    if act.Answer? && act.tid in Under(st, id) && Binds(act.verdict) {
      var w := st.waiting[act.tid];
      SettledHist(cfg, st.sys, w, act.factor, act.verdict, act.at);
      assert hist[|st.sys.hist|] == Succeeded(w.user, w.session, w.ref, w.asked, act.at);
    }
  }

  lemma CustomerNeverWiped(cfg: Config, st: State, act: Action, id: GateId, a: nat, b: nat)
    requires id.CustomerGate?
    ensures Unwiped(cfg, st, act, id, a, b)
  {
    hide Step, Settled, AskBind;
  }

  lemma {:induction false} NoSuccessNoWipe(cfg: Config, st: State, acts: seq<Action>, id: GateId, a: nat, b: nat)
    requires id.CustomerGate? || NoSuccess(Run(cfg, st, acts).sys.hist, id, a, b)
    ensures NeverWiped(cfg, st, acts, id, a, b)
    decreases |acts|
  {
    hide Apply, Unwiped, NoSuccess;
    if acts != [] {
      var next := Apply(cfg, st, acts[0]);
      if id.CustomerGate? {
        CustomerNeverWiped(cfg, st, acts[0], id, a, b);
      } else {
        RunExtends(cfg, next, acts[1..]);
        SuccessWipes(cfg, st, acts[0], id, a, b, Run(cfg, st, acts).sys.hist);
      }
      NoSuccessNoWipe(cfg, next, acts[1..], id, a, b);
    }
  }

  lemma StartFollows(seeds: seq<CS.Customer>, cfg: Config, id: GateId, a: nat, b: nat, k: nat)
    requires b == a + CeilingOf(id).windowSec * 1000
    ensures Follows(cfg, Start(seeds), id, 0) && Within(Start(seeds), id, 0, a, b, k)
  {
    assert Under(Start(seeds), id) == {};
  }

  /**
    The rate bounds when binds overlap: if no more than k binds that the ceiling covers are under way at
    any time, any window-long interval without a clearing success holds at most 2L - 3 + k failed
    verifications. One at a time that is the bound of the serialised runs.
   */
  lemma OverlapRateBound(cfg: Config, seeds: seq<CS.Customer>, acts: seq<Action>, id: GateId, a: nat, b: nat, k: nat)
    requires ColonFreeGate(id) && InSequence(0, acts) && ScheduleSpares(cfg, Start(seeds), acts, id)
    requires AtMostUnderWay(cfg, Start(seeds), acts, id, k) && b == a + CeilingOf(id).windowSec * 1000
    requires id.CustomerGate? || NoSuccess(Run(cfg, Start(seeds), acts).sys.hist, id, a, b)
    ensures FailedVerifies(Run(cfg, Start(seeds), acts).sys.hist, id, a, b) <= 2 * CeilingOf(id).limit - 3 + k
  {
    hide Apply, ActionSpares, Follows, Within, NoSuccess;
    StartFollows(seeds, cfg, id, a, b, k);
    NoSuccessNoWipe(cfg, Start(seeds), acts, id, a, b);
    RunStaysWithin(cfg, Start(seeds), acts, id, 0, a, b, k);
  }

  // ---- When exactly a record comes too late ----

  /** A lock that was not there when the first i events had happened was armed by a later one. */
  lemma {:induction false} ArmerExists(hist: seq<BindingEvent>, id: GateId, i: nat, asked: nat, now: nat)
    returns (j: nat)
    requires i <= |hist| && asked <= now && !Locked(GateOf(hist[..i], id), asked) && Locked(GateOf(hist, id), now)
    ensures i <= j < |hist| && Arms(hist, j, id) && now <= hist[j].at + CeilingOf(id).lockSec * 1000
    decreases |hist|
  {
    hide GateOf, Project;
    assert hist[..|hist|] == hist;
    j := |hist| - 1;
    var init := hist[..j];
    assert hist == init + [hist[j]];
    GateOfAppend(init, hist[j], id);
    if !Arms(hist, j, id) {
      assert init[..i] == hist[..i];
      j := ArmerExists(init, id, i, asked, now);
      assert init[..j] == hist[..j];
    }
  }

  /** Some event from the i-th on armed the ceiling, and its lock reaches `now`. */
  ghost predicate ArmedSince(hist: seq<BindingEvent>, i: nat, id: GateId, now: nat)
  {
    exists j :: i <= j < |hist| && Arms(hist, j, id) && now <= hist[j].at + CeilingOf(id).lockSec * 1000
  }

  lemma LockedSinceExactly(hist: seq<BindingEvent>, id: GateId, i: nat, asked: nat, now: nat)
    requires i <= |hist| && asked <= now && !Locked(GateOf(hist[..i], id), asked) && Ordered(Project(hist, id))
    ensures Locked(GateOf(hist, id), now) <==> ArmedSince(hist, i, id, now)
  {
    hide GateOf, Arms, Project, Ordered;
    if Locked(GateOf(hist, id), now) {
      var j := ArmerExists(hist, id, i, asked, now);
    }
    if ArmedSince(hist, i, id, now) {
      var j :| i <= j < |hist| && Arms(hist, j, id) && now <= hist[j].at + CeilingOf(id).lockSec * 1000;
      assert hist[..|hist|] == hist;
      ArmedGateStaysLocked(hist, id, j, |hist|, now);
    }
  }

  /**
    A bind that settles finds a covering ceiling locked, although its own check found it unlocked, if
    and only if another bind armed that ceiling between this check and this settling.
   */
  lemma LateRecordFindsLockExactly(cfg: Config, seeds: seq<CS.Customer>, acts: seq<Action>, id: GateId, tid: nat,
                                   now: nat)
    requires ColonFreeGate(id) && InSequence(0, acts) && ScheduleSpares(cfg, Start(seeds), acts, id)
    requires tid in Run(cfg, Start(seeds), acts).waiting && Finish(0, acts) <= now
    requires var w := Run(cfg, Start(seeds), acts).waiting[tid]; Covers(id, w.user, w.ref)
    ensures var st := Run(cfg, Start(seeds), acts);
            Get(cfg, st.sys.cache, Encode(LockKey(id)), now).1.Some?
            <==> ArmedSince(st.sys.hist, st.waiting[tid].seen, id, now)
  {
    hide Apply, ActionSpares, GateOf, Project, ArmedSince, Covers;
    StartFollows(seeds, cfg, id, 0, CeilingOf(id).windowSec * 1000, 0);
    RunFollows(cfg, Start(seeds), acts, id, 0);
    var st := Run(cfg, Start(seeds), acts);
    var w := st.waiting[tid];
    assert WaitingOk(st.sys.hist, w, id, Finish(0, acts));
    TimePasses(cfg, st.sys.cache, id, GateOf(st.sys.hist, id), Finish(0, acts), now);
    LockReadRefines(cfg, st.sys.cache, id, GateOf(st.sys.hist, id), now);
    LockedSinceExactly(st.sys.hist, id, w.seen, w.asked, now);
  }

  // ---- Records that come in time keep the bound of serialised runs ----

  /** A failure that is settled now is recorded while the ceiling is unlocked. */
  predicate InTime(cfg: Config, st: State, a: Action, id: GateId)
  {
    a.Answer? && a.tid in Under(st, id) && a.verdict.Refused? ==>
      Get(cfg, st.sys.cache, Encode(LockKey(id)), a.at).1.None?
  }

  predicate AllInTime(cfg: Config, st: State, acts: seq<Action>, id: GateId)
    decreases |acts|
  {
    acts == [] || (InTime(cfg, st, acts[0], id) && AllInTime(cfg, Apply(cfg, st, acts[0]), acts[1..], id))
  }

  lemma EventKeepsView(hist: seq<BindingEvent>, e: BindingEvent, id: GateId, clock: nat)
    requires View(CeilingOf(id), Project(hist, id), clock) && clock <= e.at
    requires e.FailedVerify? && Covers(id, e.user, e.ref) ==> !Locked(GateOf(hist, id), e.at)
    ensures View(CeilingOf(id), Project(hist + [e], id), e.at)
  {
    ProjectAppend(hist, e, id);
    if Seen(e, id) == [] {
      ViewLater(CeilingOf(id), Project(hist, id), clock, e.at);
      assert Project(hist, id) + Seen(e, id) == Project(hist, id);
    } else {
      SeenKeepsView(CeilingOf(id), Project(hist, id), Seen(e, id)[0], clock);
      assert Seen(e, id) == [Seen(e, id)[0]];
    }
  }

  lemma AnswerKeepsView(cfg: Config, st: State, a: Action, id: GateId, clock: nat)
    requires a.Answer? && a.tid in st.waiting && clock <= a.at && Follows(cfg, st, id, clock) && InTime(cfg, st, a, id)
    requires View(CeilingOf(id), Project(st.sys.hist, id), clock)
    ensures View(CeilingOf(id), Project(Apply(cfg, st, a).sys.hist, id), a.at)
  {
    hide Settled, GateOf, Project, View;
    var w := st.waiting[a.tid];
    TimePasses(cfg, st.sys.cache, id, GateOf(st.sys.hist, id), clock, a.at);
    LockReadRefines(cfg, st.sys.cache, id, GateOf(st.sys.hist, id), a.at);
    SettledHist(cfg, st.sys, w, a.factor, a.verdict, a.at);
    EventKeepsView(st.sys.hist, SettleEvent(w.user, w.session, w.ref, a.verdict, w.asked, a.at), id, clock);
  }

  lemma StepKeepsView(cfg: Config, st: State, a: Action, id: GateId, clock: nat)
    requires clock <= TimeOf(a) && Follows(cfg, st, id, clock) && InTime(cfg, st, a, id)
    requires View(CeilingOf(id), Project(st.sys.hist, id), clock)
    ensures View(CeilingOf(id), Project(Apply(cfg, st, a).sys.hist, id), TimeOf(a))
  {
    hide Step, Settled, AskBind, Follows, InTime, View, Project;
    ViewLater(CeilingOf(id), Project(st.sys.hist, id), clock, TimeOf(a));
    match a {
      case Whole(call) =>
        if !call.BindCall? {
          var e := OtherCallEvent(cfg, st.sys, call);
          if e.Some? {
            EventKeepsView(st.sys.hist, e.value, id, clock);
          }
        }
      case Ask(_, user, session, ref, at) => AskedHist(cfg, st.sys, user, session, ref, at);
      case Answer(tid, _, _, _) => if tid in st.waiting { AnswerKeepsView(cfg, st, a, id, clock); }
    }
  }

  lemma AskedHist(cfg: Config, sys: System, user: string, session: string, ref: string, at: nat)
    ensures AskBind(cfg, sys, user, session, ref, at).0.hist == sys.hist
  {
  }

  lemma {:induction false} RunKeepsView(cfg: Config, st: State, acts: seq<Action>, id: GateId, clock: nat)
    requires ColonFreeGate(id) && InSequence(clock, acts) && ScheduleSpares(cfg, st, acts, id)
    requires AllInTime(cfg, st, acts, id) && Follows(cfg, st, id, clock)
    requires View(CeilingOf(id), Project(st.sys.hist, id), clock)
    ensures View(CeilingOf(id), Project(Run(cfg, st, acts).sys.hist, id), Finish(clock, acts))
    decreases |acts|
  {
    hide Apply, ActionSpares, Follows, InTime, View, Project;
    if acts != [] {
      StepKeepsFollows(cfg, st, acts[0], id, clock);
      StepKeepsView(cfg, st, acts[0], id, clock);
      RunKeepsView(cfg, Apply(cfg, st, acts[0]), acts[1..], id, TimeOf(acts[0]));
    }
  }

  /** However many binds overlap: if every failure finds the ceiling unlocked, 2L - 2 is still the bound. */
  lemma TimelyRecordsKeepTheBound(cfg: Config, seeds: seq<CS.Customer>, acts: seq<Action>, id: GateId, a: nat, b: nat)
    requires ColonFreeGate(id) && InSequence(0, acts) && ScheduleSpares(cfg, Start(seeds), acts, id)
    requires AllInTime(cfg, Start(seeds), acts, id) && b == a + CeilingOf(id).windowSec * 1000
    requires id.CustomerGate? || NoSuccess(Run(cfg, Start(seeds), acts).sys.hist, id, a, b)
    ensures FailedVerifies(Run(cfg, Start(seeds), acts).sys.hist, id, a, b) <= 2 * CeilingOf(id).limit - 2
  {
    hide Apply, ActionSpares, Follows, InTime, NoSuccess;
    StartFollows(seeds, cfg, id, a, b, 0);
    RunKeepsView(cfg, Start(seeds), acts, id, 0);
    HistoryRateBound(Run(cfg, Start(seeds), acts).sys.hist, id, Finish(0, acts), a, b);
  }
}
