/** One chat session and everybody who wants to run it: user sends, goal continuations and
    scheduled launches claim it, releases and terminalizations end a run, and stale workers,
    retries and crashes may come between any two steps. A step is one committed transaction.
    Run ids are fresh numbers (random UUIDs in the program). */
module RunProtocol {
  import opened Text
  import Q = RunInputs

  datatype PlanStatus = Pending | InProgress | Done | SkippedStep | Failed

  datatype PlanStep = PlanStep(status: PlanStatus, note: string)

  datatype GoalStatus = Active | Completed | Cancelled | BudgetLimited

  datatype Goal = Goal(status: GoalStatus, budget: int, used: int, auto: int, max: int)

  const DEFAULT_TOKEN_BUDGET := 200000
  const DEFAULT_MAX_AUTO_RUNS := 10

  datatype Claimer = Sender | Continuation | Scheduler

  datatype Event =
    | Claimed(run: nat, who: Claimer)
    | Terminated(run: nat)
    | Released(run: nat)
    | GoalSet

  /** The session row with its plan, goal and queue, and the history of its runs. */
  datatype Chat = Chat(active: Option<nat>, cancel: bool, confirming: bool, asking: bool,
                       plan: seq<PlanStep>, table: Q.Table, goal: Option<Goal>, nextRun: nat, log: seq<Event>)

  /** What a message carries besides its text, at most one of these; `fits` if it matches what the
      session has: the open request and its questions, the calls that wait, an offered override. */
  datatype Part = Nothing | Answer(fits: bool) | Decisions(fits: bool) | Override(fits: bool) | Proceed(step: nat)

  datatype Action =
    | Send(text: string, part: Part)
    | ClaimContinuation
    | ClaimLaunch
    | Terminalize(run: nat, stop: string, reason: string)
    | Release(run: nat)
    | Queue(q: Q.Action)
    | Pause(confirm: bool)
    | Resume
    | UpdatePlan(plan: seq<PlanStep>)
    | SetGoal(budget: Option<int>, max: Option<int>)
    | CancelGoal
    | CompleteGoal
    | RecordUsage(tokens: int)
    | CheckBudget
    | RequestCancel
    | Crash

  // ----- the decisions -----

  datatype Verdict =
    | Ok
    | NoGoal
    | GoalNotActive
    | ActiveRun
    | PendingConfirmation
    | QueuedInput
    | MaxAutoRuns
    | BudgetExhausted

  function EvaluateContinuation(goal: Option<Goal>, active: Option<nat>, pending: bool, queued: nat): Verdict {
    if goal.None? then NoGoal
    else if goal.value.status != Active then GoalNotActive
    else if active.Some? then ActiveRun
    else if pending then PendingConfirmation
    else if queued > 0 then QueuedInput
    else if goal.value.auto >= goal.value.max then MaxAutoRuns
    else if goal.value.used >= goal.value.budget then BudgetExhausted
    else Ok
  }

  function VerdictOf(c: Chat): Verdict {
    EvaluateContinuation(c.goal, c.active, c.confirming || c.asking, |Q.Order(c.table.items, Q.All)|)
  }

  /** `value or default`: a missing or zero setting falls back. */
  function Or(value: Option<int>, default: int): int {
    if value.None? || value.value == 0 then default else value.value
  }

  const PLAN_FAILURE_PREFIX := "\U{6267}\U{884C}\U{4E2D}\U{65AD}"

  function FailureNote(reason: string): string {
    if Strip(reason) == [] then PLAN_FAILURE_PREFIX else PLAN_FAILURE_PREFIX + ":" + Strip(reason)
  }

  const REASON_MAX_CHARS := 500

  /** The reason of a termination: stripped, cut, and never empty where the kind of stop is not. */
  function TerminalReason(stop: string, reason: string): string {
    var cut := Strip(reason)[..Min(|Strip(reason)|, REASON_MAX_CHARS)];
    if cut == [] then stop else cut
  }

  function Interrupt(step: PlanStep, note: string): PlanStep {
    if step.status == InProgress then PlanStep(Failed, note) else step
  }

  function Interrupted(plan: seq<PlanStep>, note: string): (r: seq<PlanStep>)
    ensures |r| == |plan| && forall k :: 0 <= k < |plan| ==> r[k] == Interrupt(plan[k], note)
  {
    seq(|plan|, k requires 0 <= k < |plan| => Interrupt(plan[k], note))
  }

  /** `mark_plan_interrupted`: `None` when no step was in progress. */
  method MarkPlanInterrupted(plan: seq<PlanStep>, reason: string) returns (r: Option<seq<PlanStep>>)
    ensures r.None? <==> forall k :: 0 <= k < |plan| ==> plan[k].status != InProgress
    ensures r.Some? ==> r.value == Interrupted(plan, FailureNote(reason))
    ensures r.None? ==> plan == Interrupted(plan, FailureNote(reason))
  {
    var note := FailureNote(reason);
    var changed := false;
    var out: seq<PlanStep> := [];
    for i := 0 to |plan|
      invariant |out| == i && forall k :: 0 <= k < i ==> out[k] == Interrupt(plan[k], note)
      invariant changed <==> exists k :: 0 <= k < i && plan[k].status == InProgress
    {
      if plan[i].status == InProgress {
        out := out + [PlanStep(Failed, note)];
        changed := true;
      } else {
        out := out + [plan[i]];
      }
    }
    r := if changed then Some(out) else None;
  }

  // ----- the steps -----

  function Claim(c: Chat, who: Claimer): Chat {
    c.(active := Some(c.nextRun), cancel := false, nextRun := c.nextRun + 1, log := c.log + [Claimed(c.nextRun, who)])
  }

  function Terminal(c: Chat, r: nat, stop: string, reason: string): Chat {
    if c.active != Some(r) then c
    else
      c.(table := c.table.(items := Q.SkipAll(c.table.items, r)),
         plan := Interrupted(c.plan, FailureNote(TerminalReason(stop, reason))),
         confirming := false, asking := false, active := None, cancel := false, log := c.log + [Terminated(r)])
  }

  /** A message says something, and answers and continuations come without text. */
  predicate WellFormed(text: string, part: Part) {
    match part
    case Nothing => Strip(text) != []
    case Answer(_) => Strip(text) == []
    case Proceed(_) => Strip(text) == []
    case _ => true
  }

  /** A running session takes plain messages only. In an idle one an open question wants its answer
      first; decisions want calls that wait, overrides and continuations of a failed step that none do. */
  predicate Takes(c: Chat, part: Part) {
    if c.active.Some? then part.Nothing?
    else if c.asking then part.Answer? && part.fits
    else
      match part
      case Nothing => true
      case Answer(_) => false
      case Decisions(fits) => c.confirming && fits
      case Override(fits) => !c.confirming && fits
      case Proceed(k) => !c.confirming && k < |c.plan| && c.plan[k].status == Failed
  }

  predicate Refuses(c: Chat, text: string, part: Part) { !WellFormed(text, part) || !Takes(c, part) }

  function Step(c: Chat, a: Action): Chat {
    match a
    case Send(text, part) =>
      if Refuses(c, text, part) then c
      else if c.active.Some? then c.(table := Q.Step(c.table, Q.Send(c.active.value, text)))
      else Claim(c, Sender)
    case ClaimContinuation =>
      if VerdictOf(c) != Ok then c
      else Claim(c, Continuation).(goal := Some(c.goal.value.(auto := c.goal.value.auto + 1)))
    case ClaimLaunch => if c.active.Some? || c.confirming || c.asking then c else Claim(c, Scheduler)
    case Terminalize(r, stop, reason) => Terminal(c, r, stop, reason)
    case Release(r) =>
      if c.active != Some(r) then c else c.(active := None, cancel := false, log := c.log + [Released(r)])
    case Queue(q) => if q.Send? || (q.TakeOver? && q.run >= c.nextRun) then c else c.(table := Q.Step(c.table, q))
    case Pause(confirm) => if confirm then c.(confirming := true) else c.(asking := true)
    case Resume => c.(confirming := false, asking := false)
    case UpdatePlan(plan) => c.(plan := plan)
    case SetGoal(budget, max) =>
      c.(goal := Some(Goal(Active, Or(budget, DEFAULT_TOKEN_BUDGET), 0, 0, Or(max, DEFAULT_MAX_AUTO_RUNS))),
        log := c.log + [GoalSet])
    case CancelGoal => if c.goal.None? then c else c.(goal := Some(c.goal.value.(status := Cancelled)))
    case CompleteGoal =>
      if c.goal.Some? && (c.goal.value.status == Active || c.goal.value.status == BudgetLimited)
      then c.(goal := Some(c.goal.value.(status := Completed))) else c
    case RecordUsage(tokens) =>
      if c.goal.None? || tokens <= 0 then c else c.(goal := Some(c.goal.value.(used := c.goal.value.used + tokens)))
    case CheckBudget =>
      if VerdictOf(c) != BudgetExhausted then c else c.(goal := Some(c.goal.value.(status := BudgetLimited)))
    case RequestCancel => c.(cancel := c.active.Some?)
    case Crash => c
  }

  function Run(c: Chat, actions: seq<Action>): Chat
    decreases |actions|
  {
    if actions == [] then c else Run(Step(c, actions[0]), actions[1..])
  }

  const NEW: Chat := Chat(None, false, false, false, [], Q.EMPTY, None, 0, [])

  // ----- one holder at a time -----

  predicate Ends(e: Event, r: nat) { (e.Terminated? || e.Released?) && e.run == r }

  /** The log read from its end: claims and ends alternate, and claimed ids grow. */
  ghost predicate Alternates(log: seq<Event>, active: Option<nat>, bound: nat)
    decreases |log|
  {
    if log == [] then active == None
    else
      var front, last := log[..|log| - 1], log[|log| - 1];
      match last
      case Claimed(r, _) => active == Some(r) && r < bound && Alternates(front, None, r)
      case GoalSet => Alternates(front, active, bound)
      case _ => active == None && last.run < bound && Alternates(front, Some(last.run), bound)
  }

  lemma {:induction false} AlternatesMore(log: seq<Event>, e: Event, active: Option<nat>, bound: nat)
    ensures Alternates(log + [e], active, bound) <==>
      match e
      case Claimed(r, _) => active == Some(r) && r < bound && Alternates(log, None, r)
      case GoalSet => Alternates(log, active, bound)
      case _ => active == None && e.run < bound && Alternates(log, Some(e.run), bound)
  {
    assert (log + [e])[..|log|] == log;
  }

  function Claims(log: seq<Event>, r: nat): nat
    decreases |log|
  {
    if log == [] then 0
    else
      var last := log[|log| - 1];
      Claims(log[..|log| - 1], r) + if last.Claimed? && last.run == r then 1 else 0
  }

  function Endings(log: seq<Event>, r: nat): nat
    decreases |log|
  {
    if log == [] then 0
    else Endings(log[..|log| - 1], r) + if Ends(log[|log| - 1], r) then 1 else 0
  }

  lemma {:induction false} AlternatesIs(log: seq<Event>, active: Option<nat>, bound: nat, r: nat)
    requires Alternates(log, active, bound)
    ensures Endings(log, r) <= Claims(log, r) <= 1 && (r >= bound ==> Claims(log, r) == 0)
    ensures active == Some(r) <==> Claims(log, r) == 1 && Endings(log, r) == 0
    decreases |log|
  {
    if log != [] {
      var front, last := log[..|log| - 1], log[|log| - 1];
      match last {
        case Claimed(q, _) => AlternatesIs(front, None, q, r);
        case GoalSet => AlternatesIs(front, active, bound, r);
        case _ => AlternatesIs(front, Some(last.run), bound, r);
      }
    }
  }

  // ----- what every reachable session keeps -----

  /** Continuations started since the goal was last set. */
  function SinceGoal(log: seq<Event>): nat
    decreases |log|
  {
    if log == [] || log[|log| - 1].GoalSet? then 0
    else SinceGoal(log[..|log| - 1]) + if log[|log| - 1].Claimed? && log[|log| - 1].who == Continuation then 1 else 0
  }

  lemma {:induction false} SinceGoalMore(log: seq<Event>, e: Event)
    ensures SinceGoal(log + [e]) == if e.GoalSet? then 0
      else SinceGoal(log) + if e.Claimed? && e.who == Continuation then 1 else 0
  {
    assert (log + [e])[..|log|] == log;
  }

  ghost predicate GoalInv(c: Chat) {
    SinceGoal(c.log) == if c.goal.None? then 0 else c.goal.value.auto
  }

  ghost predicate GoalBound(c: Chat) {
    c.goal.Some? ==> 0 <= c.goal.value.auto <= Max(0, c.goal.value.max)
  }

  ghost predicate RunsBelow(c: Chat) {
    forall k :: 0 <= k < |c.table.items| ==> c.table.items[k].run < c.nextRun
  }

  ghost predicate Inv(c: Chat) {
    && Alternates(c.log, c.active, c.nextRun)
    && GoalInv(c) && GoalBound(c) && Q.Inv(c.table)
  }

  /** What a step does to the table of inputs; editing an input that is not there does nothing. */
  function OnTable(c: Chat, a: Action): Q.Action {
    match a
    case Send(text, part) =>
      if c.active.Some? && !Refuses(c, text, part) then Q.Send(c.active.value, text) else Q.Edit(|c.table.items|, "")
    case Terminalize(r, _, _) => if c.active == Some(r) then Q.DropAll(r) else Q.Edit(|c.table.items|, "")
    case Queue(q) => if q.Send? || (q.TakeOver? && q.run >= c.nextRun) then Q.Edit(|c.table.items|, "") else q
    case _ => Q.Edit(|c.table.items|, "")
  }

  lemma {:induction false} OnTableIs(c: Chat, a: Action)
    ensures Step(c, a).table == Q.Step(c.table, OnTable(c, a))
  {
    hide Q.Enqueue, Q.Adopt, Q.Consume, Q.Reorder, Q.ConsumeItem, Q.SkipAll, VerdictOf, Interrupted, FailureNote,
      TerminalReason;
  }

  lemma {:induction false} TableStep(c: Chat, a: Action)
    requires Q.Inv(c.table)
    ensures Q.Inv(Step(c, a).table) && Q.Follows(c.table, Step(c, a).table)
  {
    hide Step, Q.Step, OnTable, Q.Inv, Q.Follows;
    OnTableIs(c, a);
    Q.StepIs(c.table, OnTable(c, a));
  }

  /** A step logs at most one event. */
  function Logged(c: Chat, a: Action): Option<Event> {
    match a
    case Send(text, part) => if c.active.Some? || Refuses(c, text, part) then None else Some(Claimed(c.nextRun, Sender))
    case ClaimContinuation => if VerdictOf(c) == Ok then Some(Claimed(c.nextRun, Continuation)) else None
    case ClaimLaunch => if c.active.Some? || c.confirming || c.asking then None else Some(Claimed(c.nextRun, Scheduler))
    case Terminalize(r, _, _) => if c.active == Some(r) then Some(Terminated(r)) else None
    case Release(r) => if c.active == Some(r) then Some(Released(r)) else None
    case SetGoal(_, _) => Some(GoalSet)
    case _ => None
  }

  lemma {:induction false} LogStep(c: Chat, a: Action)
    requires Inv(c)
    ensures Step(c, a).log == c.log + if Logged(c, a).Some? then [Logged(c, a).value] else []
    ensures Alternates(Step(c, a).log, Step(c, a).active, Step(c, a).nextRun)
  {
    hide Q.Inv, Q.Step, GoalInv, GoalBound, VerdictOf, Q.SkipAll, Interrupted, FailureNote, TerminalReason,
      Alternates, Claims, Endings;
    var logged := Logged(c, a);
    assert c.log + [] == c.log;
    if logged.Some? {
      LoggedIs(c, a);
      AlternatesMore(c.log, logged.value, Step(c, a).active, Step(c, a).nextRun);
      if c.active.Some? { AlternatesIs(c.log, c.active, c.nextRun, c.active.value); }
    } else {
      NotLogged(c, a);
    }
  }

  /** What is logged tells who holds the session before and after. */
  lemma {:induction false} LoggedIs(c: Chat, a: Action)
    requires Logged(c, a).Some?
    ensures
      var next := Step(c, a);
      next.log == c.log + [Logged(c, a).value] &&
      match Logged(c, a).value
      case Claimed(r, _) => c.active == None && next.active == Some(r) && r == c.nextRun && next.nextRun == r + 1
      case GoalSet => next.active == c.active && next.nextRun == c.nextRun
      case _ => c.active == Some(Logged(c, a).value.run) && next.active == None && next.nextRun == c.nextRun
  {
    if VerdictOf(c) == Ok { VerdictOk(c); }
    hide Q.Step, VerdictOf, Q.SkipAll, Interrupted, FailureNote, TerminalReason;
  }

  lemma {:induction false} NotLogged(c: Chat, a: Action)
    requires Logged(c, a).None?
    ensures var next := Step(c, a); next.log == c.log && next.active == c.active && next.nextRun == c.nextRun
  {
    hide Q.Step, VerdictOf, Q.SkipAll, Interrupted, FailureNote, TerminalReason;
  }

  lemma {:induction false} VerdictOk(c: Chat)
    requires VerdictOf(c) == Ok
    ensures c.active == None && c.goal.Some? && c.goal.value.status == Active
    ensures c.goal.value.auto < c.goal.value.max && c.goal.value.used < c.goal.value.budget
    ensures !c.confirming && !c.asking && Q.Order(c.table.items, Q.All) == []
  {
    hide Q.Order;
  }

  /** The goal is continued exactly when nothing speaks against it: it is active, within both of
      its limits, and the session is idle, with no open question and no waiting input. */
  lemma {:induction false} ContinuesIff(c: Chat)
    ensures VerdictOf(c) == Ok <==>
      && c.goal.Some? && c.goal.value.status == Active
      && c.goal.value.auto < c.goal.value.max && c.goal.value.used < c.goal.value.budget
      && c.active == None && !c.confirming && !c.asking
      && forall k :: 0 <= k < |c.table.items| ==> c.table.items[k].status != Q.Queued
  {
    var order := Q.Order(c.table.items, Q.All);
    Q.OrderIs(c.table.items, Q.All);
    hide Q.Order, Q.Sorted;
    NoneQueuedIff(c.table.items);
  }

  lemma {:induction false} NoneQueuedIff(items: seq<Q.Item>)
    ensures |Q.Order(items, Q.All)| == 0 <==> forall k :: 0 <= k < |items| ==> items[k].status != Q.Queued
  {
    var order := Q.Order(items, Q.All);
    Q.OrderIs(items, Q.All);
    hide Q.Order, Q.Sorted;
    if order != [] {
      assert order[0] in order;
    } else {
      forall k: nat | k < |items| ensures items[k].status != Q.Queued {
        assert k !in order && !Q.Filter.All.Picks(items[k]);
      }
    }
  }

  lemma {:induction false} VerdictOfNoGoal(c: Chat)
    ensures c.goal.None? <==> VerdictOf(c) == NoGoal
    ensures c.goal.Some? && c.goal.value.status != Active <==> VerdictOf(c) == GoalNotActive
  {
    hide Q.Order;
  }

  lemma {:induction false} GoalStep(c: Chat, a: Action)
    requires Inv(c)
    ensures GoalInv(Step(c, a)) && GoalBound(Step(c, a))
  {
    hide Q.Inv, Q.Step, SinceGoal, Alternates, VerdictOf, Q.SkipAll, Interrupted;
    LogStep(c, a);
    var logged := Logged(c, a);
    if logged.Some? { SinceGoalMore(c.log, logged.value); }
    if VerdictOf(c) == Ok { VerdictOk(c); }
    VerdictOfNoGoal(c);
    assert c.log + [] == c.log;
    match a {
      case ClaimContinuation =>
      case SetGoal(_, _) =>
      case _ =>
    }
  }

  lemma {:induction false} RunKeepsInv(c: Chat, actions: seq<Action>)
    requires Inv(c)
    ensures Inv(Run(c, actions)) && Q.Follows(c.table, Run(c, actions).table)
    decreases |actions|
  {
    if actions != [] {
      TableStep(c, actions[0]);
      LogStep(c, actions[0]);
      GoalStep(c, actions[0]);
      hide Step, Q.Inv, Alternates, GoalInv, GoalBound;
      RunKeepsInv(Step(c, actions[0]), actions[1..]);
    }
  }

  /** At any time, whatever the interleaving: a run was claimed at most once and ended at most
      once, never before it was claimed; and the session's `active_run_id` is exactly the one
      run that is claimed and not ended. */
  lemma {:induction false} OneHolder(actions: seq<Action>, r: nat)
    ensures
      var c := Run(NEW, actions);
      Endings(c.log, r) <= Claims(c.log, r) <= 1 &&
      (c.active == Some(r) <==> Claims(c.log, r) == 1 && Endings(c.log, r) == 0)
  {
    RunKeepsInv(NEW, actions);
    var c := Run(NEW, actions);
    AlternatesIs(c.log, c.active, c.nextRun, r);
  }

  /** Between two settings of the goal at most `max_auto_runs` continuations start. */
  lemma {:induction false} ContinuationsAreBounded(actions: seq<Action>)
    ensures
      var c := Run(NEW, actions);
      (c.goal.None? ==> SinceGoal(c.log) == 0) && (c.goal.Some? ==> SinceGoal(c.log) <= Max(0, c.goal.value.max))
  {
    RunKeepsInv(NEW, actions);
  }

  /** The queue's guarantees hold for the session: leaving the queue is final. */
  lemma {:induction false} InputsAreHandledOnce(actions: seq<Action>, k: nat)
    requires k < |Run(NEW, actions).table.items|
    ensures
      var t := Run(NEW, actions).table;
      if t.items[k].status == Q.Consumed
      then exists m :: Q.IsMessageOf(t, m, k) && forall n ::
        0 <= n < |t.messages| && t.messages[n].source == Some(k) ==> n == m
      else forall n :: 0 <= n < |t.messages| ==> t.messages[n].source != Some(k)
  {
    RunKeepsInv(NEW, actions);
    var t := Run(NEW, actions).table;
    hide Run;
    if t.items[k].status == Q.Consumed {
      assert Q.IsMessageOf(t, t.items[k].message.value, k);
    }
  }

  // ----- who may end a run, and how -----

  /** The claim of a run is taken away only by its own release or its own terminalization; a stale
      run's release or terminalization changes nothing at all. */
  lemma {:induction false} OnlyOwnEnd(c: Chat, a: Action, r: nat)
    ensures c.active == Some(r) && Step(c, a).active != Some(r) ==>
      Step(c, a).active == None && (a == Release(r) || (a.Terminalize? && a.run == r))
    ensures (a == Release(r) || (a.Terminalize? && a.run == r)) && c.active != Some(r) ==> Step(c, a) == c
    ensures c.active == None && Step(c, a).active.Some? ==> a.Send? || a.ClaimContinuation? || a.ClaimLaunch?
  {
    hide Q.Step;
  }

  /** The terminal commit leaves nothing of the run behind, and touches nothing else. */
  lemma {:induction false} TerminalLeavesNothing(c: Chat, r: nat, stop: string, reason: string)
    requires c.active == Some(r)
    ensures
      var after := Step(c, Terminalize(r, stop, reason));
      && after.active == None && !after.cancel && !after.confirming && !after.asking
      && |Q.Order(after.table.items, Q.Of(r))| == 0
      && (forall k :: 0 <= k < |after.plan| ==> after.plan[k].status != InProgress)
      && (forall k :: 0 <= k < |c.plan| && c.plan[k].status != InProgress ==> after.plan[k] == c.plan[k])
      && (forall k :: 0 <= k < |c.plan| && c.plan[k].status == InProgress ==>
            after.plan[k] == PlanStep(Failed, FailureNote(TerminalReason(stop, reason))))
      && |after.plan| == |c.plan| && |after.table.items| == |c.table.items|
      && after.table.messages == c.table.messages && after.goal == c.goal && after.nextRun == c.nextRun
      && (forall k :: 0 <= k < |c.table.items| ==>
            after.table.items[k] == c.table.items[k] ||
            (c.table.items[k].run == r && c.table.items[k].status == Q.Queued &&
              after.table.items[k].status == Q.Skipped))
      && Endings(after.log, r) == Endings(c.log, r) + 1
  {
    var after := Step(c, Terminalize(r, stop, reason));
    Q.OrderIs(after.table.items, Q.Of(r));
    assert after.log[..|c.log|] == c.log;
    assert Q.IsOrder(after.table.items, Q.Of(r), []);
    hide Q.Order;
  }

  /** A run that has ended, with or without inputs left, never holds the session again. */
  lemma {:induction false} EndedStaysEnded(c: Chat, actions: seq<Action>, r: nat)
    requires r < c.nextRun && c.active != Some(r)
    ensures Run(c, actions).active != Some(r) && r < Run(c, actions).nextRun
    decreases |actions|
  {
    if actions != [] {
      EndsStep(c, actions[0], r);
      hide Step;
      EndedStaysEnded(Step(c, actions[0]), actions[1..], r);
    }
  }

  lemma {:induction false} EndsStep(c: Chat, a: Action, r: nat)
    requires r < c.nextRun && c.active != Some(r)
    ensures r < Step(c, a).nextRun && Step(c, a).active != Some(r)
  {
    hide Q.Step, VerdictOf, Q.SkipAll, Interrupted, FailureNote, TerminalReason;
  }

  /** If nothing is queued for it then, nothing ever is, unless its stale worker adopts the
      leftovers of others. */
  lemma {:induction false} EndedQueueStaysEmpty(c: Chat, actions: seq<Action>, r: nat)
    requires r < c.nextRun && c.active != Some(r)
    requires forall k :: 0 <= k < |c.table.items| ==> !Q.Of(r).Picks(c.table.items[k])
    requires Queue(Q.TakeOver(r)) !in actions
    ensures forall k :: 0 <= k < |Run(c, actions).table.items| ==> !Q.Of(r).Picks(Run(c, actions).table.items[k])
    decreases |actions|
  {
    if actions != [] {
      var a, next := actions[0], Step(c, actions[0]);
      assert Queue(Q.TakeOver(r)) !in actions[1..] && a != Queue(Q.TakeOver(r));
      EndsStep(c, a, r);
      NothingQueued(c, a, r);
      hide Step, Q.Step;
      EndedQueueStaysEmpty(next, actions[1..], r);
    }
  }

  lemma {:induction false} NothingQueued(c: Chat, a: Action, r: nat)
    requires r < c.nextRun && c.active != Some(r) && a != Queue(Q.TakeOver(r))
    requires forall k :: 0 <= k < |c.table.items| ==> !Q.Of(r).Picks(c.table.items[k])
    ensures forall k :: 0 <= k < |Step(c, a).table.items| ==> !Q.Of(r).Picks(Step(c, a).table.items[k])
  {
    if a.Queue? && !a.q.Send? {
      NothingQueuedInTable(c.table, a.q, r);
      hide Q.Step;
    } else {
      hide Q.Order, Q.NextPosition, VerdictOf, Interrupted, FailureNote, TerminalReason;
    }
  }

  lemma {:induction false} NothingQueuedInTable(t: Q.Table, q: Q.Action, r: nat)
    requires q != Q.TakeOver(r) && !q.Send?
    requires forall k :: 0 <= k < |t.items| ==> !Q.Of(r).Picks(t.items[k])
    ensures forall k :: 0 <= k < |Q.Step(t, q).items| ==> !Q.Of(r).Picks(Q.Step(t, q).items[k])
  {
    hide Q.Order, Q.Place, Q.Reorderable;
    match q {
      case TakeOver(p) => AdoptElsewhere(t.items, p, r); hide Q.Adopt;
      case Arrange(ids) => if Q.Reorderable(t.items, ids) { ArrangeInPlace(t.items, ids, r); } hide Q.Reorder;
      case Serve(_, _) => hide Q.ClaimNext;
      case _ =>
    }
  }

  lemma {:induction false} AdoptElsewhere(items: seq<Q.Item>, q: nat, r: nat)
    requires q != r && forall k :: 0 <= k < |items| ==> !Q.Of(r).Picks(items[k])
    ensures forall k :: 0 <= k < |Q.Adopt(items, q)| ==> !Q.Of(r).Picks(Q.Adopt(items, q)[k])
  {
    var left := Q.Order(items, Q.NotOf(q));
    Q.OrderIs(items, Q.NotOf(q));
    Q.SortedHasNoRepeats(items, left);
    Q.PlaceIs(items, left, Some(q), 0);
    assert left[0..] == left;
    hide Q.Order, Q.Place, Q.Sorted;
    forall k | 0 <= k < |items| ensures !Q.Of(r).Picks(Q.Adopt(items, q)[k]) {
      if k in left {
        var j :| 0 <= j < |left| && left[j] == k;
      }
    }
  }

  lemma {:induction false} ArrangeInPlace(items: seq<Q.Item>, ids: seq<nat>, r: nat)
    requires Q.Reorderable(items, ids) && forall k :: 0 <= k < |items| ==> !Q.Of(r).Picks(items[k])
    ensures forall k :: 0 <= k < |items| ==> !Q.Of(r).Picks(Q.Reorder(items, ids).value[k])
  {
    assert forall i :: 0 <= i < |ids| ==> ids[i] in ids;
    Q.PlaceIs(items, ids, None, 0);
    assert ids[0..] == ids;
    hide Q.Place;
    forall k | 0 <= k < |items| ensures !Q.Of(r).Picks(Q.Reorder(items, ids).value[k]) {
      if k in ids {
        var j :| 0 <= j < |ids| && ids[j] == k;
      }
    }
  }

  // ----- leftovers first -----

  lemma {:induction false} RunKeepsRunsBelow(c: Chat, actions: seq<Action>)
    requires Inv(c) && RunsBelow(c)
    ensures RunsBelow(Run(c, actions))
    decreases |actions|
  {
    if actions != [] {
      TableStep(c, actions[0]);
      LogStep(c, actions[0]);
      GoalStep(c, actions[0]);
      RunsBelowStep(c, actions[0]);
      hide Step, Q.Inv, Alternates, GoalInv, GoalBound, RunsBelow;
      RunKeepsRunsBelow(Step(c, actions[0]), actions[1..]);
    }
  }

  lemma {:induction false} RunsBelowStep(c: Chat, a: Action)
    requires RunsBelow(c) && Alternates(c.log, c.active, c.nextRun)
    ensures RunsBelow(Step(c, a))
  {
    if c.active.Some? { AlternatesIs(c.log, c.active, c.nextRun, c.active.value); }
    hide Q.Order, Q.NextPosition, Alternates, VerdictOf, Interrupted, FailureNote, TerminalReason;
    if a.Queue? && !a.q.Send? && (a.q.TakeOver? ==> a.q.run < c.nextRun) {
      RunsBelowInTable(c.table, a.q, c.nextRun);
      hide Q.Step;
    }
  }

  lemma {:induction false} RunsBelowInTable(t: Q.Table, q: Q.Action, bound: nat)
    requires (q.TakeOver? ==> q.run < bound) && !q.Send? && forall k :: 0 <= k < |t.items| ==> t.items[k].run < bound
    ensures forall k :: 0 <= k < |Q.Step(t, q).items| ==> Q.Step(t, q).items[k].run < bound
  {
    hide Q.Order, Q.Place, Q.Reorderable;
    match q {
      case TakeOver(r) => RunsAfterAdopt(t.items, r); hide Q.Adopt;
      case Arrange(ids) => if Q.Reorderable(t.items, ids) { RunsAfterReorder(t.items, ids); } hide Q.Reorder;
      case Serve(_, _) => hide Q.ClaimNext;
      case _ =>
    }
  }

  lemma {:induction false} RunsAfterAdopt(items: seq<Q.Item>, q: nat)
    ensures |Q.Adopt(items, q)| == |items|
    ensures forall k :: 0 <= k < |items| ==> Q.Adopt(items, q)[k].run == items[k].run || Q.Adopt(items, q)[k].run == q
  {
    var left := Q.Order(items, Q.NotOf(q));
    Q.OrderIs(items, Q.NotOf(q));
    Q.SortedHasNoRepeats(items, left);
    Q.PlaceIs(items, left, Some(q), 0);
    assert left[0..] == left;
    hide Q.Order, Q.Place, Q.Sorted;
    forall k | 0 <= k < |items| ensures Q.Adopt(items, q)[k].run == items[k].run || Q.Adopt(items, q)[k].run == q {
      if k in left {
        var j :| 0 <= j < |left| && left[j] == k;
      }
    }
  }

  lemma {:induction false} RunsAfterReorder(items: seq<Q.Item>, ids: seq<nat>)
    requires Q.Reorderable(items, ids)
    ensures forall k :: 0 <= k < |items| ==> Q.Reorder(items, ids).value[k].run == items[k].run
  {
    assert forall i :: 0 <= i < |ids| ==> ids[i] in ids;
    Q.PlaceIs(items, ids, None, 0);
    assert ids[0..] == ids;
    hide Q.Place;
    forall k | 0 <= k < |items| ensures Q.Reorder(items, ids).value[k].run == items[k].run {
      if k in ids {
        var j :| 0 <= j < |ids| && ids[j] == k;
      }
    }
  }

  /** A run that adopts first serves every input left in the session, in the order they waited. */
  lemma {:induction false} LeftoversBecomeTheQueue(actions: seq<Action>, a: Action)
    requires Run(NEW, actions).active == None && Step(Run(NEW, actions), a).active.Some?
    ensures
      var c := Run(NEW, actions);
      var claimed := Step(c, a);
      var r := claimed.active.value;
      Q.Order(claimed.table.items, Q.Of(r)) == [] &&
      Q.Order(Step(claimed, Queue(Q.TakeOver(r))).table.items, Q.Of(r)) == Q.Order(c.table.items, Q.All)
  {
    var c := Run(NEW, actions);
    var claimed := Step(c, a);
    RunKeepsInv(NEW, actions);
    RunKeepsRunsBelow(NEW, actions);
    OnlyOwnEnd(c, a, 0);
    ClaimIsNew(c, a);
    NewRunAdopts(c.table.items, claimed.active.value);
    hide Run, Step, Inv, Q.Order, Q.Adopt;
  }

  lemma {:induction false} ClaimIsNew(c: Chat, a: Action)
    requires c.active == None && Step(c, a).active.Some?
    ensures
      var claimed, r := Step(c, a), c.nextRun;
      && claimed.active == Some(r) && claimed.table == c.table
      && Step(claimed, Queue(Q.TakeOver(r))).table.items == Q.Adopt(c.table.items, r)
  {
    hide Q.Order, Q.Adopt, VerdictOf;
    assert Logged(c, a).Some?;
    LoggedIs(c, a);
  }

  lemma {:induction false} NewRunAdopts(items: seq<Q.Item>, r: nat)
    requires forall k :: 0 <= k < |items| ==> items[k].run < r
    ensures Q.Order(items, Q.Of(r)) == [] && Q.Order(Q.Adopt(items, r), Q.Of(r)) == Q.Order(items, Q.All)
  {
    hide Q.Order, Q.Adopt;
    Q.OrderIs(items, Q.Of(r));
    Q.OrderIs(items, Q.NotOf(r));
    Q.OrderIs(items, Q.All);
    assert Q.IsOrder(items, Q.Of(r), []);
    assert Q.IsOrder(items, Q.All, Q.Order(items, Q.NotOf(r)));
    Q.AdoptFirst(items, r);
  }

  /** Steps that neither rearrange nor drop what is queued for `r`. */
  predicate Orderly(a: Action, r: nat) {
    match a
    case Terminalize(q, _, _) => q != r
    case Queue(q) =>
      (match q
       case TakeOver(_) => false
       case Arrange(_) => false
       case Delete(_) => false
       case DropAll(p) => p != r
       case _ => true)
    case _ => true
  }

  lemma {:induction false} DropTwice(before: seq<nat>, sent: seq<nat>, more: seq<nat>, m: nat, n: nat)
    requires m <= |before| && n <= |before[m..] + sent + more|
    ensures (before[m..] + sent + more)[n..] == (before + (sent + more))[m + n..]
  {
  }

  /** From then on the queue is first in, first out: it is what was waiting followed by what was
      sent since, less the inputs served, which are the first ones. */
  lemma {:induction false} QueueIsFifo(c: Chat, actions: seq<Action>, r: nat) returns (served: nat, newer: seq<nat>)
    requires forall a :: a in actions ==> Orderly(a, r)
    ensures served <= |Q.Order(c.table.items, Q.Of(r)) + newer| && |c.table.items| <= |Run(c, actions).table.items|
    ensures Q.Order(Run(c, actions).table.items, Q.Of(r)) == (Q.Order(c.table.items, Q.Of(r)) + newer)[served..]
    ensures forall k :: k in newer ==> |c.table.items| <= k
    decreases |actions|
  {
    var before := Q.Order(c.table.items, Q.Of(r));
    if actions == [] {
      served, newer := 0, [];
      assert before + [] == before;
    } else {
      var a, next := actions[0], Step(c, actions[0]);
      assert a in actions && forall b :: b in actions[1..] ==> b in actions;
      var dropped, sent := StepIsFifo(c, a, r);
      var s, more := QueueIsFifo(next, actions[1..], r);
      hide Step, Q.Order, Orderly;
      served, newer := dropped + s, sent + more;
      DropTwice(before, sent, more, dropped, s);
    }
  }

  lemma {:induction false} StepIsFifo(c: Chat, a: Action, r: nat) returns (dropped: nat, sent: seq<nat>)
    requires Orderly(a, r)
    ensures dropped <= |Q.Order(c.table.items, Q.Of(r))| && |c.table.items| <= |Step(c, a).table.items|
    ensures Q.Order(Step(c, a).table.items, Q.Of(r)) == Q.Order(c.table.items, Q.Of(r))[dropped..] + sent
    ensures forall k :: k in sent ==> |c.table.items| <= k
  {
    hide Q.Order;
    var items, after := c.table.items, Step(c, a).table.items;
    var order := Q.Order(items, Q.Of(r));
    dropped, sent := 0, [];
    assert order[0..] + [] == order && order[0..] == order;
    match a {
      case Send(text, part) =>
        if c.active.Some? && !Refuses(c, text, part) {
          Q.EnqueueAppends(items, c.active.value, text, r);
          sent := if c.active == Some(r) then [|items|] else [];
        }
      case Terminalize(q, _, _) => Q.SameQueue(items, after, Q.Of(r));
      case Queue(q) =>
        if q.Send? || q.TakeOver? {
        } else {
          dropped := TableStepIsFifo(c.table, q, r);
          hide Q.Step;
          assert order[dropped..] + [] == order[dropped..];
        }
      case _ =>
    }
  }

  lemma {:induction false} TableStepIsFifo(t: Q.Table, q: Q.Action, r: nat) returns (dropped: nat)
    requires Orderly(Queue(q), r) && !q.Send?
    ensures dropped <= |Q.Order(t.items, Q.Of(r))| && |t.items| <= |Q.Step(t, q).items|
    ensures Q.Order(Q.Step(t, q).items, Q.Of(r)) == Q.Order(t.items, Q.Of(r))[dropped..]
  {
    hide Q.Order, Q.ClaimNext;
    var items, after := t.items, Q.Step(t, q).items;
    var order := Q.Order(items, Q.Of(r));
    dropped := 0;
    assert order[0..] == order;
    match q {
      case Serve(p, sequence) =>
        if Q.ClaimNext(items, p).Some? {
          ServeSteps(t, p, sequence, r);
          if p == r && after != items { dropped := 1; }
        }
      case DropAll(p) => Q.SameQueue(items, after, Q.Of(r));
      case Edit(_, _) => Q.SameQueue(items, after, Q.Of(r));
      case Retry(_, _) => Q.SameQueue(items, after, Q.Of(r));
      case Post(_, _, _) =>
    }
  }

  lemma {:induction false} ServeSteps(t: Q.Table, p: nat, sequence: nat, r: nat)
    requires Q.ClaimNext(t.items, p).Some?
    ensures
      var after := Q.Consume(t, p, sequence).items;
      |after| == |t.items| &&
      if p == r && after != t.items
      then Q.Order(t.items, Q.Of(r)) != [] && Q.Order(after, Q.Of(r)) == Q.Order(t.items, Q.Of(r))[1..]
      else Q.Order(after, Q.Of(r)) == Q.Order(t.items, Q.Of(r))
  {
    Q.OrderIs(t.items, Q.Of(p));
    var after := Q.Consume(t, p, sequence).items;
    if Q.SequenceFree(t.messages, sequence) {
      Q.ConsumePops(t, p, sequence);
      var head := Q.ClaimNext(t.items, p).value;
      assert head in Q.Order(t.items, Q.Of(p));
      assert after[head].status == Q.Consumed;
    }
    hide Q.Order;
  }

  // ----- what ends and steps leave -----

  /** The reason of a termination is the first 500 characters of what was given, trimmed, or the kind of
      stop if that is blank. */
  lemma {:induction false} TerminalReasonIs(stop: string, reason: string)
    ensures
      var given, said := Strip(reason), TerminalReason(stop, reason);
      if given == [] then said == stop else said <= given && |said| == Min(|given|, 500)
  {
    hide Strip;
  }

  /** Terminating the run that holds the session fails the steps in progress, with a note that says why,
      and leaves the others as they are. */
  lemma {:induction false} TerminalFailsSteps(c: Chat, r: nat, stop: string, reason: string, k: nat)
    requires c.active == Some(r) && k < |c.plan|
    ensures
      var next, why := Step(c, Terminalize(r, stop, reason)), Strip(TerminalReason(stop, reason));
      |next.plan| == |c.plan| && next.plan[k] ==
        if c.plan[k].status != InProgress then c.plan[k]
        else PlanStep(Failed, if why == [] then PLAN_FAILURE_PREFIX else PLAN_FAILURE_PREFIX + ":" + why)
  {
    hide Strip, TerminalReason, Q.SkipAll;
  }

  /** The goal is over its budget, and nothing else keeps it from going on. */
  predicate OnlyBudgetStops(c: Chat) {
    && c.goal.Some? && c.goal.value.status == Active && c.active == None && !c.confirming && !c.asking
    && (forall k :: 0 <= k < |c.table.items| ==> c.table.items[k].status != Q.Queued)
    && c.goal.value.auto < c.goal.value.max && c.goal.value.used >= c.goal.value.budget
  }

  /** How a step changes the status of a goal: setting it makes it active, cancelling ends it, completing
      it works on a goal that is open, and only the budget limits it. */
  lemma {:induction false} GoalBecomes(c: Chat, a: Action)
    requires c.goal.Some?
    ensures
      var was, goal := c.goal.value.status, Step(c, a).goal;
      && goal.Some?
      && goal.value.status ==
           (if a.SetGoal? then Active else if a.CancelGoal? then Cancelled
           else if a.CompleteGoal? && (was == Active || was == BudgetLimited) then Completed
           else if a.CheckBudget? && OnlyBudgetStops(c) then BudgetLimited else was)
  {
    NoneQueuedIff(c.table.items);
    hide Q.Step, Q.Order, Refuses, Interrupted, TerminalReason, FailureNote, Q.SkipAll;
  }

  // ----- the limits the user sets -----

  /** A limit is the given number, if one was given that is not 0, else the default. */
  predicate IsLimit(x: int, given: Option<int>, default: int) {
    if given.Some? && given.value != 0 then x == given.value else x == default
  }

  /** The tokens of the turns that were recorded. */
  function UsedIn(actions: seq<Action>): nat {
    if actions == [] then 0
    else
      var last := actions[|actions| - 1];
      UsedIn(actions[..|actions| - 1]) + if last.RecordUsage? && last.tokens > 0 then last.tokens else 0
  }

  lemma {:induction false} SetGoalSets(c: Chat, budget: Option<int>, max: Option<int>)
    ensures
      var goal := Step(c, SetGoal(budget, max)).goal;
      && goal.Some? && goal.value.status == Active && goal.value.used == 0 && goal.value.auto == 0
      && IsLimit(goal.value.budget, budget, 200000) && IsLimit(goal.value.max, max, 10)
  {
  }

  lemma {:induction false} LimitsStay(c: Chat, a: Action)
    requires c.goal.Some? && !a.SetGoal?
    ensures
      var goal := Step(c, a).goal;
      && goal.Some? && goal.value.budget == c.goal.value.budget && goal.value.max == c.goal.value.max
      && goal.value.used == c.goal.value.used + UsedIn([a])
  {
    hide VerdictOf, Q.Step, Refuses, Interrupted, TerminalReason, FailureNote, Q.SkipAll;
    assert [a][..0] == [];
  }

  lemma {:induction false} RunSnoc(c: Chat, actions: seq<Action>, a: Action)
    ensures Run(c, actions + [a]) == Step(Run(c, actions), a)
    decreases |actions|
  {
    hide Step;
    if actions == [] {
      assert [] + [a] == [a] && [a][1..] == [];
    } else {
      assert (actions + [a])[1..] == actions[1..] + [a];
      RunSnoc(Step(c, actions[0]), actions[1..], a);
    }
  }

  /** After the goal was set, until it is set again, its limits are the ones set, its use is what the
      turns recorded, and no more continuations start than were allowed. */
  lemma {:induction false} SetGoalBinds(c: Chat, budget: Option<int>, max: Option<int>, actions: seq<Action>)
    requires Inv(c) && forall a :: a in actions ==> !a.SetGoal?
    ensures
      var t := Run(Step(c, SetGoal(budget, max)), actions);
      && t.goal.Some? && IsLimit(t.goal.value.budget, budget, 200000) && IsLimit(t.goal.value.max, max, 10)
      && t.goal.value.used == UsedIn(actions) && SinceGoal(t.log) <= Max(0, t.goal.value.max)
    decreases |actions|
  {
    var first := SetGoal(budget, max);
    var s := Step(c, first);
    if actions == [] {
      SetGoalSets(c, budget, max);
      TableStep(c, first);
      LogStep(c, first);
      GoalStep(c, first);
      hide Step;
    } else {
      var n := |actions| - 1;
      assert actions == actions[..n] + [actions[n]] && actions[n] in actions;
      assert forall a :: a in actions[..n] ==> a in actions;
      SetGoalBinds(c, budget, max, actions[..n]);
      TableStep(c, first);
      LogStep(c, first);
      GoalStep(c, first);
      hide Step, Inv, SinceGoal, GoalInv, GoalBound, Q.Inv, Alternates;
      assert Inv(s) by { assert Q.Inv(s.table) && GoalInv(s) && GoalBound(s); InvOf(s); }
      RunKeepsInv(s, actions);
      RunSnoc(s, actions[..n], actions[n]);
      LimitsStay(Run(s, actions[..n]), actions[n]);
      assert [actions[n]][..0] == [];
      InvBounds(Run(s, actions));
    }
  }

  lemma {:induction false} InvOf(c: Chat)
    requires Alternates(c.log, c.active, c.nextRun) && GoalInv(c) && GoalBound(c) && Q.Inv(c.table)
    ensures Inv(c)
  {
  }

  lemma {:induction false} InvBounds(c: Chat)
    requires Inv(c) && c.goal.Some?
    ensures SinceGoal(c.log) == c.goal.value.auto <= Max(0, c.goal.value.max)
  {
    hide Alternates, Q.Inv, SinceGoal;
  }

  /** Once the turns have used up the budget that was set, no continuation starts any more. */
  lemma {:induction false} BudgetEnds(c: Chat, budget: Option<int>, max: Option<int>, actions: seq<Action>, n: nat)
    requires Inv(c) && forall a :: a in actions ==> !a.SetGoal?
    requires n <= |actions| && forall limit :: IsLimit(limit, budget, 200000) ==> UsedIn(actions[..n]) >= limit
    ensures
      var s := Step(c, SetGoal(budget, max));
      SinceGoal(Run(s, actions).log) == SinceGoal(Run(s, actions[..n]).log)
    decreases |actions|
  {
    var s, m := Step(c, SetGoal(budget, max)), |actions| - 1;
    if n == |actions| {
      assert actions[..n] == actions;
    } else {
      assert actions == actions[..m] + [actions[m]] && actions[m] in actions && actions[..m][..n] == actions[..n];
      assert forall a :: a in actions[..m] ==> a in actions;
      BudgetEnds(c, budget, max, actions[..m], n);
      SetGoalBinds(c, budget, max, actions[..m]);
      UsedGrows(actions, n, m);
      hide Step, SinceGoal;
      RunSnoc(s, actions[..m], actions[m]);
      SpentStep(Run(s, actions[..m]), actions[m]);
    }
  }

  lemma {:induction false} UsedGrows(actions: seq<Action>, n: nat, m: nat)
    requires n <= m <= |actions|
    ensures UsedIn(actions[..n]) <= UsedIn(actions[..m])
  {
    if n < m {
      assert actions[..m][..m - 1] == actions[..m - 1];
      UsedGrows(actions, n, m - 1);
    }
  }

  lemma {:induction false} SpentStep(c: Chat, a: Action)
    requires c.goal.Some? && c.goal.value.used >= c.goal.value.budget && !a.SetGoal?
    ensures SinceGoal(Step(c, a).log) == SinceGoal(c.log)
  {
    hide Q.Step, SinceGoal, Q.SkipAll, Interrupted, Q.Order;
    assert VerdictOf(c) != Ok;
    var logged := Logged(c, a);
    hide VerdictOf;
    if logged.Some? {
      LoggedIs(c, a);
      SinceGoalMore(c.log, logged.value);
    } else {
      NotLogged(c, a);
    }
  }

  // ----- goals that are over -----

  /** A goal that is cancelled, completed or out of budget starts nothing until it is set again. */
  lemma {:induction false} FinishedGoalIsQuiet(c: Chat, actions: seq<Action>)
    requires c.goal.Some? && c.goal.value.status != Active
    requires forall a :: a in actions ==> !a.SetGoal?
    ensures SinceGoal(Run(c, actions).log) == SinceGoal(c.log)
    ensures Run(c, actions).goal.Some? && Run(c, actions).goal.value.status != Active
    decreases |actions|
  {
    if actions != [] {
      var a := actions[0];
      assert a in actions && forall b :: b in actions[1..] ==> b in actions;
      QuietStep(c, a);
      hide Step;
      FinishedGoalIsQuiet(Step(c, a), actions[1..]);
    }
  }

  lemma {:induction false} QuietStep(c: Chat, a: Action)
    requires c.goal.Some? && c.goal.value.status != Active && !a.SetGoal?
    ensures SinceGoal(Step(c, a).log) == SinceGoal(c.log)
    ensures Step(c, a).goal.Some? && Step(c, a).goal.value.status != Active
  {
    hide Q.Step, SinceGoal, VerdictOf, Q.SkipAll, Interrupted;
    VerdictOfNoGoal(c);
    var logged := Logged(c, a);
    if logged.Some? {
      SinceGoalMore(c.log, logged.value);
    }
  }

  // ----- the session row, updated in place -----

  class ChatSession {
    var active: Option<nat>
    var cancel: bool
    var confirming: bool
    var asking: bool
    var plan: seq<PlanStep>
    var goal: Option<Goal>
    var nextRun: nat
    ghost var log: seq<Event>
    const inputs: Q.Inputs

    constructor ()
      ensures View() == NEW && fresh(inputs)
    {
      active, cancel, confirming, asking, plan, goal, nextRun, log := None, false, false, false, [], None, 0, [];
      inputs := new Q.Inputs();
    }

    ghost function View(): Chat
      reads this, inputs
    {
      Chat(active, cancel, confirming, asking, plan, inputs.View(), goal, nextRun, log)
    }

    method ClaimRun(ghost who: Claimer) returns (run: nat)
      modifies this
      ensures View() == Claim(old(View()), who) && run == old(nextRun)
    {
      run := nextRun;
      active := Some(run);
      cancel := false;
      nextRun := nextRun + 1;
      log := log + [Claimed(run, who)];
    }

    /** A user message either starts a run or waits for the one that is running, unless what it
        carries does not fit the state of the session. */
    method SendMessage(text: string, part: Part) returns (refused: bool, run: Option<nat>)
      modifies this, inputs
      ensures View() == Step(old(View()), Send(text, part))
      ensures refused <==> Refuses(old(View()), text, part)
      ensures run.Some? <==> old(active).None? && !refused
    {
      var blank := Strip(text) == [];
      hide Strip;
      if (part.Nothing? && blank) || ((part.Answer? || part.Proceed?) && !blank) {
        return true, None;
      }
      if active.Some? {
        if !part.Nothing? {
          return true, None;
        }
        var id := inputs.EnqueueInput(active.value, text);
        return false, None;
      }
      if asking {
        if !part.Answer? || !part.fits {
          return true, None;
        }
      } else if part.Answer? {
        return true, None;
      }
      if part.Decisions? && (!confirming || !part.fits) {
        return true, None;
      }
      if part.Override? && (confirming || !part.fits) {
        return true, None;
      }
      if part.Proceed? && (confirming || part.step >= |plan| || plan[part.step].status != Failed) {
        return true, None;
      }
      var id := ClaimRun(Sender);
      refused, run := false, Some(id);
    }

    method ClaimContinuationRun() returns (run: Option<nat>)
      modifies this
      ensures View() == Step(old(View()), ClaimContinuation)
      ensures run.Some? <==> VerdictOf(old(View())) == Ok
    {
      var queued := Q.Order(inputs.items, Q.All);
      var verdict := EvaluateContinuation(goal, active, confirming || asking, |queued|);
      assert verdict == VerdictOf(View());
      hide Q.Order, VerdictOf;
      if verdict != Ok {
        return None;
      }
      var id := ClaimRun(Continuation);
      goal := Some(goal.value.(auto := goal.value.auto + 1));
      run := Some(id);
    }

    /** The terminal transaction, guarded by the claim it ends. */
    method TerminalizeAgentRun(run: nat, stop: string, reason: string) returns (committed: bool)
      modifies this, inputs
      ensures View() == Step(old(View()), Terminalize(run, stop, reason))
      ensures committed <==> old(active) == Some(run)
    {
      hide FailureNote, TerminalReason;
      if active != Some(run) {
        return false;
      }
      inputs.SkipQueuedInputs(run);
      var interrupted := MarkPlanInterrupted(plan, TerminalReason(stop, reason));
      if interrupted.Some? {
        plan := interrupted.value;
      }
      confirming, asking := false, false;
      active := None;
      cancel := false;
      log := log + [Terminated(run)];
      committed := true;
    }

    /** The release on every exit of a settled turn. */
    method ReleaseRun(run: nat)
      modifies this
      ensures View() == Step(old(View()), Release(run))
    {
      if active == Some(run) {
        active := None;
        cancel := false;
        log := log + [Released(run)];
      }
    }

    method ResetGoal(budget: Option<int>, max: Option<int>)
      modifies this
      ensures View() == Step(old(View()), SetGoal(budget, max))
    {
      goal := Some(Goal(Active, Or(budget, DEFAULT_TOKEN_BUDGET), 0, 0, Or(max, DEFAULT_MAX_AUTO_RUNS)));
      log := log + [GoalSet];
    }
  }
}
