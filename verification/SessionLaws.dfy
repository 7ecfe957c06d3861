/** More on the session row: what each message does, whose cancellation a request is, and when a question
    or a confirmation is open. */
module SessionLaws {
  import opened Text
  import Q = RunInputs
  import opened RunProtocol

  /** The session has no run, no open question, and no waiting calls. */
  predicate IsIdle(c: Chat) { c.active.None? && !c.asking && !c.confirming }

  /** The message is one the session has a use for: with a run there is only text, for its queue; else an open
      question needs its answer, and without one text is always welcome, decisions need calls that wait, and
      an override or a failed step of the plan that none does. */
  predicate IsWelcome(c: Chat, text: string, part: Part) {
    if part.Nothing? then !Blank(text) && (c.active.Some? || !c.asking)
    else if part.Answer? then c.active.None? && c.asking && part.fits && Blank(text)
    else if part.Decisions? then c.active.None? && !c.asking && c.confirming && part.fits
    else if part.Override? then IsIdle(c) && part.fits
    else IsIdle(c) && part.step < |c.plan| && c.plan[part.step].status == Failed && Blank(text)
  }

  /** A new run has the session, with no cancellation requested. */
  predicate HasStarted(c: Chat, after: Chat, who: Claimer) {
    after == c.(active := Some(c.nextRun), cancel := false, nextRun := c.nextRun + 1,
                log := c.log + [Claimed(c.nextRun, who)])
  }

  /** A welcome message joins the queue of the run that holds the session, or starts a run; any other one
      changes nothing. */
  lemma {:induction false} MessageIs(c: Chat, text: string, part: Part)
    ensures
      var after := Step(c, Send(text, part));
      if !IsWelcome(c, text, part) then after == c
      else if c.active.None? then HasStarted(c, after, Sender)
      else
        && after == c.(table := after.table) && after.table.messages == c.table.messages
        && forall r: nat :: Q.Order(after.table.items, Q.Of(r)) ==
             Q.Order(c.table.items, Q.Of(r)) + if c.active == Some(r) then [|c.table.items|] else []
  {
    hide Strip, Q.Order, Q.Enqueue;
    if IsWelcome(c, text, part) && c.active.Some? {
      forall r: nat ensures Q.Order(Step(c, Send(text, part)).table.items, Q.Of(r)) ==
        Q.Order(c.table.items, Q.Of(r)) + if c.active == Some(r) then [|c.table.items|] else []
      {
        Q.EnqueueAppends(c.table.items, c.active.value, text, r);
      }
    }
  }

  /** The scheduler starts a run on an idle session only. */
  lemma {:induction false} LaunchIs(c: Chat)
    ensures
      if IsIdle(c) then HasStarted(c, Step(c, ClaimLaunch), Scheduler) else Step(c, ClaimLaunch) == c
  {
  }

  // ----- cancelling -----

  predicate CancelHasRun(c: Chat) { c.cancel ==> c.active.Some? }

  lemma {:induction false} CancelStep(c: Chat, a: Action)
    requires CancelHasRun(c)
    ensures CancelHasRun(Step(c, a))
    ensures Step(c, a).active.Some? && Step(c, a).active != c.active ==> !Step(c, a).cancel
    ensures c.cancel && Step(c, a).active == c.active ==> Step(c, a).cancel
    ensures !c.cancel && Step(c, a).cancel ==> a.RequestCancel? && c.active.Some?
  {
    if VerdictOf(c) == Ok { VerdictOk(c); }
    hide Q.Step, VerdictOf, Q.SkipAll, Interrupted, FailureNote, TerminalReason, Refuses;
  }

  /** No request to cancel outlives its run. */
  lemma {:induction false} CancelsHaveRuns(c: Chat, actions: seq<Action>)
    requires CancelHasRun(c)
    ensures CancelHasRun(Run(c, actions))
    decreases |actions|
  {
    if actions != [] {
      CancelStep(c, actions[0]);
      hide Step;
      CancelsHaveRuns(Step(c, actions[0]), actions[1..]);
    }
  }

  lemma {:induction false} CancelIsForTheRun(c: Chat, r: nat, actions: seq<Action>)
    requires c.active == Some(r) && r < c.nextRun && c.cancel
    ensures Run(c, actions).active == Some(r) ==> Run(c, actions).cancel
    ensures
      var after := Run(c, actions);
      after.active.Some? && after.active != Some(r) && (forall a :: a in actions ==> !a.RequestCancel?) ==>
        !after.cancel
    decreases |actions|
  {
    if actions != [] {
      var next := Step(c, actions[0]);
      CancelStep(c, actions[0]);
      RunNumberGrows(c, actions[0]);
      hide Step;
      if next.active == Some(r) {
        CancelIsForTheRun(next, r, actions[1..]);
      } else {
        EndedStaysEnded(next, actions[1..], r);
        if forall a :: a in actions ==> !a.RequestCancel? { NoCancel(next, actions[1..]); }
      }
    }
  }

  lemma {:induction false} RunNumberGrows(c: Chat, a: Action)
    ensures c.nextRun <= Step(c, a).nextRun
  {
    hide Q.Step, VerdictOf, Q.SkipAll, Interrupted, FailureNote, TerminalReason, Refuses;
  }

  lemma {:induction false} NoCancel(c: Chat, actions: seq<Action>)
    requires CancelHasRun(c) && !c.cancel && forall a :: a in actions ==> !a.RequestCancel?
    ensures !Run(c, actions).cancel
    decreases |actions|
  {
    if actions != [] {
      assert actions[0] in actions;
      CancelStep(c, actions[0]);
      hide Step;
      NoCancel(Step(c, actions[0]), actions[1..]);
    }
  }

  /** A request to cancel concerns the run that holds the session then, if there is one, and no other: it
      is seen for as long as that run holds the session, and not by the runs after it. */
  lemma {:induction false} CancelRequestIs(c: Chat, actions: seq<Action>)
    requires CancelHasRun(c) && (c.active.Some? ==> c.active.value < c.nextRun)
    ensures
      var after := Run(Step(c, RequestCancel), actions);
      && (c.active.Some? && after.active == c.active ==> after.cancel)
      && (after.active != c.active && (forall a :: a in actions ==> !a.RequestCancel?) ==> !after.cancel)
  {
    var next := Step(c, RequestCancel);
    assert next == c.(cancel := c.active.Some?);
    hide Step;
    CancelsHaveRuns(next, actions);
    if c.active.Some? {
      CancelIsForTheRun(next, c.active.value, actions);
    } else if forall a :: a in actions ==> !a.RequestCancel? {
      NoCancel(next, actions);
    }
  }

  // ----- what is open -----

  /** A confirmation and a question are opened by a pause only, and closed by the run that resumes or by
      the terminal commit of the run that holds the session. */
  lemma {:induction false} OpenRequestsAre(c: Chat, a: Action)
    ensures
      var closed := a.Resume? || (a.Terminalize? && c.active == Some(a.run));
      && (Step(c, a).confirming <==> a == Pause(true) || (c.confirming && !closed))
      && (Step(c, a).asking <==> a == Pause(false) || (c.asking && !closed))
  {
    hide Q.Step, VerdictOf, Q.SkipAll, Interrupted, FailureNote, TerminalReason, Refuses;
  }

  // ----- goal and plan -----

  /** A continuation starts a run, and is counted once, exactly if nothing speaks against it. */
  lemma {:induction false} ContinuationIs(c: Chat)
    ensures
      var after := Step(c, ClaimContinuation);
      if VerdictOf(c) != Ok then after == c
      else
        && c.goal.Some? && after.goal == Some(c.goal.value.(auto := c.goal.value.auto + 1))
        && HasStarted(c, after.(goal := c.goal), Continuation)
  {
    if VerdictOf(c) == Ok { VerdictOk(c); }
    hide VerdictOf;
  }

  /** What a goal has used and been continued changes by the recorded turns and by continuations only. */
  lemma {:induction false} GoalCounts(c: Chat, a: Action)
    requires c.goal.Some? && !a.SetGoal?
    ensures
      var was, goal := c.goal.value, Step(c, a).goal;
      && goal.Some?
      && goal.value.used == was.used + (if a.RecordUsage? && a.tokens > 0 then a.tokens else 0)
      && goal.value.auto == was.auto + (if a.ClaimContinuation? && VerdictOf(c) == Ok then 1 else 0)
  {
    hide Q.Step, VerdictOf, Q.SkipAll, Interrupted, FailureNote, TerminalReason, Refuses;
  }

  /** The plan is what the tool wrote, apart from the steps that fail with the run that holds the
      session. */
  lemma {:induction false} PlanIs(c: Chat, a: Action)
    ensures a.UpdatePlan? ==> Step(c, a).plan == a.plan
    ensures !a.UpdatePlan? && !(a.Terminalize? && c.active == Some(a.run)) ==> Step(c, a).plan == c.plan
  {
    hide Q.Step, VerdictOf, Q.SkipAll, Interrupted, FailureNote, TerminalReason, Refuses;
  }
}
