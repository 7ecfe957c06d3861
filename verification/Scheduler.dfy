/** Scheduled tasks: the next trigger, and the compare-and-set by which any number of workers,
    with any delays between scanning and claiming, share the triggers of one task.
    Times are whole seconds; the next match of a cron expression is an arbitrary later time. */
module Scheduler {
  import opened Text

  datatype Schedule =
    | Manual
    | Once(runAt: Option<int>)
    | Interval(seconds: nat)
    | Cron(next: int -> Option<int>)

  datatype Status = Active | Paused | Archived

  datatype Task = Task(schedule: Schedule, status: Status, nextRun: Option<int>, lastRun: Option<int>)

  /** A cron schedule only ever names later times. */
  ghost predicate Forward(s: Schedule) {
    s.Cron? ==> forall t: int :: s.next(t).Some? ==> s.next(t).value > t
  }

  function ComputeNextRun(s: Schedule, from: int): Option<int> {
    match s
    case Manual => None
    case Once(runAt) => if runAt.Some? && runAt.value > from then runAt else None
    case Interval(seconds) => if seconds == 0 then None else Some(from + seconds)
    case Cron(next) => next(from)
  }

  lemma {:induction false} NextRunIsLater(s: Schedule, from: int)
    requires Forward(s)
    ensures ComputeNextRun(s, from).Some? ==> ComputeNextRun(s, from).value > from
  {
  }

  // ----- claims -----

  /** The due scan saw this task at `now`; the claim may come any time later. */
  predicate Due(seen: Task, now: int) {
    seen.status == Active && seen.nextRun.Some? && seen.nextRun.value <= now
  }

  function Claimed(task: Task, seen: Task, now: int): Task {
    if seen.schedule.Once? then task.(status := Archived, nextRun := None, lastRun := Some(now))
    else task.(nextRun := ComputeNextRun(seen.schedule, now), lastRun := Some(now))
  }

  /** A successful claim: the trigger that was claimed and the tick that claimed it. */
  datatype Fire = Fire(trigger: int, now: int)

  datatype State = State(task: Task, fires: seq<Fire>)

  datatype Action =
    | Claim(seen: Task, now: int)
    | Reschedule(schedule: Schedule, moment: int)
    | SetStatus(status: Status, moment: int)

  predicate Succeeds(s: State, a: Action) {
    a.Claim? && Due(a.seen, a.now) && s.task.status == Active && s.task.nextRun == a.seen.nextRun
  }

  function Step(s: State, a: Action): State {
    match a
    case Claim(seen, now) =>
      if Succeeds(s, a) then State(Claimed(s.task, seen, now), s.fires + [Fire(seen.nextRun.value, now)]) else s
    case Reschedule(schedule, moment) =>
      var next := if s.task.status == Active then ComputeNextRun(schedule, moment) else None;
      s.(task := s.task.(schedule := schedule, nextRun := next))
    case SetStatus(status, moment) =>
      var next := if status == Active then ComputeNextRun(s.task.schedule, moment) else None;
      s.(task := s.task.(status := status, nextRun := next))
  }

  function Run(s: State, actions: seq<Action>): State
    decreases |actions|
  {
    if actions == [] then s else Run(Step(s, actions[0]), actions[1..])
  }

  /** The row, updated in place by one conditional statement. */
  class IcronTask {
    var schedule: Schedule
    var status: Status
    var nextRun: Option<int>
    var lastRun: Option<int>
    ghost var fires: seq<Fire>

    constructor (task: Task)
      ensures View() == State(task, [])
    {
      schedule, status, nextRun, lastRun, fires := task.schedule, task.status, task.nextRun, task.lastRun, [];
    }

    ghost function View(): State
      reads this
    {
      State(Task(schedule, status, nextRun, lastRun), fires)
    }

    method ClaimDueTask(seen: Task, now: int) returns (claimed: bool)
      requires Due(seen, now)
      modifies this
      ensures View() == Step(old(View()), Claim(seen, now)) && (claimed <==> Succeeds(old(View()), Claim(seen, now)))
    {
      claimed := status == Active && nextRun == seen.nextRun;
      if claimed {
        fires := fires + [Fire(seen.nextRun.value, now)];
        if seen.schedule.Once? {
          status, nextRun := Archived, None;
        } else {
          nextRun := ComputeNextRun(seen.schedule, now);
        }
        lastRun := Some(now);
      }
    }

    method SetTaskStatus(to: Status, moment: int)
      modifies this
      ensures View() == Step(old(View()), SetStatus(to, moment))
    {
      status := to;
      nextRun := if to == Active then ComputeNextRun(schedule, moment) else None;
    }
  }

  // ----- each trigger fires once -----

  function LastNow(fires: seq<Fire>, default: int): int {
    if fires == [] then default else fires[|fires| - 1].now
  }

  /** An edit made on a clock that is not behind the last tick that fired. */
  ghost predicate Timely(s: State, a: Action) {
    match a
    case Claim(seen, _) => Forward(seen.schedule)
    case Reschedule(schedule, moment) => Forward(schedule) && LastNow(s.fires, moment) <= moment
    case SetStatus(_, moment) => LastNow(s.fires, moment) <= moment
  }

  ghost predicate AllTimely(s: State, actions: seq<Action>)
    decreases |actions|
  {
    actions == [] || (Timely(s, actions[0]) && AllTimely(Step(s, actions[0]), actions[1..]))
  }

  ghost predicate Climbing(fires: seq<Fire>) {
    && (forall i :: 0 <= i < |fires| ==> fires[i].trigger <= fires[i].now)
    && (forall i, j :: 0 <= i < j < |fires| ==> fires[i].now < fires[j].trigger)
  }

  ghost predicate Inv(s: State) {
    && Forward(s.task.schedule) && Climbing(s.fires)
    && (s.task.nextRun.Some? && s.fires != [] ==> s.fires[|s.fires| - 1].now < s.task.nextRun.value)
  }

  lemma {:induction false} StepKeepsInv(s: State, a: Action)
    requires Inv(s) && Timely(s, a)
    ensures Inv(Step(s, a))
  {
    if Succeeds(s, a) && s.fires != [] {
      assert forall i :: 0 <= i < |s.fires| - 1 ==> s.fires[i].now < s.fires[|s.fires| - 1].trigger;
    }
  }

  lemma {:induction false} RunKeepsInv(s: State, actions: seq<Action>)
    requires Inv(s) && AllTimely(s, actions)
    ensures Inv(Run(s, actions))
    decreases |actions|
  {
    if actions != [] {
      StepKeepsInv(s, actions[0]);
      hide Step, Inv, Timely;
      RunKeepsInv(Step(s, actions[0]), actions[1..]);
    }
  }

  /** However many workers scan and claim, late or at once: no trigger is claimed twice, triggers
      and ticks go strictly forward, and the next trigger lies after the last tick. */
  lemma {:induction false} EachTriggerFiresOnce(task: Task, actions: seq<Action>)
    requires Forward(task.schedule) && AllTimely(State(task, []), actions)
    ensures
      var s := Run(State(task, []), actions);
      (forall i, j :: 0 <= i < j < |s.fires| ==>
        s.fires[i].trigger < s.fires[j].trigger && s.fires[i].now < s.fires[j].now) &&
      (forall i :: 0 <= i < |s.fires| && s.task.nextRun.Some? ==> s.fires[i].now < s.task.nextRun.value)
  {
    RunKeepsInv(State(task, []), actions);
    var fires := Run(State(task, []), actions).fires;
    hide Run;
    forall i, j | 0 <= i < j < |fires| ensures fires[i].trigger < fires[j].trigger && fires[i].now < fires[j].now {
      assert fires[i].now < fires[j].trigger;
    }
    forall i | 0 <= i < |fires| - 1 ensures fires[i].now < fires[|fires| - 1].now {
      assert fires[i].now < fires[|fires| - 1].trigger;
    }
  }

  /** The next trigger lies past the last tick. */
  predicate NextIsPast(s: State) {
    s.task.nextRun.Some? && s.fires != [] ==> s.fires[|s.fires| - 1].now < s.task.nextRun.value
  }

  /** A claim, or an edit on any clock that sets a trigger past the last tick. */
  ghost predicate Meets(s: State, a: Action) {
    match a
    case Claim(seen, _) => Forward(seen.schedule)
    case _ => Forward(Step(s, a).task.schedule) && NextIsPast(Step(s, a))
  }

  ghost predicate AllMeet(s: State, actions: seq<Action>)
    decreases |actions|
  {
    actions == [] || (Meets(s, actions[0]) && AllMeet(Step(s, actions[0]), actions[1..]))
  }

  lemma {:induction false} MeetingKeepsInv(s: State, actions: seq<Action>)
    requires Inv(s) && AllMeet(s, actions)
    ensures Inv(Run(s, actions))
    decreases |actions|
  {
    if actions != [] {
      if actions[0].Claim? { StepKeepsInv(s, actions[0]); }
      assert Inv(Step(s, actions[0]));
      hide Step, Inv, Meets;
      MeetingKeepsInv(Step(s, actions[0]), actions[1..]);
    }
  }

  /** Triggers and ticks go forward in every run of claims and of edits that meet the condition. */
  ghost predicate GoesForward(s: State) {
    forall actions :: AllMeet(s, actions) ==> Climbing(Run(s, actions).fires)
  }

  /** After an edit, on whatever clock, triggers and ticks keep going forward in every run of claims
      and of edits that meet the condition exactly if the edit meets it: the trigger it sets lies
      past the last tick. */
  lemma {:induction false} EditIsSafeIff(s: State, edit: Action)
    requires Inv(s) && !edit.Claim? && Forward(Step(s, edit).task.schedule)
    ensures GoesForward(Step(s, edit)) <==> NextIsPast(Step(s, edit))
  {
    var t := Step(s, edit);
    if NextIsPast(t) {
      assert Inv(t);
      forall actions | AllMeet(t, actions) ensures Climbing(Run(t, actions).fires) {
        MeetingKeepsInv(t, actions);
      }
    } else {
      var claim := Claim(t.task, t.task.nextRun.value);
      var u := Step(t, claim);
      assert Succeeds(t, claim) && u.fires == s.fires + [Fire(claim.now, claim.now)];
      assert u.fires[|s.fires| - 1].now >= u.fires[|s.fires|].trigger;
      assert [claim][1..] == [] && AllMeet(u, []) && AllMeet(t, [claim]);
      assert Run(t, [claim]) == Run(u, []) == u;
    }
  }

  /** On a clock behind the last tick an edit can bring a claimed trigger back. */
  lemma {:induction false} EditBehindRepeats()
    ensures
      var slot := (t: int) => if t < 9 then Some(9) else Some(t + 24);
      var task := Task(Cron(slot), Active, Some(9), None);
      var s := Step(Step(Step(State(task, []), Claim(task, 9)), SetStatus(Active, 8)), Claim(task, 9));
      Forward(task.schedule) && s.fires == [Fire(9, 9), Fire(9, 9)]
  {
    var slot := (t: int) => if t < 9 then Some(9) else Some(t + 24);
    var task := Task(Cron(slot), Active, Some(9), None);
    var s1 := Step(State(task, []), Claim(task, 9));
    assert s1.fires == [Fire(9, 9)] && s1.task.schedule == Cron(slot) && s1.task.status == Active;
    var s2 := Step(s1, SetStatus(Active, 8));
    assert s2.task.nextRun == Some(9);
  }

  // ----- which trigger comes next -----

  /** The next trigger after a moment: none for a manual task, the one moment of a task that runs once
      while it lies ahead, one interval later, or the next match. */
  predicate IsNextSlot(schedule: Schedule, from: int, next: Option<int>) {
    match schedule
    case Manual => next.None?
    case Once(runAt) => if runAt.Some? && from < runAt.value then next == runAt else next.None?
    case Interval(seconds) => if seconds > 0 then next.Some? && next.value - from == seconds else next.None?
    case Cron(slot) => next == slot(from)
  }

  /** An edit sets the next trigger after its moment; a task that is not active has none. */
  lemma {:induction false} EditSetsNext(s: State, edit: Action)
    requires !edit.Claim?
    ensures
      var task := Step(s, edit).task;
      && task.schedule == (if edit.Reschedule? then edit.schedule else s.task.schedule)
      && task.status == (if edit.SetStatus? then edit.status else s.task.status)
      && (if task.status == Active then IsNextSlot(task.schedule, edit.moment, task.nextRun) else task.nextRun.None?)
      && Step(s, edit).fires == s.fires
  {
  }

  /** Whoever claims a task that is due as it was seen gets the trigger, sets the next one after the
      tick, and a task that runs once is archived; anyone else gets nothing. */
  lemma {:induction false} ClaimTakesTrigger(s: State, seen: Task, now: int)
    requires seen.status == Active && seen.nextRun.Some? && seen.nextRun.value <= now
    ensures
      var next := Step(s, Claim(seen, now));
      if s.task.status == Active && s.task.nextRun == seen.nextRun then
        && next.fires == s.fires + [Fire(seen.nextRun.value, now)] && next.task.lastRun == Some(now)
        && next.task.schedule == s.task.schedule
        && (if seen.schedule.Once? then next.task.status == Archived && next.task.nextRun.None?
           else next.task.status == Active && IsNextSlot(seen.schedule, now, next.task.nextRun))
      else next == s
  {
  }

  /** Each trigger is the next slot after the tick before it, and the pending one after the last. */
  ghost predicate InRhythm(s: State) {
    && (forall i :: 0 < i < |s.fires| ==>
         IsNextSlot(s.task.schedule, s.fires[i - 1].now, Some(s.fires[i].trigger)))
    && (s.fires != [] && s.task.status == Active ==>
         IsNextSlot(s.task.schedule, s.fires[|s.fires| - 1].now, s.task.nextRun))
  }

  /** A task that is only claimed keeps its rhythm: every trigger is the next slot after the tick that
      claimed the one before, so what was missed meanwhile is skipped and nothing else is. */
  lemma {:induction false} ClaimsKeepRhythm(s: State, actions: seq<Action>)
    requires Unedited(s.task.schedule, actions) && InRhythm(s)
    requires s.task.schedule.Once? && s.fires != [] ==> s.task.status != Active
    ensures InRhythm(Run(s, actions))
    decreases |actions|
  {
    if actions != [] {
      var next := Step(s, actions[0]);
      assert InRhythm(next) && next.task.schedule == s.task.schedule;
      hide InRhythm, IsNextSlot;
      ClaimsKeepRhythm(next, actions[1..]);
    }
  }

  // ----- bounds on an unedited task -----

  /** Claims only, by workers that scanned it with its one schedule. */
  ghost predicate Unedited(schedule: Schedule, actions: seq<Action>) {
    forall i :: 0 <= i < |actions| ==> actions[i].Claim? && actions[i].seen.schedule == schedule
  }

  /** A task that runs once is claimed once at most, and is archived by then. */
  lemma {:induction false} OnceFiresOnce(s: State, actions: seq<Action>)
    requires s.task.schedule.Once? && Unedited(s.task.schedule, actions)
    requires |s.fires| <= 1 && (s.fires != [] ==> s.task.status == Archived)
    ensures |Run(s, actions).fires| <= 1
    ensures Run(s, actions).fires != [] ==> Run(s, actions).task.status == Archived
    decreases |actions|
  {
    if actions != [] {
      OnceFiresOnce(Step(s, actions[0]), actions[1..]);
    }
  }

  lemma {:induction false} ManualNeverFires(s: State, actions: seq<Action>)
    requires s.task.schedule.Manual? && s.task.nextRun == None && Unedited(s.task.schedule, actions)
    ensures Run(s, actions) == s
    decreases |actions|
  {
    if actions != [] {
      ManualNeverFires(Step(s, actions[0]), actions[1..]);
    }
  }

  ghost predicate Spaced(fires: seq<Fire>, seconds: nat) {
    forall i, j :: 0 <= i < j < |fires| ==> fires[i].now + seconds <= fires[j].now
  }

  lemma {:induction false} IntervalIsSpaced(s: State, actions: seq<Action>, seconds: nat)
    requires s.task.schedule == Interval(seconds) && Unedited(s.task.schedule, actions)
    requires Spaced(s.fires, seconds)
    requires s.fires != [] && s.task.nextRun.Some? ==> s.fires[|s.fires| - 1].now + seconds <= s.task.nextRun.value
    ensures Spaced(Run(s, actions).fires, seconds)
    decreases |actions|
  {
    if actions != [] {
      var next := Step(s, actions[0]);
      SpacedMore(s, actions[0], seconds);
      hide Step, Spaced;
      IntervalIsSpaced(next, actions[1..], seconds);
    }
  }

  lemma {:induction false} SpacedMore(s: State, a: Action, seconds: nat)
    requires s.task.schedule == Interval(seconds) && a.Claim? && a.seen.schedule == Interval(seconds) &&
      Spaced(s.fires, seconds)
    requires s.fires != [] && s.task.nextRun.Some? ==> s.fires[|s.fires| - 1].now + seconds <= s.task.nextRun.value
    ensures
      var next := Step(s, a);
      next.task.schedule == Interval(seconds) && Spaced(next.fires, seconds) &&
      (next.fires != [] && next.task.nextRun.Some? ==>
        next.fires[|next.fires| - 1].now + seconds <= next.task.nextRun.value)
  {
    var next := Step(s, a);
    if next != s && s.fires != [] {
      var n := |s.fires|;
      assert next.fires[n].now >= s.fires[n - 1].now + seconds;
      assert forall i :: 0 <= i < n - 1 ==> s.fires[i].now + seconds <= s.fires[n - 1].now;
    }
  }

  /** How many fires fall into the window from `a` to `b`. */
  function FiresIn(fires: seq<Fire>, a: int, b: int): nat
    decreases |fires|
  {
    if fires == [] then 0
    else
      var last := fires[|fires| - 1];
      FiresIn(fires[..|fires| - 1], a, b) + if a <= last.now <= b then 1 else 0
  }

  lemma {:induction false} NoneBefore(fires: seq<Fire>, a: int, b: int)
    requires forall i :: 0 <= i < |fires| ==> fires[i].now < a
    ensures FiresIn(fires, a, b) == 0
    decreases |fires|
  {
    if fires != [] {
      NoneBefore(fires[..|fires| - 1], a, b);
    }
  }

  lemma {:induction false} FewFires(fires: seq<Fire>, seconds: nat, a: int, b: int)
    requires Spaced(fires, seconds)
    ensures FiresIn(fires, a, b) > 0 ==> (FiresIn(fires, a, b) - 1) * seconds <= b - a
    decreases |fires|
  {
    if fires != [] {
      var n := |fires| - 1;
      var front, last := fires[..n], fires[n];
      if last.now < a {
        NoneBefore(fires, a, b);
      } else if last.now > b {
        FewFires(front, seconds, a, b);
      } else {
        FewFires(front, seconds, a, last.now - seconds);
        NarrowWindow(front, a, b, last.now - seconds);
        var c := FiresIn(front, a, b);
        assert c > 0 ==> c * seconds == (c - 1) * seconds + seconds;
      }
    }
  }

  lemma {:induction false} NarrowWindow(fires: seq<Fire>, a: int, b: int, c: int)
    requires c <= b && forall i :: 0 <= i < |fires| ==> fires[i].now <= c
    ensures FiresIn(fires, a, b) == FiresIn(fires, a, c)
    decreases |fires|
  {
    if fires != [] {
      NarrowWindow(fires[..|fires| - 1], a, b, c);
    }
  }

  /** An interval task that nobody edits fires at most once more than its interval fits into any
      window, whatever the downtime and the number of workers. */
  lemma {:induction false} IntervalIsBounded(task: Task, actions: seq<Action>, a: int, length: nat)
    requires task.schedule.Interval? && task.schedule.seconds > 0 && Unedited(task.schedule, actions)
    ensures FiresIn(Run(State(task, []), actions).fires, a, a + length) <= length / task.schedule.seconds + 1
  {
    var fires, seconds := Run(State(task, []), actions).fires, task.schedule.seconds;
    IntervalIsSpaced(State(task, []), actions, seconds);
    FewFires(fires, seconds, a, a + length);
    var n := FiresIn(fires, a, a + length);
    hide Run, Spaced, FiresIn;
    if n > 0 { Quotient(n - 1, seconds, length); }
  }

  lemma {:induction false} Quotient(n: nat, seconds: nat, length: nat)
    requires seconds > 0 && n * seconds <= length
    ensures n <= length / seconds
  {
    var q := length / seconds;
    assert length < (q + 1) * seconds;
    if n >= q + 1 {
      TimesMonotone(q + 1, n, seconds);
    }
  }

  lemma {:induction false} TimesMonotone(x: nat, y: nat, factor: nat)
    requires x <= y
    ensures x * factor <= y * factor
  {
  }
}
