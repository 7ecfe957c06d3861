/** Session compression: the watermark, the cut, and the protocol of background compressions
    over a growing conversation. A summary's text is modelled by the rows that went into it. */
module Compression {
  import opened Text
  import opened History

  const WATERMARK: nat := 45000
  const MIN_MESSAGES: nat := 20
  const KEEP_TAIL: nat := 15
  const FAILURE_CIRCUIT: nat := 3

  // ----- the decision -----

  function TextLength(row: Row): nat {
    if row.content.None? then 0 else |row.content.value|
  }

  function TotalChars(rows: seq<Row>): nat {
    if rows == [] then 0 else TotalChars(rows[..|rows| - 1]) + TextLength(rows[|rows| - 1])
  }

  predicate NeedsCompression(rows: seq<Row>) {
    |rows| >= MIN_MESSAGES && TotalChars(rows) / 4 >= WATERMARK
  }

  method ShouldCompress(rows: seq<Row>) returns (yes: bool)
    ensures yes == NeedsCompression(rows)
  {
    if |rows| < MIN_MESSAGES {
      return false;
    }
    var total := 0;
    for i := 0 to |rows|
      invariant total == TotalChars(rows[..i])
    {
      total := total + TextLength(rows[i]);
      assert rows[..i + 1][..i] == rows[..i];
    }
    assert rows[..|rows|] == rows;
    yes := total / 4 >= WATERMARK;
  }

  /** The newest user row that leaves the tail alone; 0 if there is none. */
  ghost predicate IsCut(rows: seq<Row>, b: nat) {
    && (b > 0 ==> b + KEEP_TAIL <= |rows| && rows[b].UserRow?)
    && (forall k :: b < k && k + KEEP_TAIL <= |rows| ==> !rows[k].UserRow?)
  }

  function CutFrom(rows: seq<Row>, k: nat): nat
    requires k < |rows|
  {
    if k == 0 || rows[k].UserRow? then k else CutFrom(rows, k - 1)
  }

  function Cut(rows: seq<Row>): nat {
    if |rows| <= KEEP_TAIL then 0 else CutFrom(rows, |rows| - KEEP_TAIL)
  }

  lemma {:induction false} CutFromIs(rows: seq<Row>, k: nat)
    requires k < |rows|
    ensures CutFrom(rows, k) <= k && (CutFrom(rows, k) > 0 ==> rows[CutFrom(rows, k)].UserRow?)
    ensures forall j :: CutFrom(rows, k) < j <= k ==> !rows[j].UserRow?
  {
    if k > 0 && !rows[k].UserRow? {
      CutFromIs(rows, k - 1);
    }
  }

  lemma {:induction false} CutIs(rows: seq<Row>)
    ensures IsCut(rows, Cut(rows)) && forall b :: IsCut(rows, b) ==> b == Cut(rows)
  {
    if |rows| > KEEP_TAIL {
      CutFromIs(rows, |rows| - KEEP_TAIL);
    }
  }

  method SummaryBoundary(rows: seq<Row>) returns (b: nat)
    ensures b == Cut(rows) && IsCut(rows, b)
  {
    CutIs(rows);
    var candidate := |rows| - KEEP_TAIL;
    var index := if candidate < |rows| - 1 then candidate else |rows| - 1;
    while index > 0
      invariant index <= candidate
      invariant forall k :: index < k <= candidate && 0 <= k ==> !rows[k].UserRow?
    {
      if rows[index].UserRow? {
        assert IsCut(rows, index);
        return index;
      }
      index := index - 1;
    }
    assert IsCut(rows, 0);
    b := 0;
  }

  // ----- the protocol -----

  /** A summary row: `covered_until_sequence`, whether it succeeded, and what its text merges. */
  datatype Summary = Summary(covered: nat, ok: bool, merged: seq<Row>)

  /** A compression that has read its snapshot and waits for the model. */
  datatype Task = Task(covered: nat, merged: seq<Row>)

  datatype State = State(rows: seq<Row>, summaries: seq<Summary>, tasks: seq<Task>)

  datatype Action =
    | Append(row: Row)
    | Start
    | Finish(task: nat, ok: bool)
    | Crash(task: nat)

  function Latest(summaries: seq<Summary>): Option<Summary> {
    if summaries == [] then None
    else
      var front, last := Latest(summaries[..|summaries| - 1]), summaries[|summaries| - 1];
      if last.ok && (front.None? || front.value.covered < last.covered) then Some(last) else front
  }

  function RowsAfter(rows: seq<Row>, prior: Option<Summary>): seq<Row> {
    if prior.None? then rows else Newer(rows, prior.value.covered)
  }

  function Newer(rows: seq<Row>, covered: nat): seq<Row> {
    if rows == [] then [] else (if rows[0].sequence > covered then [rows[0]] else []) + Newer(rows[1..], covered)
  }

  predicate Tripped(summaries: seq<Summary>) {
    |summaries| >= FAILURE_CIRCUIT && forall k :: |summaries| - FAILURE_CIRCUIT <= k < |summaries| ==> !summaries[k].ok
  }

  predicate CanAppend(rows: seq<Row>, row: Row) {
    rows == [] || rows[|rows| - 1].sequence < row.sequence
  }

  function Without<T>(s: seq<T>, k: nat): seq<T>
    requires k < |s|
  {
    s[..k] + s[k + 1..]
  }

  /** What `compress_session` decides on its snapshot: `None` leaves no trace. */
  function Plan(s: State): Option<Task> {
    var prior := Latest(s.summaries);
    var rows := RowsAfter(s.rows, prior);
    var b := Cut(rows);
    CutIs(rows);
    if Tripped(s.summaries) || !NeedsCompression(rows) || b == 0 then None
    else Some(Task(rows[b - 1].sequence, (if prior.None? then [] else prior.value.merged) + rows[..b]))
  }

  function Step(s: State, a: Action): State {
    match a
    case Append(row) => if CanAppend(s.rows, row) then s.(rows := s.rows + [row]) else s
    case Start =>
      var plan := Plan(s);
      if plan.None? then s else s.(tasks := s.tasks + [plan.value])
    case Finish(k, ok) =>
      if k >= |s.tasks| then s
      else s.(summaries := s.summaries + [Summary(s.tasks[k].covered, ok, s.tasks[k].merged)],
              tasks := Without(s.tasks, k))
    case Crash(k) => if k >= |s.tasks| then s else s.(tasks := Without(s.tasks, k))
  }

  function Run(s: State, actions: seq<Action>): State
    decreases |actions|
  {
    if actions == [] then s else Run(Step(s, actions[0]), actions[1..])
  }

  const EMPTY: State := State([], [], [])

  // ----- what every reachable state keeps -----

  ghost predicate Ordered(rows: seq<Row>) {
    forall j, k :: 0 <= j < k < |rows| ==> rows[j].sequence < rows[k].sequence
  }

  /** The first `p` rows, up to a user row with a full tail behind it. */
  ghost predicate CoversTo(rows: seq<Row>, p: nat, covered: nat, merged: seq<Row>) {
    && 0 < p && p + KEEP_TAIL <= |rows|
    && rows[p].UserRow? && rows[p - 1].sequence == covered && merged == rows[..p]
  }

  ghost predicate Covers(rows: seq<Row>, covered: nat, merged: seq<Row>) {
    exists p :: CoversTo(rows, p, covered, merged)
  }

  ghost predicate Inv(s: State) {
    && Ordered(s.rows)
    && (forall k :: 0 <= k < |s.summaries| ==> Covers(s.rows, s.summaries[k].covered, s.summaries[k].merged))
    && (forall k :: 0 <= k < |s.tasks| ==> Covers(s.rows, s.tasks[k].covered, s.tasks[k].merged))
  }

  lemma {:induction false} LatestIs(summaries: seq<Summary>)
    ensures Latest(summaries).Some? ==> Latest(summaries).value in summaries && Latest(summaries).value.ok
    ensures forall s :: s in summaries && s.ok ==>
      Latest(summaries).Some? && s.covered <= Latest(summaries).value.covered
  {
    if summaries != [] {
      var n := |summaries| - 1;
      LatestIs(summaries[..n]);
      assert summaries == summaries[..n] + [summaries[n]];
    }
  }

  lemma {:induction false} NewerIsSuffix(rows: seq<Row>, p: nat, covered: nat)
    requires Ordered(rows) && p <= |rows|
    requires (p > 0 ==> rows[p - 1].sequence <= covered) && (p < |rows| ==> covered < rows[p].sequence)
    ensures Newer(rows, covered) == rows[p..]
    decreases |rows|
  {
    if rows != [] {
      assert Newer(rows, covered) == (if rows[0].sequence > covered then [rows[0]] else []) + Newer(rows[1..], covered);
      hide Newer;
      if p == 0 {
        NewerIsSuffix(rows[1..], 0, covered);
        assert rows[0..] == rows == [rows[0]] + rows[1..];
      } else {
        NewerIsSuffix(rows[1..], p - 1, covered);
        assert rows[1..][p - 1..] == rows[p..];
      }
    }
  }

  /** Where the latest summary ends; 0 when there is none. */
  lemma {:induction false} LatestCut(s: State) returns (p: nat)
    requires Inv(s)
    ensures p <= |s.rows| && RowsAfter(s.rows, Latest(s.summaries)) == s.rows[p..]
    ensures Latest(s.summaries).None? ==> p == 0
    ensures Latest(s.summaries).Some? ==>
      CoversTo(s.rows, p, Latest(s.summaries).value.covered, Latest(s.summaries).value.merged)
  {
    var prior := Latest(s.summaries);
    LatestIs(s.summaries);
    if prior.None? {
      p := 0;
    } else {
      p :| CoversTo(s.rows, p, prior.value.covered, prior.value.merged);
      NewerIsSuffix(s.rows, p, prior.value.covered);
    }
  }

  /** The history of the next run is the latest summary and the rows it does not stand for:
      together they are the whole conversation, cut before a user row, so no tool row leaves
      its assistant message; at least the newest fifteen rows stay verbatim. */
  lemma {:induction false} SummaryPartitions(s: State) returns (p: nat)
    requires Inv(s) && Latest(s.summaries).Some?
    ensures
      var latest := Latest(s.summaries).value;
      p + KEEP_TAIL <= |s.rows| && latest.merged == s.rows[..p] && RowsAfter(s.rows, Some(latest)) == s.rows[p..] &&
      (forall row :: row in latest.merged <==> row in s.rows && row.sequence <= latest.covered) &&
      Rebuild(s.rows) == Rebuild(latest.merged) + Rebuild(RowsAfter(s.rows, Some(latest)))
  {
    hide Rebuild, Latest, Newer;
    p := LatestCut(s);
    RebuildCut(s.rows, p);
    RowsUpTo(s.rows, p, Latest(s.summaries).value.covered);
  }

  lemma {:induction false} RowsUpTo(rows: seq<Row>, p: nat, covered: nat)
    requires Ordered(rows) && 0 < p <= |rows| && rows[p - 1].sequence == covered
    ensures forall row :: row in rows[..p] <==> row in rows && row.sequence <= covered
  {
    forall row | row in rows && row.sequence <= covered ensures row in rows[..p] {
      var k :| 0 <= k < |rows| && rows[k] == row;
      assert k < p;
      assert rows[..p][k] == row;
    }
    forall row | row in rows[..p] ensures row in rows && row.sequence <= covered {
      var k :| 0 <= k < p && rows[..p][k] == row;
      assert rows[k] == row;
    }
  }

  /** A compression that starts covers strictly more than the latest summary, and keeps the tail. */
  lemma {:induction false} PlanAdvances(s: State)
    requires Inv(s) && Plan(s).Some?
    ensures Covers(s.rows, Plan(s).value.covered, Plan(s).value.merged)
    ensures Latest(s.summaries).Some? ==>
      Latest(s.summaries).value.covered < Plan(s).value.covered &&
      |Latest(s.summaries).value.merged| < |Plan(s).value.merged|
  {
    hide Latest, NeedsCompression, Cut, Newer;
    var p := LatestCut(s);
    CutIs(s.rows[p..]);
    CutExtends(s.rows, p, Cut(s.rows[p..]));
    hide IsCut;
    assert s.rows[..0] == [];
    assert CoversTo(s.rows, p + Cut(s.rows[p..]), Plan(s).value.covered, Plan(s).value.merged);
  }

  lemma {:induction false} CutExtends(rows: seq<Row>, p: nat, b: nat)
    requires Ordered(rows) && p <= |rows| && b > 0 && IsCut(rows[p..], b)
    ensures CoversTo(rows, p + b, rows[p..][b - 1].sequence, rows[..p] + rows[p..][..b])
    ensures p > 0 ==> rows[p - 1].sequence < rows[p..][b - 1].sequence
  {
    var rest := rows[p..];
    assert rest[b - 1] == rows[p + b - 1] && rest[b] == rows[p + b];
    assert rows[..p] + rest[..b] == rows[..p + b];
  }

  lemma {:induction false} CoversMore(rows: seq<Row>, row: Row, covered: nat, merged: seq<Row>)
    requires Covers(rows, covered, merged)
    ensures Covers(rows + [row], covered, merged)
  {
    var p: nat :| CoversTo(rows, p, covered, merged);
    assert (rows + [row])[..p] == rows[..p];
    assert CoversTo(rows + [row], p, covered, merged);
  }

  lemma {:induction false} StepKeepsInv(s: State, a: Action)
    requires Inv(s)
    ensures Inv(Step(s, a))
  {
    hide Covers, Plan;
    match a {
      case Append(row) =>
        forall covered, merged | Covers(s.rows, covered, merged) ensures Covers(s.rows + [row], covered, merged) {
          CoversMore(s.rows, row, covered, merged);
        }
      case Start =>
        if Plan(s).Some? { PlanAdvances(s); }
      case Finish(_, _) =>
      case Crash(_) =>
    }
  }

  lemma {:induction false} RunKeepsInv(s: State, actions: seq<Action>)
    requires Inv(s)
    ensures Inv(Run(s, actions))
    decreases |actions|
  {
    if actions != [] {
      hide Step, Inv;
      StepKeepsInv(s, actions[0]);
      RunKeepsInv(Step(s, actions[0]), actions[1..]);
    }
  }

  /** Whatever turns, compressions, failures and crashes happen, and in whatever order
      overlapping compressions finish, the conversation is partitioned. */
  lemma {:induction false} ReachableIsPartitioned(actions: seq<Action>) returns (p: nat)
    ensures
      var s := Run(EMPTY, actions);
      p <= |s.rows| && RowsAfter(s.rows, Latest(s.summaries)) == s.rows[p..] &&
      (Latest(s.summaries).None? ==> p == 0) &&
      (Latest(s.summaries).Some? ==> p + KEEP_TAIL <= |s.rows| && Latest(s.summaries).value.merged == s.rows[..p]) &&
      Rebuild(s.rows) == Rebuild(s.rows[..p]) + Rebuild(RowsAfter(s.rows, Latest(s.summaries)))
  {
    RunKeepsInv(EMPTY, actions);
    var s := Run(EMPTY, actions);
    assert Rebuild([]) == [];
    hide Run, Rebuild, Latest;
    p := LatestCut(s);
    if Latest(s.summaries).Some? {
      p := SummaryPartitions(s);
    } else {
      assert s.rows[..0] == [] && s.rows[0..] == s.rows;
    }
  }

  // ----- when a compression starts -----

  /** A user row that has at least fifteen rows, its own included, from it on. */
  predicate CutAt(rows: seq<Row>, k: nat) { 0 < k && k + 15 <= |rows| && rows[k].UserRow? }

  predicate NewestCut(rows: seq<Row>, b: nat) {
    CutAt(rows, b) && forall k :: b < k < |rows| ==> !CutAt(rows, k)
  }

  /** The newest three compressions all failed. */
  predicate ThreeFailed(summaries: seq<Summary>) {
    var n := |summaries|;
    n >= 3 && !summaries[n - 1].ok && !summaries[n - 2].ok && !summaries[n - 3].ok
  }

  /** A compression starts exactly if it is due: the newest three have not all failed, and the rows no
      summary stands for are twenty or more, of 180000 characters or more, with a user row to cut at.
      It then covers the rows before the newest such user row. */
  lemma {:induction false} CompressesIff(s: State)
    ensures
      var rest := RowsAfter(s.rows, Latest(s.summaries));
      && (Plan(s).Some? <==>
            !ThreeFailed(s.summaries) && |rest| >= 20 && TotalChars(rest) >= 180000 && exists k :: CutAt(rest, k))
      && (Plan(s).Some? ==> exists b :: NewestCut(rest, b) && Plan(s).value.covered == rest[b - 1].sequence)
  {
    var rest := RowsAfter(s.rows, Latest(s.summaries));
    CutIs(rest);
    var b := Cut(rest);
    hide Latest, RowsAfter, TotalChars, Cut;
    assert b > 0 ==> NewestCut(rest, b);
    assert Tripped(s.summaries) <==> ThreeFailed(s.summaries);
  }

  /** A compression that succeeds takes effect unless a later one already has; one that fails changes
      nothing but the record of failures. */
  lemma {:induction false} FinishTakesEffect(s: State, k: nat, ok: bool)
    requires k < |s.tasks|
    ensures
      var next := Step(s, Finish(k, ok));
      && CoveredUntil(next) == (if ok then Max(CoveredUntil(s), s.tasks[k].covered) else CoveredUntil(s))
      && next.rows == s.rows && next.tasks == s.tasks[..k] + s.tasks[k + 1..]
      && |next.summaries| == |s.summaries| + 1 && next.summaries[|s.summaries|].ok == ok
  {
    LatestOfMore(s.summaries, Summary(s.tasks[k].covered, ok, s.tasks[k].merged));
    hide Latest;
  }

  // ----- coverage and the circuit breaker -----

  lemma {:induction false} LatestOfMore(summaries: seq<Summary>, s: Summary)
    ensures Latest(summaries + [s]) ==
      if s.ok && (Latest(summaries).None? || Latest(summaries).value.covered < s.covered) then Some(s)
        else Latest(summaries)
  {
    assert (summaries + [s])[..|summaries|] == summaries;
  }

  function CoveredUntil(s: State): int {
    if Latest(s.summaries).None? then -1 else Latest(s.summaries).value.covered
  }

  /** Coverage never moves back, whoever finishes last. */
  lemma {:induction false} CoverageGrows(s: State, actions: seq<Action>)
    ensures CoveredUntil(s) <= CoveredUntil(Run(s, actions))
    decreases |actions|
  {
    if actions != [] {
      var a, next := actions[0], Step(s, actions[0]);
      if a.Finish? && a.task < |s.tasks| {
        LatestOfMore(s.summaries, Summary(s.tasks[a.task].covered, a.ok, s.tasks[a.task].merged));
      }
      hide Latest;
      assert CoveredUntil(s) <= CoveredUntil(next);
      CoverageGrows(next, actions[1..]);
    }
  }

  /** Once three compressions in a row have failed and none is in flight, no compression is ever
      started again: the breaker does not close. */
  lemma {:induction false} BreakerStaysOpen(s: State, actions: seq<Action>)
    requires Tripped(s.summaries) && s.tasks == []
    ensures Run(s, actions).summaries == s.summaries && Run(s, actions).tasks == []
    decreases |actions|
  {
    if actions != [] {
      hide Latest, NeedsCompression, Cut;
      assert Step(s, actions[0]).summaries == s.summaries && Step(s, actions[0]).tasks == [];
      BreakerStaysOpen(Step(s, actions[0]), actions[1..]);
    }
  }
}
