/** Long-term memory: the one way in (`ingest_candidate`: screen, merge, promote) and the
    selection of what is recalled. Tokens, markers, rounding and the order in which the database
    returns rows are arbitrary; confidences and scores are reals. */
module Memory {
  import opened Text
  import opened Tokens

  datatype Kind = Preference | PreferenceCandidate | Constraint | DecisionKind | FactKind | Risk

  datatype Status = Active | Superseded | Rejected

  /** A stored memory; `scope` stands for the scope and what it refers to. */
  datatype Row = Row(scope: int, kind: Kind, title: string, content: string, confidence: real, status: Status,
      sightings: nat)

  datatype Candidate = Candidate(scope: int, kind: Kind, title: string, content: string, confidence: real,
                                 hedged: bool, emotional: bool)

  /** How texts are split into tokens and how confidences are rounded for storage. */
  datatype Rules = Rules(tokens: string -> set<string>, round: real -> real)

  const MIN_WRITE_CONFIDENCE := 0.5
  const HEDGE_CONFIDENCE_FLOOR := 0.85
  const DEDUPE_SIMILARITY := 0.55
  const PROMOTION_MIN_SIGHTINGS: nat := 2
  const PROMOTION_MIN_CONFIDENCE := 0.7
  const SIGHTING_CONFIDENCE_BOOST := 0.1
  const CONFIDENCE_CAP := 0.99

  /** Rounding to four digits moves a value by at most half a digit of the last place. */
  ghost predicate Rounds(rules: Rules) {
    forall x: real :: x - 0.00005 <= rules.round(x) <= x + 0.00005
  }

  // ----- similarity -----

  function Similarity(left: set<string>, right: set<string>): real {
    if left == {} || right == {} then 0.0 else |left * right| as real / |left + right| as real
  }

  lemma {:induction false} Fraction(x: nat, y: nat)
    requires 0 < y && x <= y
    ensures 0.0 <= x as real / y as real <= 1.0 && (x as real / y as real == 1.0 <==> x == y)
  {
    var q := x as real / y as real;
    assert q * y as real == x as real;
    assert q <= 1.0 || q * y as real > y as real;
  }

  /** A Jaccard index: between 0 and 1, symmetric, and 1 for equal non-empty token sets only. */
  lemma {:induction false} SimilarityIs(left: set<string>, right: set<string>)
    ensures 0.0 <= Similarity(left, right) <= 1.0
    ensures Similarity(left, right) == Similarity(right, left)
    ensures Similarity(left, right) == 1.0 <==> left == right && left != {}
  {
    assert left * right == right * left && left + right == right + left;
    if left != {} && right != {} {
      assert left + right == left * right + ((left - right) + (right - left));
      var rest := (left - right) + (right - left);
      assert |left + right| == |left * right| + |rest|;
      Fraction(|left * right|, |left + right|);
      if |rest| == 0 { assert left - right == {} && right - left == {}; }
    }
  }

  function Likeness(rules: Rules, c: Candidate, row: Row): real {
    0.6 * Similarity(rules.tokens(c.title), rules.tokens(row.title)) +
    0.4 * Similarity(rules.tokens(c.content), rules.tokens(row.content))
  }

  predicate Matches(rules: Rules, c: Candidate, row: Row) {
    row.scope == c.scope && Likeness(rules, c, row) >= DEDUPE_SIMILARITY
  }

  /** The row a candidate merges into: in its scope, similar enough, and none is more similar;
      the first of several. */
  predicate IsDuplicate(rules: Rules, c: Candidate, rows: seq<Row>, k: nat) { IsBest(rules, c, rows, |rows|, k) }

  /** The same among the first `n` rows. */
  predicate IsBest(rules: Rules, c: Candidate, rows: seq<Row>, n: nat, k: nat)
    requires n <= |rows|
  {
    && k < n && Matches(rules, c, rows[k])
    && (forall j :: 0 <= j < n && Matches(rules, c, rows[j]) ==>
      Likeness(rules, c, rows[j]) <= Likeness(rules, c, rows[k]))
    && (forall j :: 0 <= j < k && Matches(rules, c, rows[j]) ==>
      Likeness(rules, c, rows[j]) < Likeness(rules, c, rows[k]))
  }

  function BestTo(rules: Rules, c: Candidate, rows: seq<Row>, n: nat): (r: Option<nat>)
    requires n <= |rows|
    ensures r.Some? ==> r.value < n
  {
    if n == 0 then None
    else
      var best := BestTo(rules, c, rows, n - 1);
      if Matches(rules, c, rows[n - 1]) &&
         (best.None? || Likeness(rules, c, rows[best.value]) < Likeness(rules, c, rows[n - 1]))
      then Some(n - 1) else best
  }

  lemma {:induction false} BestStep(rules: Rules, c: Candidate, rows: seq<Row>, n: nat)
    requires n < |rows|
    ensures
      var best := BestTo(rules, c, rows, n);
      BestTo(rules, c, rows, n + 1) ==
        if Matches(rules, c, rows[n]) &&
          (best.None? || Likeness(rules, c, rows[best.value]) < Likeness(rules, c, rows[n]))
        then Some(n) else best
  {
  }

  predicate BestSoFar(rules: Rules, c: Candidate, rows: seq<Row>, n: nat, best: Option<nat>)
    requires n <= |rows|
  {
    match best
    case None => forall j :: 0 <= j < n ==> !Matches(rules, c, rows[j])
    case Some(k) => IsBest(rules, c, rows, n, k)
  }

  lemma {:induction false} BestMore(rules: Rules, c: Candidate, rows: seq<Row>, n: nat, best: Option<nat>)
    requires n < |rows| && BestSoFar(rules, c, rows, n, best)
    ensures
      BestSoFar(rules, c, rows, n + 1,
        if Matches(rules, c, rows[n]) &&
          (best.None? || Likeness(rules, c, rows[best.value]) < Likeness(rules, c, rows[n]))
        then Some(n) else best)
  {
    hide Matches, Likeness;
  }

  lemma {:induction false} BestIs(rules: Rules, c: Candidate, rows: seq<Row>, n: nat)
    requires n <= |rows|
    ensures BestSoFar(rules, c, rows, n, BestTo(rules, c, rows, n))
  {
    if n > 0 {
      BestStep(rules, c, rows, n - 1);
      BestIs(rules, c, rows, n - 1);
      hide BestTo, Matches, Likeness, BestSoFar;
      BestMore(rules, c, rows, n - 1, BestTo(rules, c, rows, n - 1));
    }
  }

  method FindDuplicate(rules: Rules, c: Candidate, rows: seq<Row>) returns (r: Option<nat>)
    ensures r == BestTo(rules, c, rows, |rows|)
    ensures r.Some? ==> IsDuplicate(rules, c, rows, r.value)
    ensures r.None? ==> forall j :: 0 <= j < |rows| ==> !Matches(rules, c, rows[j])
  {
    r := None;
    var best := 0.0;
    for k := 0 to |rows|
      invariant r == BestTo(rules, c, rows, k)
      invariant r.Some? ==> best == Likeness(rules, c, rows[r.value])
    {
      BestStep(rules, c, rows, k);
      hide BestTo, Likeness;
      if rows[k].scope == c.scope {
        var score := Likeness(rules, c, rows[k]);
        if score >= DEDUPE_SIMILARITY && (r.None? || score > best) {
          r, best := Some(k), score;
        }
      }
    }
    BestIs(rules, c, rows, |rows|);
  }

  // ----- ingestion -----

  /** Too uncertain, hedged without being very sure, or a passing mood. */
  predicate Screened(c: Candidate) {
    c.confidence < MIN_WRITE_CONFIDENCE || (c.confidence < HEDGE_CONFIDENCE_FLOOR && c.hedged) || c.emotional
  }

  function InitialKind(kind: Kind): Kind {
    if kind == Preference || kind == PreferenceCandidate then PreferenceCandidate else kind
  }

  function MinR(x: real, y: real): real { if x < y then x else y }

  function MergedConfidence(rules: Rules, existing: real, incoming: real, sightings: nat): real {
    var boost := SIGHTING_CONFIDENCE_BOOST * Max(sightings - 1, 0) as real;
    MinR(CONFIDENCE_CAP, rules.round(MaxR(existing, incoming) + boost))
  }

  predicate ShouldPromote(kind: Kind, sightings: nat, confidence: real) {
    kind == PreferenceCandidate && sightings >= PROMOTION_MIN_SIGHTINGS && confidence >= PROMOTION_MIN_CONFIDENCE
  }

  function Merged(rules: Rules, row: Row, c: Candidate): Row {
    var sightings := row.sightings + 1;
    var confidence := MergedConfidence(rules, row.confidence, c.confidence, sightings);
    row.(sightings := sightings, confidence := confidence,
         content := if |c.content| > |row.content| then c.content else row.content,
         kind := if ShouldPromote(row.kind, sightings, confidence) then Preference else row.kind,
         status := if row.status == Superseded then Active else row.status)
  }

  function Created(c: Candidate): Row {
    Row(c.scope, InitialKind(c.kind), c.title, c.content, c.confidence, Active, 1)
  }

  datatype Outcome = Dropped | New | MergedInto(k: nat) | Promoted(k: nat)

  /** Some order in which a query without one returns all `n` rows. */
  predicate IsReading(n: nat, order: seq<nat>) {
    |order| == n && (forall i :: 0 <= i < n ==> order[i] < n) && forall j :: 0 <= j < n ==> j in order
  }

  function Siblings(rows: seq<Row>, order: seq<nat>): (siblings: seq<Row>)
    requires IsReading(|rows|, order)
    ensures |siblings| == |rows| && forall i :: 0 <= i < |rows| ==> siblings[i] == rows[order[i]]
  {
    seq(|order|, i requires 0 <= i < |order| => rows[order[i]])
  }

  function Ingest(rules: Rules, rows: seq<Row>, order: seq<nat>, c: Candidate): (seq<Row>, Outcome)
    requires IsReading(|rows|, order)
  {
    if Screened(c) then (rows, Dropped)
    else
      var best := BestTo(rules, c, Siblings(rows, order), |rows|);
      if best.None? then (rows + [Created(c)], New)
      else
        var k := order[best.value];
        var merged := Merged(rules, rows[k], c);
        if rows[k].status == Rejected then (rows, Dropped)
        else (rows[k := merged], if merged.kind != rows[k].kind then Promoted(k) else MergedInto(k))
  }

  class Store {
    var rows: seq<Row>

    /** The only way in; one row is created or updated in place, or nothing happens. */
    method IngestCandidate(rules: Rules, c: Candidate, order: seq<nat>) returns (outcome: Outcome)
      requires IsReading(|rows|, order)
      modifies this
      ensures (rows, outcome) == Ingest(rules, old(rows), order, c)
    {
      if Screened(c) {
        return Dropped;
      }
      var duplicate := FindDuplicate(rules, c, Siblings(rows, order));
      if duplicate.Some? && rows[order[duplicate.value]].status == Rejected {
        return Dropped;
      }
      if duplicate.None? {
        rows := rows + [Created(c)];
        return New;
      }
      var k := order[duplicate.value];
      var row := rows[k];
      row := row.(sightings := row.sightings + 1);
      row := row.(confidence := MergedConfidence(rules, row.confidence, c.confidence, row.sightings));
      if |c.content| > |row.content| {
        row := row.(content := c.content);
      }
      outcome := MergedInto(k);
      if ShouldPromote(row.kind, row.sightings, row.confidence) {
        row := row.(kind := Preference);
        outcome := Promoted(k);
      }
      if row.status == Superseded {
        row := row.(status := Active);
      }
      rows := rows[k := row];
    }
  }

  // ----- over any history of ingests and user decisions -----

  datatype Action = Take(c: Candidate, order: seq<nat>) | Reject(k: nat, reason: string) | Supersede(k: nat)

  const REJECTED_NOTE := "\n[\U{5DF2}\U{5931}\U{6548}] "

  function Step(rules: Rules, rows: seq<Row>, a: Action): seq<Row> {
    match a
    case Take(c, order) => if IsReading(|rows|, order) then Ingest(rules, rows, order, c).0 else rows
    case Reject(k, reason) =>
      if k < |rows| && rows[k].status != Rejected
      then rows[k := rows[k].(status := Rejected, content := rows[k].content + (REJECTED_NOTE + reason))]
      else rows
    case Supersede(k) =>
      if k < |rows| && rows[k].status == Active then rows[k := rows[k].(status := Superseded)] else rows
  }

  function Run(rules: Rules, rows: seq<Row>, actions: seq<Action>): seq<Row>
    decreases |actions|
  {
    if actions == [] then rows else Run(rules, Step(rules, rows, actions[0]), actions[1..])
  }

  /** What the user decides on one row leaves the others alone: a rejection is noted in the text, once, and
      only an active row can be superseded. */
  lemma {:induction false} DecisionsAre(rules: Rules, rows: seq<Row>, k: nat, reason: string)
    requires k < |rows|
    ensures
      var row, rejected := rows[k], Step(rules, rows, Reject(k, reason));
      if row.status == Rejected then rejected == rows
      else rejected == rows[k := row.(status := Rejected, content := row.content + "\n[\U{5DF2}\U{5931}\U{6548}] " +
        reason)]
    ensures
      var row, superseded := rows[k], Step(rules, rows, Supersede(k));
      if row.status != Active then superseded == rows else superseded == rows[k := row.(status := Superseded)]
  {
    assert rows[k].content + (REJECTED_NOTE + reason) == rows[k].content + REJECTED_NOTE + reason;
  }

  /** A preference counts only after two sightings, with a confidence of at least 0.7. */
  ghost predicate Earned(row: Row) {
    row.kind == Preference ==> row.sightings >= PROMOTION_MIN_SIGHTINGS && row.confidence >= PROMOTION_MIN_CONFIDENCE
  }

  ghost predicate Inv(rows: seq<Row>) {
    forall k :: 0 <= k < |rows| ==> Earned(rows[k]) && rows[k].sightings >= 1
  }

  lemma {:induction false} MergeKeeps(rules: Rules, row: Row, c: Candidate)
    requires Rounds(rules) && Earned(row) && row.sightings >= 1
    ensures Earned(Merged(rules, row, c)) && Merged(rules, row, c).sightings == row.sightings + 1
  {
    assert Max(row.sightings, 0) as real >= 1.0;
    assert SIGHTING_CONFIDENCE_BOOST * Max(row.sightings, 0) as real >= 0.1;
  }

  /** Seeing a fact again lowers its confidence exactly if it was above the cap. */
  lemma {:induction false} MergeLowersIff(rules: Rules, row: Row, c: Candidate)
    requires Rounds(rules) && row.sightings >= 1
    ensures Merged(rules, row, c).confidence < row.confidence <==> row.confidence > CONFIDENCE_CAP
  {
  }

  /** How often the rows have been seen, all together. */
  function Sightings(rows: seq<Row>): nat {
    if rows == [] then 0 else Sightings(rows[..|rows| - 1]) + rows[|rows| - 1].sightings
  }

  lemma {:induction false} SightingsAt(rows: seq<Row>, k: nat, row: Row)
    requires k < |rows|
    ensures Sightings(rows[k := row]) + rows[k].sightings == Sightings(rows) + row.sightings
    decreases |rows|
  {
    var n := |rows| - 1;
    if k == n {
      assert rows[k := row][..n] == rows[..n];
    } else {
      assert rows[k := row][..n] == rows[..n][k := row];
      SightingsAt(rows[..n], k, row);
    }
  }

  /** Every candidate that is not dropped is counted once, in one row. */
  lemma {:induction false} IngestCounts(rules: Rules, rows: seq<Row>, order: seq<nat>, c: Candidate)
    requires IsReading(|rows|, order)
    ensures
      var (after, outcome) := Ingest(rules, rows, order, c);
      Sightings(after) == Sightings(rows) + if outcome == Dropped then 0 else 1
  {
    var best := BestTo(rules, c, Siblings(rows, order), |rows|);
    hide BestTo, Siblings;
    if best.Some? {
      var k := order[best.value];
      SightingsAt(rows, k, Merged(rules, rows[k], c));
    } else {
      assert (rows + [Created(c)])[..|rows|] == rows;
    }
  }

  /** One step touches one row at most, and never a rejected one. */
  lemma {:induction false} StepKeeps(rules: Rules, rows: seq<Row>, a: Action)
    requires Rounds(rules) && Inv(rows)
    ensures Inv(Step(rules, rows, a)) && |rows| <= |Step(rules, rows, a)|
    ensures forall k :: 0 <= k < |rows| && rows[k].status == Rejected ==> Step(rules, rows, a)[k] == rows[k]
  {
    if a.Take? && IsReading(|rows|, a.order) {
      var best := BestTo(rules, a.c, Siblings(rows, a.order), |rows|);
      if best.Some? { MergeKeeps(rules, rows[a.order[best.value]], a.c); }
      hide BestTo, Merged, Screened, Siblings;
    }
  }

  /** Whatever is ingested afterwards, a rejected memory stays exactly as it was rejected, and
      every formal preference has been seen twice and is at least 0.7 certain. */
  lemma {:induction false} RejectedForGood(rules: Rules, rows: seq<Row>, actions: seq<Action>)
    requires Rounds(rules) && Inv(rows)
    ensures Inv(Run(rules, rows, actions)) && |rows| <= |Run(rules, rows, actions)|
    ensures forall k :: 0 <= k < |rows| && rows[k].status == Rejected ==> Run(rules, rows, actions)[k] == rows[k]
    decreases |actions|
  {
    if actions != [] {
      StepKeeps(rules, rows, actions[0]);
      hide Step, Inv;
      RejectedForGood(rules, Step(rules, rows, actions[0]), actions[1..]);
    }
  }

  /** Among the preferences exactly those seen twice and at least 0.7 certain are formal ones. */
  ghost predicate Due(row: Row) {
    (row.kind == PreferenceCandidate || row.kind == Preference) ==>
      (row.kind == Preference <==> row.sightings >= 2 && row.confidence >= 0.7)
  }

  ghost predicate AllDue(rows: seq<Row>) { forall k :: 0 <= k < |rows| ==> Due(rows[k]) && rows[k].sightings >= 1 }

  lemma {:induction false} MergeIsDue(rules: Rules, row: Row, c: Candidate)
    requires Rounds(rules) && Due(row) && row.sightings >= 1
    ensures Due(Merged(rules, row, c)) && Merged(rules, row, c).sightings >= 1
  {
    if row.kind == Preference { MergeKeeps(rules, row, c); }
  }

  lemma {:induction false} StepIsDue(rules: Rules, rows: seq<Row>, a: Action)
    requires Rounds(rules) && AllDue(rows)
    ensures AllDue(Step(rules, rows, a))
  {
    if a.Take? && IsReading(|rows|, a.order) {
      var best := BestTo(rules, a.c, Siblings(rows, a.order), |rows|);
      if best.Some? { MergeIsDue(rules, rows[a.order[best.value]], a.c); }
      hide BestTo, Merged, Screened, Siblings;
    }
  }

  /** Over any history a preference is promoted when it is due, and not before. */
  lemma {:induction false} PromotedWhenDue(rules: Rules, rows: seq<Row>, actions: seq<Action>)
    requires Rounds(rules) && AllDue(rows)
    ensures AllDue(Run(rules, rows, actions))
    decreases |actions|
  {
    if actions != [] {
      StepIsDue(rules, rows, actions[0]);
      hide Step, AllDue;
      PromotedWhenDue(rules, Step(rules, rows, actions[0]), actions[1..]);
    }
  }

  /** Row `k` matches the candidate, and no row that does is more like it. */
  predicate IsClosest(rules: Rules, c: Candidate, rows: seq<Row>, k: nat) {
    && k < |rows| && Matches(rules, c, rows[k])
    && forall j :: 0 <= j < |rows| && Matches(rules, c, rows[j]) ==>
         Likeness(rules, c, rows[j]) <= Likeness(rules, c, rows[k])
  }

  /** The first of the closest rows, in the order they were read, if any row matches. */
  lemma {:induction false} BestIsClosest(rules: Rules, rows: seq<Row>, order: seq<nat>, c: Candidate)
    requires IsReading(|rows|, order)
    ensures
      var best := BestTo(rules, c, Siblings(rows, order), |rows|);
      if best.None? then forall j :: 0 <= j < |rows| ==> !Matches(rules, c, rows[j])
      else
        && IsClosest(rules, c, rows, order[best.value])
        && forall i :: 0 <= i < best.value ==> !IsClosest(rules, c, rows, order[i])
  {
    var siblings := Siblings(rows, order);
    var best := BestTo(rules, c, siblings, |rows|);
    BestIs(rules, c, siblings, |rows|);
    hide BestTo, Siblings, Matches, Likeness;
    forall j | 0 <= j < |rows| && Matches(rules, c, rows[j])
      ensures best.Some? && Likeness(rules, c, rows[j]) <= Likeness(rules, c, rows[order[best.value]])
    {
      var i := PlaceOf(|rows|, order, j);
      assert siblings[i] == rows[j];
    }
    if best.Some? {
      forall i | 0 <= i < best.value ensures !IsClosest(rules, c, rows, order[i]) {
        assert siblings[i] == rows[order[i]];
      }
    }
  }

  lemma {:induction false} PlaceOf(n: nat, order: seq<nat>, j: nat) returns (i: nat)
    requires IsReading(n, order) && j < n
    ensures i < |order| == n && order[i] == j
  {
    assert j in order;
    i :| 0 <= i < |order| && order[i] == j;
  }

  /** A merge goes to a closest row, and that row was not rejected. */
  lemma {:induction false} MergeTarget(rules: Rules, rows: seq<Row>, order: seq<nat>, c: Candidate)
    requires IsReading(|rows|, order)
    ensures
      var outcome := Ingest(rules, rows, order, c).1;
      outcome.MergedInto? || outcome.Promoted? ==>
        IsClosest(rules, c, rows, outcome.k) && rows[outcome.k].status != Rejected
  {
    BestIsClosest(rules, rows, order, c);
    hide BestTo, Siblings, Matches, Likeness, Merged;
  }

  // ----- what one candidate changes -----

  /** The row read at `i` is the first of the closest ones. */
  predicate ReadFirst(rules: Rules, rows: seq<Row>, order: seq<nat>, c: Candidate, i: nat)
    requires IsReading(|rows|, order)
  {
    i < |rows| && IsClosest(rules, c, rows, order[i]) && forall j :: 0 <= j < i ==> !IsClosest(rules, c, rows, order[j])
  }

  predicate IsPreference(kind: Kind) { kind == Preference || kind == PreferenceCandidate }

  /** A new memory has been seen once; a preference starts out as a candidate. */
  predicate IsNew(c: Candidate, row: Row) {
    && row.scope == c.scope && row.title == c.title && row.content == c.content && row.confidence == c.confidence
    && row.status == Active && row.sightings == 1
    && row.kind != Preference && (IsPreference(c.kind) <==> row.kind == PreferenceCandidate)
    && (!IsPreference(c.kind) ==> row.kind == c.kind)
  }

  /** The larger confidence, rounded with a tenth for every earlier sighting, and at most 0.99. */
  ghost predicate IsRaised(rules: Rules, row: Row, c: Candidate, confidence: real) {
    exists base: real ::
      && IsLarger(row.confidence, c.confidence, base)
      && var raised := rules.round(base + row.sightings as real / 10.0);
         confidence <= CONFIDENCE_CAP && confidence <= raised && (confidence == CONFIDENCE_CAP || confidence == raised)
  }

  predicate IsLarger(x: real, y: real, base: real) { base >= x && base >= y && (base == x || base == y) }

  /** A memory seen once more: the longer text stays, and a candidate becomes a preference exactly if it
      has now been seen twice and is at least 0.7 certain. */
  ghost predicate IsSeenAgain(rules: Rules, row: Row, c: Candidate, after: Row) {
    && after.scope == row.scope && after.title == row.title && after.sightings == row.sightings + 1
    && IsRaised(rules, row, c, after.confidence)
    && (if |c.content| <= |row.content| then after.content == row.content else after.content == c.content)
    && (row.status == Superseded <==> after.status != row.status) && after.status != Superseded
    && (after.status == Rejected <==> row.status == Rejected)
    && (row.kind != PreferenceCandidate ==> after.kind == row.kind)
    && (row.kind == PreferenceCandidate ==>
          IsPreference(after.kind) && (after.kind == Preference <==> after.sightings >= 2 && after.confidence >= 0.7))
  }

  lemma {:induction false} MergedIs(rules: Rules, row: Row, c: Candidate)
    ensures IsSeenAgain(rules, row, c, Merged(rules, row, c))
  {
    var base := MaxR(row.confidence, c.confidence);
    assert SIGHTING_CONFIDENCE_BOOST * Max(row.sightings, 0) as real == row.sightings as real / 10.0;
    assert IsLarger(row.confidence, c.confidence, base);
    assert IsRaised(rules, row, c, Merged(rules, row, c).confidence);
  }

  lemma {:induction false} FirstIsBest(rules: Rules, rows: seq<Row>, order: seq<nat>, c: Candidate, i: nat)
    requires IsReading(|rows|, order)
    ensures
      var best := BestTo(rules, c, Siblings(rows, order), |rows|);
      && ((forall j :: 0 <= j < |rows| ==> !Matches(rules, c, rows[j])) ==> best.None?)
      && (ReadFirst(rules, rows, order, c, i) ==> best == Some(i))
      && (best.Some? ==> order[best.value] < |rows|)
  {
    BestIsClosest(rules, rows, order, c);
    hide BestTo, Siblings, Matches, Likeness;
  }

  /** What an ingested candidate leaves behind: nothing if it is doubtful, hedged or a mood, one new row
      if nothing matches it, and otherwise a change of the first closest row alone, unless that row
      was rejected. */
  lemma {:induction false} IngestIs(rules: Rules, rows: seq<Row>, order: seq<nat>, c: Candidate, i: nat)
    requires IsReading(|rows|, order)
    ensures
      var (after, outcome) := Ingest(rules, rows, order, c);
      if c.emotional || c.confidence < 0.5 || (c.hedged && c.confidence < 0.85) then after == rows && outcome == Dropped
      else
        && ((forall j :: 0 <= j < |rows| ==> !Matches(rules, c, rows[j])) ==>
              outcome == New && |after| == |rows| + 1 && after[..|rows|] == rows && IsNew(c, after[|rows|]))
        && (ReadFirst(rules, rows, order, c, i) ==>
              var k := order[i];
              if rows[k].status == Rejected then after == rows && outcome == Dropped
              else
                && |after| == |rows| && IsSeenAgain(rules, rows[k], c, after[k])
                && (forall j :: 0 <= j < |rows| && j != k ==> after[j] == rows[j])
                && outcome == if after[k].kind != rows[k].kind then Promoted(k) else MergedInto(k))
  {
    FirstIsBest(rules, rows, order, c, i);
    var best := BestTo(rules, c, Siblings(rows, order), |rows|);
    if best.Some? { MergedIs(rules, rows[order[best.value]], c); }
    hide BestTo, Siblings, Matches, Merged, IsSeenAgain, ReadFirst, IsReading;
  }

  // ----- when a rejected topic stays out -----

  /** The row read at `i` is the first closest one, and was rejected. */
  predicate Bars(rules: Rules, rows: seq<Row>, order: seq<nat>, c: Candidate, i: nat)
    requires IsReading(|rows|, order)
  {
    ReadFirst(rules, rows, order, c, i) && rows[order[i]].status == Rejected
  }

  /** A candidate that passes the screen is turned away exactly if some rejected row bars it. */
  lemma {:induction false} TurnedAwayIff(rules: Rules, rows: seq<Row>, order: seq<nat>, c: Candidate)
    requires !Screened(c) && IsReading(|rows|, order)
    ensures Ingest(rules, rows, order, c).1 == Dropped <==> exists i: nat :: Bars(rules, rows, order, c, i)
    ensures Ingest(rules, rows, order, c).1 == Dropped ==> Ingest(rules, rows, order, c).0 == rows
  {
    BestIsClosest(rules, rows, order, c);
    hide BestTo, Siblings, IsClosest, Merged;
    var best := BestTo(rules, c, Siblings(rows, order), |rows|);
    if best.None? {
      forall i: nat | i < |rows| ensures !IsClosest(rules, c, rows,
        order[i]) { NoMatchNoClosest(rules, c, rows, order[i]); }
    } else if rows[order[best.value]].status == Rejected {
      assert Bars(rules, rows, order, c, best.value);
    } else {
      forall i: nat ensures !Bars(rules, rows, order, c, i) {
        if i == best.value {
        } else if i < best.value {
        } else if i < |rows| {
          assert IsClosest(rules, c, rows, order[best.value]);
        }
      }
    }
  }

  lemma {:induction false} NoMatchNoClosest(rules: Rules, c: Candidate, rows: seq<Row>, k: nat)
    requires forall j :: 0 <= j < |rows| ==> !Matches(rules, c, rows[j])
    ensures !IsClosest(rules, c, rows, k)
  {
    hide Matches, Likeness;
  }

  /** Rows in the order they were created, and with row `k` read first. */
  function AsCreated(n: nat): seq<nat> { seq(n, i => i) }

  function FirstRead(n: nat, k: nat): seq<nat> { seq(n, i => if i == 0 then k else if i <= k then i - 1 else i) }

  lemma {:induction false} OrdersAreReadings(n: nat, k: nat)
    ensures IsReading(n, AsCreated(n))
    ensures k < n ==> IsReading(n, FirstRead(n, k)) && FirstRead(n, k)[0] == k
  {
    forall j: nat | j < n ensures j in AsCreated(n) { assert AsCreated(n)[j] == j; }
    if k < n {
      forall j: nat | j < n ensures j in FirstRead(n, k) {
        var i := if j == k then 0 else if j < k then j + 1 else j;
        assert FirstRead(n, k)[i] == j;
      }
    }
  }

  /** In whatever order the rows come, the candidate is turned away. */
  ghost predicate AlwaysTurnedAway(rules: Rules, rows: seq<Row>, c: Candidate) {
    forall order :: IsReading(|rows|, order) ==> Ingest(rules, rows, order, c).1 == Dropped
  }

  /** Some row matches, and all the closest ones were rejected. */
  ghost predicate ClosestRejected(rules: Rules, rows: seq<Row>, c: Candidate) {
    && (exists j: nat :: j < |rows| && Matches(rules, c, rows[j]))
    && forall k: nat :: IsClosest(rules, c, rows, k) ==> rows[k].status == Rejected
  }

  lemma {:induction false} AlwaysTurnedAwayIff(rules: Rules, rows: seq<Row>, c: Candidate)
    requires !Screened(c)
    ensures AlwaysTurnedAway(rules, rows, c) <==> ClosestRejected(rules, rows, c)
  {
    OrdersAreReadings(|rows|, 0);
    OneReading(rules, rows, AsCreated(|rows|), c);
    forall k: nat | IsClosest(rules, c, rows, k) && rows[k].status != Rejected
      ensures !AlwaysTurnedAway(rules, rows, c)
    {
      OrdersAreReadings(|rows|, k);
      OneReading(rules, rows, FirstRead(|rows|, k), c);
      hide Ingest, IsClosest, Matches;
    }
    forall order | IsReading(|rows|, order)
      ensures ClosestRejected(rules, rows, c) ==> Ingest(rules, rows, order, c).1 == Dropped
    {
      OneReading(rules, rows, order, c);
      hide ClosestRejected;
    }
    hide IsReading, Matches, AsCreated, Ingest;
  }

  /** What one reading makes of the candidate. */
  lemma {:induction false} OneReading(rules: Rules, rows: seq<Row>, order: seq<nat>, c: Candidate)
    requires !Screened(c) && IsReading(|rows|, order)
    ensures
      var dropped := Ingest(rules, rows, order, c).1 == Dropped;
      && (dropped ==> exists j: nat :: j < |rows| && Matches(rules, c, rows[j]))
      && (rows != [] && IsClosest(rules, c, rows, order[0]) ==> (dropped <==> rows[order[0]].status == Rejected))
      && (ClosestRejected(rules, rows, c) ==> dropped)
  {
    BestIsClosest(rules, rows, order, c);
    hide BestTo, Siblings, Likeness, Merged, Matches;
  }

  /** The title weighs more: with the same words in it any text matches, without a common word none does;
      with the same text a quarter of its words is enough, and without a common word in the text eleven
      twelfths of them are needed. */
  lemma {:induction false} TitleWeighsMore(rules: Rules, c: Candidate, row: Row)
    requires row.scope == c.scope
    ensures
      var title := Similarity(rules.tokens(c.title), rules.tokens(row.title));
      var text := Similarity(rules.tokens(c.content), rules.tokens(row.content));
      && (title == 1.0 ==> Matches(rules, c, row)) && (title == 0.0 ==> !Matches(rules, c, row))
      && (text == 1.0 ==> (Matches(rules, c, row) <==> 4.0 * title >= 1.0))
      && (text == 0.0 ==> (Matches(rules, c, row) <==> 12.0 * title >= 11.0))
  {
    SimilarityIs(rules.tokens(c.title), rules.tokens(row.title));
    SimilarityIs(rules.tokens(c.content), rules.tokens(row.content));
    hide Similarity;
  }

  /** The row is in the scope of the candidate and has the same words. */
  predicate Echoes(rules: Rules, c: Candidate, row: Row) { row.scope == c.scope && Likeness(rules, c, row) == 1.0 }

  /** After a rejection and any history, a candidate of the same words as the rejected row as it
      stands is turned away, whatever order the rows come in, exactly if every row of these words was
      rejected. */
  lemma {:induction false} RejectedTopicStaysOutIff(rules: Rules, rows: seq<Row>, actions: seq<Action>, c: Candidate,
          j: nat)
    requires Rounds(rules) && Inv(rows) && !Screened(c)
    requires j < |rows| && rows[j].status == Rejected && Echoes(rules, c, rows[j])
    ensures
      var later := Run(rules, rows, actions);
      AlwaysTurnedAway(rules, later, c) <==>
      forall k: nat :: k < |later| && Echoes(rules, c, later[k]) ==> later[k].status == Rejected
  {
    var later := Run(rules, rows, actions);
    RejectedForGood(rules, rows, actions);
    assert later[j] == rows[j];
    AlwaysTurnedAwayIff(rules, later, c);
    hide Run, Inv, Ingest;
    EchoesAreClosest(rules, later, c, j);
    assert Matches(rules, c, later[j]);
  }

  lemma {:induction false} EchoesAreClosest(rules: Rules, rows: seq<Row>, c: Candidate, j: nat)
    requires j < |rows| && Echoes(rules, c, rows[j])
    ensures forall k: nat :: IsClosest(rules, c, rows, k) <==> k < |rows| && Echoes(rules, c, rows[k])
  {
    forall i | 0 <= i < |rows| ensures Likeness(rules, c, rows[i]) <= 1.0 { LikenessIs(rules, c, rows[i]); }
    hide Likeness;
    assert Matches(rules, c, rows[j]);
  }

  lemma {:induction false} LikenessIs(rules: Rules, c: Candidate, row: Row)
    ensures 0.0 <= Likeness(rules, c, row) <= 1.0
    ensures Likeness(rules, c, row) == 1.0 <==>
      rules.tokens(c.title) == rules.tokens(row.title) != {} &&
        rules.tokens(c.content) == rules.tokens(row.content) != {}
  {
    SimilarityIs(rules.tokens(c.title), rules.tokens(row.title));
    SimilarityIs(rules.tokens(c.content), rules.tokens(row.content));
    hide Similarity;
  }

  // ----- a rejected topic that comes back -----

  function Fact(title: string, content: string): Candidate { Candidate(0, FactKind, title, content, 0.6, false, false) }

  const FIRST := Fact("a b d", "x y")
  const SECOND := Fact("b d c", "x z")
  const AGAIN := Fact("a b c d", "x y z")

  function RejectedFirst(): Row {
    Created(FIRST).(status := Rejected, content := "x y" + (REJECTED_NOTE + "no"))
  }

  /** A candidate that matches a rejected row merges into a live row that is more like it, whatever
      order the rows come in; the note of the rejection makes the rejected row less like it. */
  lemma {:induction false} RejectedTopicReturns(round: real -> real, order: seq<nat>)
    requires IsReading(2, order)
    ensures
      var rules := Rules(TokensOf, round);
      var rows := Run(rules, [], [Take(FIRST, []), Take(SECOND, [0]), Reject(0, "no")]);
      && |rows| == 2 && rows[0].status == Rejected && Matches(rules, AGAIN, rows[0])
      && Ingest(rules, rows, order, AGAIN).1 == MergedInto(1)
  {
    var rules := Rules(TokensOf, round);
    LetterLikeness(rules);
    ReturnSteps(rules);
    hide Likeness, Run, TokensOf, Ingest, IsReading, REJECTED_NOTE;
    CloserIsTaken(rules, [RejectedFirst(), Created(SECOND)], order, AGAIN);
  }

  lemma {:induction false} CloserIsTaken(rules: Rules, rows: seq<Row>, order: seq<nat>, c: Candidate)
    requires !Screened(c) && |rows| == 2 && IsReading(2, order) && rows[1].status != Rejected &&
      rows[1].kind == FactKind
    requires Matches(rules, c, rows[1]) && Likeness(rules, c, rows[0]) < Likeness(rules, c, rows[1])
    ensures Ingest(rules, rows, order, c).1 == MergedInto(1)
  {
    BestIsClosest(rules, rows, order, c);
    assert !IsClosest(rules, c, rows, 0);
    hide BestTo, Siblings, Likeness, Matches, MergedConfidence;
  }

  lemma {:induction false} ReturnSteps(rules: Rules)
    requires Likeness(rules, SECOND, Created(FIRST)) < DEDUPE_SIMILARITY
    ensures Run(rules, [], [Take(FIRST, []), Take(SECOND, [0]), Reject(0, "no")]) == [RejectedFirst(), Created(SECOND)]
  {
    hide Likeness;
    var first, second := Created(FIRST), Created(SECOND);
    assert BestTo(rules, FIRST, [], 0) == None && [] + [first] == [first];
    var siblings := Siblings([first], [0]);
    assert BestTo(rules, SECOND, siblings, 0) == None && BestTo(rules, SECOND, siblings, 1) == None;
    hide Merged, BestTo;
    assert Step(rules, [], Take(FIRST, [])) == [first];
    assert Step(rules, [first], Take(SECOND, [0])) == [first, second];
    assert Step(rules, [first, second], Reject(0, "no")) == [RejectedFirst(), second];
    hide Step;
    var actions := [Take(FIRST, []), Take(SECOND, [0]), Reject(0, "no")];
    assert actions[1..] == [Take(SECOND, [0]), Reject(0, "no")] && actions[1..][1..] == [Reject(0, "no")];
    assert actions[1..][1..][1..] == [];
    assert Run(rules, [], actions) == Run(rules, [first], actions[1..]) ==
      Run(rules, [first, second], [Reject(0, "no")]) == Run(rules, [RejectedFirst(), second], []);
  }

  lemma {:induction false} LetterLikeness(rules: Rules)
    requires rules.tokens == TokensOf
    ensures Likeness(rules, SECOND, Created(FIRST)) < DEDUPE_SIMILARITY
    ensures DEDUPE_SIMILARITY <= Likeness(rules, AGAIN, RejectedFirst()) < Likeness(rules, AGAIN, Created(SECOND))
  {
    TitleSimilarities();
    ContentSimilarities();
    NotedSimilarity();
    hide Similarity, TokensOf, REJECTED_NOTE;
  }

  lemma {:induction false} TitleSimilarities()
    ensures Similarity(TokensOf("b d c"), TokensOf("a b d")) == 0.5
    ensures Similarity(TokensOf("a b c d"), TokensOf("a b d")) == 0.75
    ensures Similarity(TokensOf("a b c d"), TokensOf("b d c")) == 0.75
  {
    LetterTokens();
    hide TokensOf;
    var all := {"a", "b", "c", "d"};
    Overlap({"b", "d", "c"}, {"a", "b", "d"}, {"b", "d"}, all);
    Overlap(all, {"a", "b", "d"}, {"a", "b", "d"}, all);
    Overlap(all, {"b", "d", "c"}, {"b", "c", "d"}, all);
    hide Similarity;
  }

  lemma {:induction false} ContentSimilarities()
    ensures Similarity(TokensOf("x z"), TokensOf("x y")) * 3.0 == 1.0
    ensures Similarity(TokensOf("x y z"), TokensOf("x z")) * 3.0 == 2.0
  {
    LetterTokens();
    hide TokensOf;
    Overlap({"x", "z"}, {"x", "y"}, {"x"}, {"x", "y", "z"});
    Overlap({"x", "y", "z"}, {"x", "z"}, {"x", "z"}, {"x", "y", "z"});
    hide Similarity;
  }

  lemma {:induction false} NotedSimilarity()
    ensures Similarity(TokensOf("x y z"), TokensOf("x y" + (REJECTED_NOTE + "no"))) * 3.0 == 1.0
  {
    hide *;
    LetterTokens();
    DeadParts();
    NoTokens();
    NoteAdds("x y", "no");
    NotedOverlap(DEAD_FRONT, DEAD_BACK, TokensOf("x y" + (REJECTED_NOTE + "no")));
  }

  lemma {:induction false} NoTokens()
    ensures TokensOf("no") == {"no"}
  {
    OneWord("no");
  }

  lemma {:induction false} DeadParts()
    ensures |DEAD_FRONT| == |DEAD_BACK| == 2 && DEAD_FRONT != DEAD_BACK && DEAD_FRONT != "no" && DEAD_BACK != "no"
  {
    assert DEAD_FRONT[0] != DEAD_BACK[0] && DEAD_FRONT[0] != "no"[0] && DEAD_BACK[0] != "no"[0];
  }

  lemma {:induction false} NotedOverlap(u: string, v: string, noted: set<string>)
    requires |u| == 2 && |v| == 2 && u != v && u != "no" && v != "no" && noted == {"x", "y"} + {u, v} + {"no"}
    ensures Similarity({"x", "y", "z"}, noted) * 3.0 == 1.0
  {
    var all := {"x", "y", "z", "no"} + {u, v};
    assert {"x", "y", "z", "no"} !! {u, v};
    assert |all| == 6;
    assert {"x", "y", "z"} * noted == {"x", "y"} && {"x", "y", "z"} + noted == all;
    Overlap({"x", "y", "z"}, noted, {"x", "y"}, all);
    hide Similarity;
  }

  lemma {:induction false} Overlap(left: set<string>, right: set<string>, both: set<string>, any: set<string>)
    requires left != {} && right != {} && left * right == both && left + right == any
    ensures Similarity(left, right) == |both| as real / |any| as real
  {
  }

  lemma {:induction false} MoreWords(a: string, b: string, text: string)
    requires b != [] && (forall k :: 0 <= k < |b| ==> IsWord(b[k])) && text == a + [' '] + b
    ensures TokensOf(text) == TokensOf(a) + {b}
  {
    Separated(a, ' ', b);
    OneWord(b);
  }

  lemma {:induction false} LetterTokens()
    ensures TokensOf("a b d") == {"a", "b", "d"} && TokensOf("b d c") == {"b", "d", "c"}
    ensures TokensOf("a b c d") == {"a", "b", "c", "d"}
    ensures TokensOf("x y") == {"x", "y"} && TokensOf("x z") == {"x", "z"} && TokensOf("x y z") == {"x", "y", "z"}
  {
    hide TokensOf;
    OneWord("a");
    MoreWords("a", "b", "a b");
    MoreWords("a b", "d", "a b d");
    MoreWords("a b", "c", "a b c");
    MoreWords("a b c", "d", "a b c d");
    OneWord("b");
    MoreWords("b", "d", "b d");
    MoreWords("b d", "c", "b d c");
    OneWord("x");
    MoreWords("x", "y", "x y");
    MoreWords("x", "z", "x z");
    MoreWords("x y", "z", "x y z");
  }

  /** The two pairs of the three characters of the note. */
  const DEAD := "\U{5DF2}\U{5931}\U{6548}"
  const DEAD_FRONT := "\U{5DF2}\U{5931}"
  const DEAD_BACK := "\U{5931}\U{6548}"

  lemma {:induction false} DeadTokens()
    ensures TokensOf(DEAD) == {DEAD_FRONT, DEAD_BACK} && TokensOf("") == {}
  {
    OneHanRun(DEAD);
    assert PairAt(DEAD, 0) == DEAD_FRONT && PairAt(DEAD, 1) == DEAD_BACK;
    assert PairAt(DEAD, 0) in Bigrams(DEAD) && PairAt(DEAD, 1) in Bigrams(DEAD);
  }

  lemma {:induction false} NoteSplits(content: string, reason: string)
    ensures content + (REJECTED_NOTE + reason) == content + ['\n'] + "" + ['['] + DEAD + [']'] + "" + [' '] + reason
  {
  }

  /** A rejection adds the words of its reason and the two pairs of its mark. */
  lemma {:induction false} NoteAdds(content: string, reason: string)
    ensures TokensOf(content + (REJECTED_NOTE + reason)) ==
      TokensOf(content) + {DEAD_FRONT, DEAD_BACK} + TokensOf(reason)
  {
    DeadTokens();
    NoteSplits(content, reason);
    hide TokensOf, REJECTED_NOTE, DEAD, DEAD_FRONT, DEAD_BACK;
    var t1 := content + ['\n'] + "";
    var t2 := t1 + ['['] + DEAD;
    var t3 := t2 + [']'] + "";
    Separated(content, '\n', "");
    Separated(t1, '[', DEAD);
    Separated(t2, ']', "");
    Separated(t3, ' ', reason);
  }

  // ----- recall -----

  /** What selection looks at: `order` is the place of the title in the alphabet. */
  datatype Item = Item(active: bool, relevance: real, score: real, cost: nat, order: int)

  datatype Limits = Limits(minRelevance: real, minScore: real, maxItems: int, budget: int)

  predicate Admitted(i: Item, limits: Limits) { i.active && i.relevance >= limits.minRelevance }

  /** Higher score first, then the title. */
  predicate NotAfter(a: Item, b: Item) { a.score > b.score || (a.score == b.score && a.order <= b.order) }

  predicate Within(items: seq<Item>, ks: seq<nat>) {
    (forall i :: 0 <= i < |ks| ==> ks[i] < |items|) && (forall k :: k in ks ==> k < |items|)
  }

  predicate Ranked(items: seq<Item>, ks: seq<nat>)
    requires Within(items, ks)
  {
    forall i, j :: 0 <= i < j < |ks| ==> NotAfter(items[ks[i]], items[ks[j]])
  }

  /** The stable sort by score and title. */
  function Rank(items: seq<Item>, ks: seq<nat>): (r: seq<nat>)
    requires Within(items, ks)
    ensures Within(items, r) && multiset(r) == multiset(ks)
  {
    if ks == [] then []
    else
      var n := |ks| - 1;
      assert ks == ks[..n] + [ks[n]];
      Place(items, Rank(items, ks[..n]), ks[n])
  }

  function Place(items: seq<Item>, ks: seq<nat>, k: nat): (r: seq<nat>)
    requires Within(items, ks) && k < |items|
    ensures Within(items, r) && multiset(r) == multiset(ks) + multiset{k}
  {
    if ks == [] then [k]
    else if !NotAfter(items[ks[0]], items[k]) then [k] + ks
    else
      assert ks == [ks[0]] + ks[1..];
      [ks[0]] + Place(items, ks[1..], k)
  }

  lemma {:induction false} PlaceRanks(items: seq<Item>, ks: seq<nat>, k: nat)
    requires Within(items, ks) && k < |items| && Ranked(items, ks)
    ensures Ranked(items, Place(items, ks, k))
  {
    if ks != [] && NotAfter(items[ks[0]], items[k]) {
      PlaceRanks(items, ks[1..], k);
      var rest := Place(items, ks[1..], k);
      forall j | 0 <= j < |rest| ensures NotAfter(items[ks[0]], items[rest[j]]) {
        assert rest[j] in multiset(rest);
        if rest[j] != k {
          assert rest[j] in ks[1..];
          var i :| 0 <= i < |ks[1..]| && ks[1..][i] == rest[j];
          assert ks[i + 1] == rest[j];
        }
      }
    }
  }

  lemma {:induction false} RankRanks(items: seq<Item>, ks: seq<nat>)
    requires Within(items, ks)
    ensures Ranked(items, Rank(items, ks))
    decreases |ks|
  {
    if ks != [] {
      RankRanks(items, ks[..|ks| - 1]);
      PlaceRanks(items, Rank(items, ks[..|ks| - 1]), ks[|ks| - 1]);
    }
  }

  function Cost(items: seq<Item>, ks: seq<nat>): nat
    requires Within(items, ks)
  {
    if ks == [] then 0 else Cost(items, ks[..|ks| - 1]) + items[ks[|ks| - 1]].cost
  }

  lemma {:induction false} CostSnoc(items: seq<Item>, ks: seq<nat>, k: nat)
    requires Within(items, ks) && k < |items|
    ensures Within(items, ks + [k]) && Cost(items, ks + [k]) == Cost(items, ks) + items[k].cost
  {
    assert (ks + [k])[..|ks|] == ks;
  }

  /** The first `n` selected rank before item `k`, and the others after it. */
  predicate Splits(items: seq<Item>, selected: seq<nat>, k: nat, n: nat)
    requires Within(items, selected) && k < |items|
  {
    && n <= |selected|
    && (forall j :: 0 <= j < n ==> NotAfter(items[selected[j]], items[k]))
    && (forall j :: n <= j < |selected| ==> NotAfter(items[k], items[selected[j]]))
  }

  /** Left out for good reason: not admitted, too low a score, or no room behind the better ones. */
  predicate Justly(items: seq<Item>, limits: Limits, selected: seq<nat>, k: nat, n: nat)
    requires Within(items, selected) && k < |items|
  {
    || !Admitted(items[k], limits) || items[k].score < limits.minScore
    || (Splits(items, selected, k, n) &&
      (n >= limits.maxItems || Cost(items, selected[..n]) + items[k].cost > limits.budget))
  }

  predicate AllJustly(items: seq<Item>, limits: Limits, selected: seq<nat>, dropped: seq<nat>, ns: seq<nat>)
    requires Within(items, selected) && Within(items, dropped)
  {
    |ns| == |dropped| && forall i :: 0 <= i < |dropped| ==> Justly(items, limits, selected, dropped[i], ns[i])
  }

  /** Everything still to come ranks after what was dropped for want of room. */
  predicate Ahead(items: seq<Item>, limits: Limits, dropped: seq<nat>, rest: seq<nat>)
    requires Within(items, dropped) && Within(items, rest)
  {
    forall i, j :: 0 <= i < |dropped| && 0 <= j < |rest| && Admitted(items[dropped[i]], limits) ==>
      NotAfter(items[dropped[i]], items[rest[j]])
  }

  lemma {:induction false} SelectOne(items: seq<Item>, limits: Limits, selected: seq<nat>, dropped: seq<nat>,
          ns: seq<nat>, rest: seq<nat>)
    requires Within(items, selected) && Within(items, dropped) && Within(items, rest) && rest != []
    requires Ranked(items, selected + rest) && AllJustly(items, limits, selected, dropped, ns) &&
      Ahead(items, limits, dropped, rest)
    ensures
      var more := selected + [rest[0]];
      Within(items, more) && Within(items, rest[1..]) && Ranked(items, more + rest[1..]) &&
      AllJustly(items, limits, more, dropped, ns) && Ahead(items, limits, dropped, rest[1..])
  {
    var more := selected + [rest[0]];
    assert more + rest[1..] == selected + rest;
    forall i | 0 <= i < |dropped| ensures Justly(items, limits, more, dropped[i], ns[i]) {
      if Admitted(items[dropped[i]], limits) && items[dropped[i]].score >= limits.minScore {
        assert more[..ns[i]] == selected[..ns[i]];
      }
    }
  }

  lemma {:induction false} DropOne(items: seq<Item>, limits: Limits, selected: seq<nat>, dropped: seq<nat>,
          ns: seq<nat>, rest: seq<nat>)
    requires Within(items, selected) && Within(items, dropped) && Within(items, rest) && rest != []
    requires Ranked(items, selected + rest) && AllJustly(items, limits, selected, dropped, ns) &&
      Ahead(items, limits, dropped, rest)
    requires items[rest[0]].score < limits.minScore || |selected| >= limits.maxItems ||
      Cost(items, selected) + items[rest[0]].cost > limits.budget
    ensures
      var more := dropped + [rest[0]];
      Within(items, more) && Within(items, rest[1..]) && Ranked(items, selected + rest[1..]) &&
      AllJustly(items, limits, selected, more, ns + [|selected|]) && Ahead(items, limits, more, rest[1..])
  {
    var k, all := rest[0], selected + rest;
    assert forall j :: 0 <= j < |selected| ==> all[j] == selected[j];
    assert forall j :: 0 <= j < |rest| ==> all[|selected| + j] == rest[j];
    assert forall j :: 0 <= j < |rest| - 1 ==> rest[1..][j] == all[|selected| + 1 + j];
    assert selected[..|selected|] == selected;
    assert Splits(items, selected, k, |selected|);
    hide Cost, Admitted;
    assert Ranked(items, selected + rest[1..]) by { RankedWithout(items, selected, rest); }
  }

  lemma {:induction false} RankedWithout(items: seq<Item>, selected: seq<nat>, rest: seq<nat>)
    requires Within(items, selected) && Within(items, rest) && rest != [] && Ranked(items, selected + rest)
    ensures Within(items, selected + rest[1..]) && Ranked(items, selected + rest[1..])
  {
    var all, less := selected + rest, selected + rest[1..];
    forall i, j | 0 <= i < j < |less| ensures NotAfter(items[less[i]], items[less[j]]) {
      var p, q := if i < |selected| then i else i + 1, if j < |selected| then j else j + 1;
      assert less[i] == all[p] && less[j] == all[q];
    }
  }

  /** The positions 0 to n - 1, once each. */
  function Everything(n: nat): multiset<nat> {
    if n == 0 then multiset{} else Everything(n - 1) + multiset{n - 1}
  }

  lemma {:induction false} EverythingIs(n: nat)
    ensures forall k: nat :: Everything(n)[k] == if k < n then 1 else 0
  {
    if n > 0 { EverythingIs(n - 1); }
  }

  /** The first pass: what is not active or has nothing to do with the query is dropped at once. */
  method Admit(items: seq<Item>, limits: Limits) returns (scored: seq<nat>, dropped: seq<nat>)
    ensures Within(items, scored) && Within(items, dropped)
    ensures AllAdmitted(items, limits, scored) && NoneAdmitted(items, limits, dropped)
    ensures multiset(scored) + multiset(dropped) == Everything(|items|)
  {
    scored, dropped := [], [];
    NothingAdmitted(items, limits);
    hide Admitted, Within, AllAdmitted, NoneAdmitted;
    for i := 0 to |items|
      invariant Within(items, scored) && Within(items, dropped)
      invariant AllAdmitted(items, limits, scored) && NoneAdmitted(items, limits, dropped)
      invariant multiset(scored) + multiset(dropped) == Everything(i)
    {
      if Admitted(items[i], limits) {
        OneMore(items, limits, scored, i);
        scored := scored + [i];
      } else {
        OneMore(items, limits, dropped, i);
        dropped := dropped + [i];
      }
    }
  }

  predicate AllAdmitted(items: seq<Item>, limits: Limits, ks: seq<nat>)
    requires Within(items, ks)
  {
    forall i :: 0 <= i < |ks| ==> Admitted(items[ks[i]], limits)
  }

  predicate NoneAdmitted(items: seq<Item>, limits: Limits, ks: seq<nat>)
    requires Within(items, ks)
  {
    forall i :: 0 <= i < |ks| ==> !Admitted(items[ks[i]], limits)
  }

  /** Everything selected is admitted and scores enough. */
  predicate AllFit(items: seq<Item>, limits: Limits, ks: seq<nat>)
    requires Within(items, ks)
  {
    forall i :: 0 <= i < |ks| ==> Admitted(items[ks[i]], limits) && items[ks[i]].score >= limits.minScore
  }

  lemma {:induction false} NothingAdmitted(items: seq<Item>, limits: Limits)
    ensures Within(items, []) && AllAdmitted(items, limits, []) && NoneAdmitted(items, limits, [])
  {
  }

  lemma {:induction false} OneMore(items: seq<Item>, limits: Limits, ks: seq<nat>, k: nat)
    requires Within(items, ks) && k < |items|
    ensures Within(items, ks + [k])
    ensures AllAdmitted(items, limits, ks) && Admitted(items[k], limits) ==> AllAdmitted(items, limits, ks + [k])
    ensures NoneAdmitted(items, limits, ks) && !Admitted(items[k], limits) ==> NoneAdmitted(items, limits, ks + [k])
  {
    hide Admitted;
  }

  /** Where the second pass stands, with `rest` still to be looked at. */
  ghost predicate Selecting(items: seq<Item>, limits: Limits, selected: seq<nat>, dropped: seq<nat>, ns: seq<nat>,
          rest: seq<nat>) {
    && Within(items, selected) && Within(items, dropped) && Within(items, rest) && AllAdmitted(items, limits, rest)
    && multiset(selected) + multiset(dropped) + multiset(rest) == Everything(|items|)
    && |selected| <= Max(0, limits.maxItems) && Cost(items, selected) <= Max(0, limits.budget)
    && AllFit(items, limits, selected) && Ranked(items, selected + rest)
    && AllJustly(items, limits, selected, dropped, ns) && Ahead(items, limits, dropped, rest)
  }

  lemma {:induction false} SelectNext(items: seq<Item>, limits: Limits, selected: seq<nat>, dropped: seq<nat>,
          ns: seq<nat>, rest: seq<nat>)
    requires Selecting(items, limits, selected, dropped, ns, rest) && rest != []
    ensures
      var k := rest[0];
      if items[k].score < limits.minScore || |selected| >= limits.maxItems ||
        Cost(items, selected) + items[k].cost > limits.budget
      then Selecting(items, limits, selected, dropped + [k], ns + [|selected|], rest[1..])
      else Selecting(items, limits, selected + [k], dropped, ns, rest[1..])
  {
    hide AllJustly, Ahead, Cost, Ranked, Admitted, Everything, Within;
    NextIndex(items, rest);
    var k := rest[0];
    assert rest == [k] + rest[1..];
    CostSnoc(items, selected, k);
    if items[k].score < limits.minScore || |selected| >= limits.maxItems
       || Cost(items, selected) + items[k].cost > limits.budget
    {
      DropOne(items, limits, selected, dropped, ns, rest);
    } else {
      SelectOne(items, limits, selected, dropped, ns, rest);
    }
  }

  lemma {:induction false} AdmittedTogether(items: seq<Item>, limits: Limits, a: seq<nat>, b: seq<nat>)
    requires Within(items, a) && Within(items, b) && multiset(a) == multiset(b) && AllAdmitted(items, limits, a)
    ensures AllAdmitted(items, limits, b)
  {
    hide Admitted;
    forall i | 0 <= i < |b| ensures Admitted(items[b[i]], limits) {
      assert b[i] in multiset(b);
      assert b[i] in a;
    }
  }

  lemma {:induction false} SelectFirst(items: seq<Item>, limits: Limits, scored: seq<nat>, dropped: seq<nat>)
    requires Within(items, scored) && Within(items, dropped) &&
      multiset(scored) + multiset(dropped) == Everything(|items|)
    requires AllAdmitted(items, limits, scored) && NoneAdmitted(items, limits, dropped)
    ensures Selecting(items, limits, [], dropped, seq(|dropped|, i => 0), Rank(items, scored))
  {
    hide Rank, Ranked, Everything, Within, AllAdmitted, AllJustly;
    var ranked := Rank(items, scored);
    RankRanks(items, scored);
    AdmittedTogether(items, limits, scored, ranked);
    assert [] + ranked == ranked;
    NothingYet(items, limits, dropped, ranked);
  }

  lemma {:induction false} NothingYet(items: seq<Item>, limits: Limits, dropped: seq<nat>, rest: seq<nat>)
    requires Within(items, dropped) && Within(items, rest) && NoneAdmitted(items, limits, dropped)
    ensures Within(items, []) && Cost(items, []) == 0 && AllFit(items, limits, [])
    ensures AllJustly(items, limits, [], dropped, seq(|dropped|, i => 0)) && Ahead(items, limits, dropped, rest)
  {
    hide Admitted;
  }

  lemma {:induction false} NextIndex(items: seq<Item>, rest: seq<nat>)
    requires Within(items, rest) && rest != []
    ensures rest[0] < |items|
  {
  }

  /** Each memory is either selected or dropped, once; the selected ones are in rank order and
      within both limits; and nothing is dropped that would have fitted behind the better ones. */
  method RankAndSelect(items: seq<Item>, limits: Limits)
    returns (selected: seq<nat>, dropped: seq<nat>, ghost ns: seq<nat>)
    ensures Within(items, selected) && Within(items, dropped)
    ensures forall k: nat :: multiset(selected)[k] + multiset(dropped)[k] == if k < |items| then 1 else 0
    ensures |selected| <= Max(0, limits.maxItems) && Cost(items, selected) <= Max(0, limits.budget)
    ensures AllFit(items, limits, selected) && Ranked(items, selected)
    ensures AllJustly(items, limits, selected, dropped, ns)
  {
    hide Rank, Ranked, Admitted, Everything, AllJustly, Ahead, Cost, AllFit, AllAdmitted, NoneAdmitted, Within;
    var scored;
    scored, dropped := Admit(items, limits);
    SelectFirst(items, limits, scored, dropped);
    var ranked := Rank(items, scored);
    NothingYet(items, limits, dropped, ranked);
    selected, ns := [], seq(|dropped|, i => 0);
    var used := 0;
    assert ranked[0..] == ranked;
    for i := 0 to |ranked|
      invariant Selecting(items, limits, selected, dropped, ns, ranked[i..])
      invariant used == Cost(items, selected)
    {
      ghost var rest := ranked[i..];
      NextIndex(items, rest);
      assert rest[0] == ranked[i] && rest[1..] == ranked[i + 1..];
      SelectNext(items, limits, selected, dropped, ns, rest);
      var k := ranked[i];
      CostSnoc(items, selected, k);
      hide Selecting;
      if items[k].score < limits.minScore || |selected| >= limits.maxItems || used + items[k].cost > limits.budget {
        dropped, ns := dropped + [k], ns + [|selected|];
      } else {
        selected := selected + [k];
        used := used + items[k].cost;
      }
    }
    assert ranked[|ranked|..] == [] && selected + [] == selected;
    assert multiset(selected) + multiset(dropped) == Everything(|items|);
    EverythingIs(|items|);
    assert forall k: nat :: (multiset(selected) + multiset(dropped))[k] == multiset(selected)[k] + multiset(dropped)[k];
  }
}
