/** What a run of the tool loop does, exactly: the verdict on every call, which calls start, which
    output each gets, what is recorded, and how the run ends. */
module RunLaws {
  import opened Text
  import opened ToolGate
  import H = History

  // ----- the verdict on every call -----

  /** The calls that were judged, in order. */
  function AllCalls(hops: seq<Hop>): seq<Offer> {
    if hops == [] then [] else hops[0].calls + AllCalls(hops[1..])
  }

  predicate Routed(c: Offer) { c.known && c.policy == Some(AutoReview) }

  /** The reviewer is not there, fails, answers nothing usable, or leaves it to the user. */
  predicate Undecided(c: Offer, reviewer: bool) {
    !reviewer || c.review.Failure? || c.review.decision == AutoReview || c.review.decision == AskUser
  }

  /** The reviewer is there, and its answer counts as a denial. */
  predicate Denies(c: Offer, reviewer: bool) {
    reviewer && c.review.Verdict? && c.review.decision != AutoReview && c.review.denies
  }

  /** The judgement that a call gets, given whether the breaker has tripped before it. */
  predicate IsVerdict(c: Offer, reviewer: bool, tripped: bool, j: Judged) {
    && (j.final == Allow <==> Permitted(c, reviewer) && !(Routed(c) && tripped))
    && (j.final == AskUser <==>
          (c.known && c.policy == Some(AskUser)) || (Routed(c) && !tripped && Undecided(c, reviewer)))
    && j.final != AutoReview
    && (j.routed <==> Routed(c))
    && (j.asked <==> Routed(c) && !tripped && reviewer)
    && (j.denial <==> Routed(c) && (tripped || Denies(c, reviewer)))
  }

  /** Each call is judged by the count of denials before it. */
  predicate Verdicts(cs: seq<Offer>, js: seq<Judged>, reviewer: bool, denials: nat) {
    |cs| == |js| && forall n :: 0 <= n < |js| ==>
      IsVerdict(cs[n], reviewer, CountAll(denials, js[..n]) >= 3, js[n])
  }

  lemma {:induction false} JudgeIsVerdict(c: Offer, reviewer: bool, denials: nat)
    ensures IsVerdict(c, reviewer, denials >= 3, Judge(c, reviewer, denials))
  {
  }

  lemma {:induction false} VerdictsCons(c: Offer, cs: seq<Offer>, j: Judged, js: seq<Judged>, reviewer: bool,
          denials: nat)
    requires IsVerdict(c, reviewer, denials >= 3, j) && Verdicts(cs, js, reviewer, Count(denials, j))
    ensures Verdicts([c] + cs, [j] + js, reviewer, denials)
  {
    hide IsVerdict;
    var all := [j] + js;
    forall n | 0 <= n < |all| ensures IsVerdict(([c] + cs)[n], reviewer, CountAll(denials, all[..n]) >= 3, all[n]) {
      if n > 0 {
        assert all[..n] == [j] + js[..n - 1] && ([j] + js[..n - 1])[1..] == js[..n - 1];
        assert CountAll(denials, all[..n]) == CountAll(Count(denials, j), js[..n - 1]);
      }
    }
  }

  lemma {:induction false} VerdictsConcat(cs: seq<Offer>, js: seq<Judged>, ds: seq<Offer>, ks: seq<Judged>,
          reviewer: bool,
          denials: nat)
    requires Verdicts(cs, js, reviewer, denials) && Verdicts(ds, ks, reviewer, CountAll(denials, js))
    ensures Verdicts(cs + ds, js + ks, reviewer, denials)
  {
    hide IsVerdict, CountAll;
    var all := js + ks;
    forall n | 0 <= n < |all| ensures IsVerdict((cs + ds)[n], reviewer, CountAll(denials, all[..n]) >= 3, all[n]) {
      if n < |js| {
        assert all[..n] == js[..n];
      } else {
        assert all[..n] == js + ks[..n - |js|];
        CountConcat(denials, js, ks[..n - |js|]);
      }
    }
  }

  lemma {:induction false} CountConcat(denials: nat, a: seq<Judged>, b: seq<Judged>)
    ensures CountAll(denials, a + b) == CountAll(CountAll(denials, a), b)
    decreases |a|
  {
    if a == [] {
      assert a + b == b;
    } else {
      assert (a + b)[1..] == a[1..] + b;
      CountConcat(Count(denials, a[0]), a[1..], b);
    }
  }

  lemma {:induction false} JudgeAllVerdicts(calls: seq<Offer>, reviewer: bool, denials: nat)
    ensures Verdicts(calls, JudgeAll(calls, reviewer, denials), reviewer, denials)
    decreases |calls|
  {
    if calls != [] {
      hide IsVerdict, Judge, Verdicts;
      var j := Judge(calls[0], reviewer, denials);
      JudgeIsVerdict(calls[0], reviewer, denials);
      JudgeAllVerdicts(calls[1..], reviewer, Count(denials, j));
      VerdictsCons(calls[0], calls[1..], j, JudgeAll(calls[1..], reviewer, Count(denials, j)), reviewer, denials);
      assert calls == [calls[0]] + calls[1..];
    }
  }

  lemma {:induction false} TakeVerdicts(t: Turn, reviewer: bool, denials: nat)
    ensures
      var taken := Take(t, reviewer, denials);
      && |taken.hops| <= 1 && Verdicts(AllCalls(taken.hops), AllJudged(taken.hops), reviewer, denials)
      && taken.denials == CountAll(denials, AllJudged(taken.hops))
  {
    TakenJudged(t, reviewer, denials);
    if t.Reply? { JudgeAllVerdicts(t.calls, reviewer, denials); }
    hide JudgeAll, Work, Starts, FirstAsk, IsVerdict, Blocked;
    var hops := Take(t, reviewer, denials).hops;
    if hops != [] { assert hops[1..] == [] && AllCalls(hops) == hops[0].calls; }
  }

  lemma {:induction false} FirstCalls(a: seq<Hop>, b: seq<Hop>)
    requires |a| <= 1
    ensures AllCalls(a + b) == AllCalls(a) + AllCalls(b)
  {
    if a == [] {
      assert a + b == b;
    } else {
      assert (a + b)[1..] == b && a[1..] == [];
    }
  }

  lemma {:induction false} LoopVerdicts(turns: seq<Turn>, reviewer: bool, denials: nat)
    ensures
      var hops := Loop(turns, reviewer, denials).hops;
      Verdicts(AllCalls(hops), AllJudged(hops), reviewer, denials)
    decreases |turns|
  {
    if turns != [] {
      hide Take, Verdicts, AllJudged, AllCalls, CountAll;
      TakeVerdicts(turns[0], reviewer, denials);
      var taken := Take(turns[0], reviewer, denials);
      if taken.stop.None? {
        var rest := Loop(turns[1..], reviewer, taken.denials).hops;
        LoopVerdicts(turns[1..], reviewer, taken.denials);
        FirstJudged(taken.hops, rest);
        FirstCalls(taken.hops, rest);
        VerdictsConcat(AllCalls(taken.hops), AllJudged(taken.hops), AllCalls(rest), AllJudged(rest), reviewer, denials);
      }
    } else {
      assert Verdicts(AllCalls([]), AllJudged([]), reviewer, denials);
    }
  }

  /** Refusals without a routed call in between that is not refused, up to `n`. */
  predicate StreakOfOne(js: seq<Judged>, n: nat, i: nat)
    requires n <= |js|
  {
    i < n && RefusedAt(js, i) && forall m :: i < m < n && js[m].routed ==> RefusedAt(js, m)
  }

  lemma {:induction false} CountHasOne(js: seq<Judged>, n: nat) returns (i: nat)
    requires n <= |js| && CountAll(0, js[..n]) >= 1
    ensures StreakOfOne(js, n, i)
  {
    if n > 0 {
      CountAt(js, 0, n - 1);
      if RefusedAt(js, n - 1) { i := n - 1; } else { i := CountHasOne(js, n - 1); }
    }
  }

  lemma {:induction false} CountHasTwo(js: seq<Judged>, n: nat) returns (i: nat, j: nat)
    requires n <= |js| && CountAll(0, js[..n]) >= 2
    ensures i < j && StreakOfOne(js, n, i) && StreakOfOne(js, n, j)
  {
    if n > 0 {
      CountAt(js, 0, n - 1);
      if RefusedAt(js, n - 1) {
        i := CountHasOne(js, n - 1);
        j := n - 1;
      } else {
        i, j := CountHasTwo(js, n - 1);
      }
    }
  }

  lemma {:induction false} CountHasThree(js: seq<Judged>, n: nat)
    requires n <= |js| && CountAll(0, js[..n]) >= 3
    ensures ThreeInARow(js, n)
  {
    if n > 0 {
      CountAt(js, 0, n - 1);
      if CountAll(0, js[..n - 1]) >= 3 {
        CountHasThree(js, n - 1);
      } else {
        var i, j := CountHasTwo(js, n - 1);
        assert RefusedAt(js, i) && RefusedAt(js, j) && RefusedAt(js, n - 1);
      }
    }
  }

  lemma {:induction false} TrippedIff(js: seq<Judged>, n: nat)
    requires Counted(js, 0) && n <= |js|
    ensures CountAll(0, js[..n]) >= 3 <==> ThreeInARow(js, n)
  {
    hide CountAll, Counted;
    if CountAll(0, js[..n]) >= 3 {
      CountHasThree(js, n);
    } else if ThreeInARow(js, n) {
      var i, j, k :| 0 <= i < j < k < n && RefusedAt(js, i) && RefusedAt(js, j) && RefusedAt(js, k) &&
        forall m :: i < m < k && js[m].routed ==> RefusedAt(js, m);
      ThreeTrip(js, i, j, k);
      StaysTripped(js, 0, k + 1, n);
    }
  }

  /** The verdict on the n-th call of a run: it is allowed exactly if it is permitted and no breaker is
      in its way, the user is asked exactly where the policy says so or the reviewer leaves it open,
      and everything else is denied. The breaker is three refusals in a row before it. */
  lemma {:induction false} EveryVerdictIs(turns: seq<Turn>, reviewer: bool, n: nat)
    requires n < |AllJudged(Loop(turns, reviewer, 0).hops)|
    ensures
      var hops := Loop(turns, reviewer, 0).hops;
      && |AllCalls(hops)| == |AllJudged(hops)|
      && IsVerdict(AllCalls(hops)[n], reviewer, ThreeInARow(AllJudged(hops), n), AllJudged(hops)[n])
  {
    var hops := Loop(turns, reviewer, 0).hops;
    LoopVerdicts(turns, reviewer, 0);
    LoopCounted(turns, reviewer, 0);
    hide IsVerdict, ThreeInARow, Loop, AllCalls, AllJudged, CountAll, Counted;
    TrippedIff(AllJudged(hops), n);
  }

  /** The verdict in an unattended run: the user is never asked; what the parent run would allow is
      allowed, all else is denied; and only a denial of the parent's reviewer counts. */
  lemma {:induction false} UnattendedVerdictIs(c: Offer, available: bool, tripped: bool, j: Judged)
    requires IsVerdict(Wrap(c, available), true, tripped, j)
    ensures j.final == if Permitted(c, available) && !(Routed(c) && tripped) then Allow else Deny
    ensures j.denial <==> Routed(c) && (tripped || (available && c.review.Verdict? && c.review.denies))
  {
  }

  // ----- what starts, and which output each call gets -----

  /** The call whose output the k-th one gets: the last allowed read of its id, or itself if there is
      none. */
  predicate IsSource(calls: seq<Offer>, js: seq<Judged>, k: nat, i: nat)
    requires |js| == |calls| && k < |calls|
  {
    && i < |calls|
    && if NoRead(calls, js, k) then i == k
       else
         && StartsRead(calls[i], js[i]) && calls[i].call.id == calls[k].call.id
         && forall m :: i < m < |calls| && StartsRead(calls[m], js[m]) ==> calls[m].call.id != calls[k].call.id
  }

  /** No allowed read has the id of the call. */
  predicate NoRead(calls: seq<Offer>, js: seq<Judged>, k: nat)
    requires |js| == |calls| && k < |calls|
  {
    forall m :: 0 <= m < |calls| && StartsRead(calls[m], js[m]) ==> calls[m].call.id != calls[k].call.id
  }

  /** The k-th call was not denied, and what it gets its output from was cancelled or interrupts. */
  ghost predicate EndsAt(calls: seq<Offer>, js: seq<Judged>, k: nat)
    requires |js| == |calls| && k < |calls|
  {
    js[k].final != Deny && exists i: nat ::
      IsSource(calls, js, k, i) && (calls[i].run.cancelled || calls[i].run.interrupts)
  }

  /** The output that the k-th call gets. */
  ghost predicate IsOutput(calls: seq<Offer>, js: seq<Judged>, k: nat, output: string)
    requires |js| == |calls| && k < |calls|
  {
    if js[k].final == Deny then output == DENIED_OUTPUT
    else exists i: nat ::
      IsSource(calls, js, k, i) && output == if calls[i].run.cancelled then CANCELLED_OUTPUT else calls[i].run.output
  }

  /** The call is reached: no call before it ends the run. */
  ghost predicate Reached(calls: seq<Offer>, js: seq<Judged>, from: nat, k: nat)
    requires |js| == |calls| && k <= |calls|
  {
    forall m :: from <= m < k ==> !EndsAt(calls, js, m)
  }

  /** Results are recorded up to the first call that ends the run, and every one is the right one. */
  ghost predicate IsWorked(calls: seq<Offer>, js: seq<Judged>, from: nat, p: Pass)
    requires |js| == |calls| && from <= |calls|
  {
    && |p.outputs| <= |calls| - from
    && (forall k :: 0 <= k < |p.outputs| ==> IsOutput(calls, js, from + k, p.outputs[k]))
    && (p.outputs != [] ==> Reached(calls, js, from, from + |p.outputs| - 1))
    && (p.interrupted ==> p.outputs != [] && EndsAt(calls, js, from + |p.outputs| - 1))
    && (!p.interrupted ==> |p.outputs| == |calls| - from)
    && (!p.interrupted && p.outputs != [] ==> !EndsAt(calls, js, from + |p.outputs| - 1))
  }

  lemma {:induction false} ReadOfIs(calls: seq<Offer>, js: seq<Judged>, id: string, n: nat)
    requires |js| == |calls| && n <= |calls|
    ensures
      var r := ReadOf(calls, js, id, n);
      r.Some? ==> forall m :: r.value < m < n && StartsRead(calls[m], js[m]) ==> calls[m].call.id != id
  {
    if n > 0 && !(StartsRead(calls[n - 1], js[n - 1]) && calls[n - 1].call.id == id) { ReadOfIs(calls, js, id, n - 1); }
  }

  lemma {:induction false} SourceIs(calls: seq<Offer>, js: seq<Judged>, k: nat)
    requires |js| == |calls| && k < |calls|
    ensures
      var read := ReadOf(calls, js, calls[k].call.id, |calls|);
      var i := if read.Some? then read.value else k;
      && (read.None? <==> NoRead(calls, js, k))
      && forall m: nat :: IsSource(calls, js, k, m) <==> m == i
  {
    ReadOfIs(calls, js, calls[k].call.id, |calls|);
    hide ReadOf, StartsRead;
  }

  lemma {:induction false} OneIs(calls: seq<Offer>, js: seq<Judged>, k: nat)
    requires |js| == |calls| && k < |calls|
    ensures IsOutput(calls, js, k, OneOutput(calls, js, k))
    ensures OneInterrupts(calls, js, k) <==> EndsAt(calls, js, k)
    ensures OneStart(calls, js, k) ==
      if js[k].final != Deny && NoRead(calls, js, k) && !calls[k].run.cancelled then [k] else []
  {
    SourceIs(calls, js, k);
    hide ReadOf, IsSource, NoRead;
  }

  lemma {:induction false} WorkIs(calls: seq<Offer>, js: seq<Judged>, from: nat)
    requires |js| == |calls| && from <= |calls|
    ensures IsWorked(calls, js, from, Work(calls, js, from))
    decreases |calls| - from
  {
    hide Work, IsOutput, EndsAt, OneOutput, OneInterrupts, OneStart;
    if from < |calls| {
      OneIs(calls, js, from);
      WorkStep(calls, js, from);
      if !OneInterrupts(calls, js, from) {
        WorkIs(calls, js, from + 1);
        WorkedCons(calls, js, from, Work(calls, js, from + 1), OneOutput(calls, js, from), Work(calls, js, from));
      }
    } else {
      assert Work(calls, js, from) == Pass([], [], false) by { NothingToWork(calls, js); }
    }
  }

  lemma {:induction false} NothingToWork(calls: seq<Offer>, js: seq<Judged>)
    requires |js| == |calls|
    ensures Work(calls, js, |calls|) == Pass([], [], false)
  {
  }

  lemma {:induction false} WorkedCons(calls: seq<Offer>, js: seq<Judged>, from: nat, rest: Pass, output: string,
          p: Pass)
    requires |js| == |calls| && from < |calls| && IsWorked(calls, js, from + 1, rest)
    requires IsOutput(calls, js, from, output) && !EndsAt(calls, js, from)
    requires p.outputs == [output] + rest.outputs && p.interrupted == rest.interrupted
    ensures IsWorked(calls, js, from, p)
  {
    hide IsOutput, EndsAt;
    forall k | 0 <= k < |p.outputs| ensures IsOutput(calls, js, from + k, p.outputs[k]) {
      if k > 0 { assert IsOutput(calls, js, from + 1 + (k - 1), rest.outputs[k - 1]); }
    }
  }

  lemma {:induction false} WorkStartsExactly(calls: seq<Offer>, js: seq<Judged>, from: nat)
    requires |js| == |calls| && from <= |calls|
    ensures forall k: nat :: k in Work(calls, js, from).started <==>
      from <= k < |calls| && js[k].final != Deny && NoRead(calls, js, k) && !calls[k].run.cancelled &&
      Reached(calls, js, from, k)
    decreases |calls| - from
  {
    hide Work, EndsAt, OneOutput, OneInterrupts, OneStart, NoRead;
    if from < |calls| {
      OneIs(calls, js, from);
      WorkStep(calls, js, from);
      if OneInterrupts(calls, js, from) {
        forall k: nat | from < k <= |calls| ensures !Reached(calls, js, from, k) { assert EndsAt(calls, js, from); }
      } else {
        WorkStartsExactly(calls, js, from + 1);
        forall k: nat | from < k <= |calls| ensures Reached(calls, js, from, k) <==> Reached(calls, js, from + 1, k) {
        }
      }
    } else {
      NothingToWork(calls, js);
    }
  }

  /** The k-th call of a hop starts. */
  ghost predicate DoesStart(calls: seq<Offer>, js: seq<Judged>, k: nat)
    requires |js| == |calls|
  {
    && k < |calls| && js[k].final == Allow && !calls[k].run.cancelled
    && (calls[k].isRead || (NoRead(calls, js, k) && Reached(calls, js, 0, k)))
  }

  /** A hop that needs no user starts exactly the allowed calls that are not cancelled: all reads, and
      of the others those that no earlier call keeps from running and no read answers. */
  lemma {:induction false} StartsExactly(calls: seq<Offer>, js: seq<Judged>)
    requires |js| == |calls| && !Blocked(js) && forall k :: 0 <= k < |js| ==> js[k].final != AutoReview
    ensures forall k: nat :: k in Starts(calls, js) <==> DoesStart(calls, js, k)
  {
    EarlyStartsAre(calls, js, 0);
    WorkStartsExactly(calls, js, 0);
    hide EarlyStarts, Work, EndsAt;
    forall k: nat ensures k in Starts(calls, js) <==> DoesStart(calls, js, k) {
      var early, late := EarlyStarts(calls, js, 0), Work(calls, js, 0).started;
      assert k in Starts(calls, js) <==> k in early || k in late;
      if k < |calls| && StartsRead(calls[k], js[k]) { assert !NoRead(calls, js, k); }
    }
  }

  /** A hop and what was recorded of it: nothing of a hop that needs the user; else the right output
      for every call up to the one that ends the run. */
  ghost predicate IsDone(h: Hop, e: H.Entry) {
    && |h.judged| == |h.calls| && e.Spoke? && |e.asked| == |h.calls|
    && (forall k :: 0 <= k < |h.calls| ==> e.asked[k].call == h.calls[k].call)
    && if Blocked(h.judged) then h.started == [] && forall k :: 0 <= k < |h.calls| ==> e.asked[k].output.None?
       else
         && (forall k: nat :: k in h.started <==> DoesStart(h.calls, h.judged, k))
         && forall k :: 0 <= k < |h.calls| ==>
              if Reached(h.calls, h.judged, 0, k)
              then e.asked[k].output.Some? && IsOutput(h.calls, h.judged, k, e.asked[k].output.value)
              else e.asked[k].output.None?
  }

  lemma {:induction false} RecordedUpTo(calls: seq<Offer>, js: seq<Judged>, k: nat)
    requires |js| == |calls| && k < |calls|
    ensures
      var p := Work(calls, js, 0);
      && (k < |p.outputs| <==> Reached(calls, js, 0, k))
      && (k < |p.outputs| ==> IsOutput(calls, js, k, p.outputs[k]))
  {
    WorkIs(calls, js, 0);
    hide Work, EndsAt, IsOutput;
    var p := Work(calls, js, 0);
    if k < |p.outputs| {
      assert IsOutput(calls, js, 0 + k, p.outputs[k]);
    } else {
      assert EndsAt(calls, js, 0 + |p.outputs| - 1);
    }
  }

  lemma {:induction false} TakeIsDone(t: Turn, reviewer: bool, denials: nat)
    ensures
      var taken := Take(t, reviewer, denials);
      forall h :: h in taken.hops ==> |taken.entries| == 1 && IsDone(h, taken.entries[0])
  {
    var taken := Take(t, reviewer, denials);
    if t.Reply? && t.calls != [] && FirstAsk(t.calls).None? {
      var js := JudgeAll(t.calls, reviewer, denials);
      JudgedIsFinal(t.calls, reviewer, denials);
      assert |js| == |t.calls|;
      hide JudgeAll, CountAll, FirstAsk;
      if !Blocked(js) {
        StartsExactly(t.calls, js);
        forall k: nat | k < |t.calls|
          ensures
            var p := Work(t.calls, js, 0);
            (k < |p.outputs| <==> Reached(t.calls, js, 0, k)) &&
              (k < |p.outputs| ==> IsOutput(t.calls, js, k, p.outputs[k]))
        {
          RecordedUpTo(t.calls, js, k);
        }
      }
    }
    hide Work, Starts, Reached, IsOutput, DoesStart, Blocked, JudgeAll, CountAll, FirstAsk;
  }

  ghost predicate DoneIn(h: Hop, entries: seq<H.Entry>) { exists e :: e in entries && IsDone(h, e) }

  ghost predicate AllDone(hops: seq<Hop>, entries: seq<H.Entry>) { forall h :: h in hops ==> DoneIn(h, entries) }

  /** Every hop of a run is done like that, and recorded. */
  lemma {:induction false} EveryHopIsDone(turns: seq<Turn>, reviewer: bool, denials: nat)
    ensures var o := Loop(turns, reviewer, denials); AllDone(o.hops, o.entries)
    decreases |turns|
  {
    if turns != [] {
      hide Take, AllDone;
      TakeAllDone(turns[0], reviewer, denials);
      var taken := Take(turns[0], reviewer, denials);
      if taken.stop.None? {
        EveryHopIsDone(turns[1..], reviewer, taken.denials);
        var rest := Loop(turns[1..], reviewer, taken.denials);
        DoneTogether(taken.hops, taken.entries, rest.hops, rest.entries);
      }
    } else {
      assert AllDone([], [H.Spoke(Some(LIMIT_TEXT), [])]);
    }
  }

  lemma {:induction false} TakeAllDone(t: Turn, reviewer: bool, denials: nat)
    ensures var taken := Take(t, reviewer, denials); AllDone(taken.hops, taken.entries)
  {
    TakeIsDone(t, reviewer, denials);
    hide Take, IsDone;
    var taken := Take(t, reviewer, denials);
    forall h | h in taken.hops ensures DoneIn(h, taken.entries) { assert taken.entries[0] in taken.entries; }
  }

  lemma {:induction false} DoneTogether(a: seq<Hop>, x: seq<H.Entry>, b: seq<Hop>, y: seq<H.Entry>)
    requires AllDone(a, x) && AllDone(b, y)
    ensures AllDone(a + b, x + y)
  {
    hide IsDone;
  }

  // ----- how a run goes and ends -----

  /** A reply with a question among its calls. */
  predicate HasAsk(t: Turn) {
    t.Reply? && exists k :: 0 <= k < |t.calls| && t.calls[k].call.name == ASK_USER
  }

  predicate JudgesCalls(t: Turn) { t.Reply? && t.calls != [] && !HasAsk(t) }

  /** What a turn leaves in the record: the error, the text, or the text and the calls. */
  predicate Records(t: Turn, e: H.Entry) {
    match t
    case CancelledFirst => false
    case ModelError(error) => e == H.Spoke(Some(error), [])
    case Reply(text, calls, _) =>
      if calls == [] then e == H.Spoke(Some(TextOr(text)), [])
      else
        && e.Spoke? && e.content == text && |e.asked| == |calls|
        && forall k :: 0 <= k < |calls| ==> e.asked[k].call == calls[k].call
  }

  /** How a turn ends the run, given the hop it judged, if it judged one. */
  ghost predicate StopsAs(t: Turn, hops: seq<Hop>, stop: Option<Stop>) {
    match t
    case CancelledFirst => stop == Some(Cancelled)
    case ModelError(_) => stop == Some(Failed)
    case Reply(_, calls, questionsValid) =>
      if calls == [] then stop == Some(EndTurn)
      else if HasAsk(t) then stop == if questionsValid then Some(Questions) else None
      else
        && |hops| == 1 && hops[0].calls == calls && |hops[0].judged| == |calls|
        && if Blocked(hops[0].judged) then stop == Some(Confirm)
           else stop == if Reached(calls, hops[0].judged, 0, |calls|) then None else Some(Interrupted)
  }

  /** One turn: what it records, which hop it judges, and whether it ends the run. */
  ghost predicate IsTurn(t: Turn, entries: seq<H.Entry>, hops: seq<Hop>, stop: Option<Stop>) {
    && |entries| == (if t.CancelledFirst? then 0 else 1) && (entries != [] ==> Records(t, entries[0]))
    && |hops| == (if JudgesCalls(t) then 1 else 0) && StopsAs(t, hops, stop)
  }

  lemma {:induction false} FirstAskIs(calls: seq<Offer>)
    ensures FirstAsk(calls).None? <==> forall k :: 0 <= k < |calls| ==> calls[k].call.name != ASK_USER
    ensures FirstAsk(calls).Some? ==> forall k :: 0 <= k < FirstAsk(calls).value ==> calls[k].call.name != ASK_USER
  {
    if calls != [] && calls[0].call.name != ASK_USER {
      FirstAskIs(calls[1..]);
      assert calls == [calls[0]] + calls[1..];
    }
  }

  lemma {:induction false} JudgedIsTurn(t: Turn, reviewer: bool, denials: nat)
    requires JudgesCalls(t) && FirstAsk(t.calls).None?
    ensures
      var taken := Take(t, reviewer, denials);
      IsTurn(t, taken.entries, taken.hops, taken.stop)
  {
    var js := JudgeAll(t.calls, reviewer, denials);
    InterruptedIff(t.calls, js);
    hide Work, Starts, Reached, Blocked, JudgeAll, CountAll, FirstAsk, HasAsk;
  }

  lemma {:induction false} OtherIsTurn(t: Turn, reviewer: bool, denials: nat)
    requires !JudgesCalls(t) && (HasAsk(t) ==> FirstAsk(t.calls).Some?)
    ensures
      var taken := Take(t, reviewer, denials);
      IsTurn(t, taken.entries, taken.hops, taken.stop)
  {
    hide Work, Starts, Reached, Blocked, JudgeAll, CountAll, FirstAsk;
  }

  lemma {:induction false} TakeIsTurn(t: Turn, reviewer: bool, denials: nat)
    ensures
      var taken := Take(t, reviewer, denials);
      IsTurn(t, taken.entries, taken.hops, taken.stop)
  {
    if t.Reply? { FirstAskIs(t.calls); }
    hide Take, IsTurn, FirstAsk;
    if JudgesCalls(t) { JudgedIsTurn(t, reviewer, denials); } else { OtherIsTurn(t, reviewer, denials); }
  }

  lemma {:induction false} InterruptedIff(calls: seq<Offer>, js: seq<Judged>)
    requires |js| == |calls|
    ensures Work(calls, js, 0).interrupted <==> !Reached(calls, js, 0, |calls|)
  {
    WorkIs(calls, js, 0);
    hide Work, EndsAt, IsOutput;
    var p := Work(calls, js, 0);
    if p.interrupted {
      assert EndsAt(calls, js, 0 + |p.outputs| - 1);
    } else if calls != [] {
      assert !EndsAt(calls, js, 0 + |p.outputs| - 1);
    }
  }

  /** The record of a run: one piece for each turn taken, the last of which ends it, or the closing text
      when no turn is left. */
  ghost predicate IsRun(turns: seq<Turn>, entries: seq<H.Entry>, hops: seq<Hop>, stop: Stop)
    decreases |turns|
  {
    if turns == [] then stop == TurnLimit && entries == [H.Spoke(Some(LIMIT_TEXT), [])] && hops == []
    else
      exists m: nat, n: nat :: Splits(entries, m, hops, n) &&
        if IsTurn(turns[0], entries[..m], hops[..n], Some(stop)) then m == |entries| && n == |hops|
        else IsTurn(turns[0], entries[..m], hops[..n], None) && IsRun(turns[1..], entries[m..], hops[n..], stop)
  }

  predicate Splits(entries: seq<H.Entry>, m: nat, hops: seq<Hop>, n: nat) { m <= |entries| && n <= |hops| }

  /** Turn by turn, a run records what the turn says, judges the hops of its calls, and goes on until a
      turn ends it: for the reason that the turn gives. */
  lemma {:induction false} RunGoesTurnByTurn(turns: seq<Turn>, reviewer: bool, denials: nat)
    ensures var o := Loop(turns, reviewer, denials); IsRun(turns, o.entries, o.hops, o.stop)
    decreases |turns|
  {
    if turns != [] {
      hide Take, IsTurn, IsRun;
      TakeIsTurn(turns[0], reviewer, denials);
      var taken, o := Take(turns[0], reviewer, denials), Loop(turns, reviewer, denials);
      var m, n := |taken.entries|, |taken.hops|;
      if taken.stop.None? {
        RunGoesTurnByTurn(turns[1..], reviewer, taken.denials);
        OneStop(turns[0], taken.entries, taken.hops, o.stop);
      }
      assert o.entries[..m] == taken.entries && o.hops[..n] == taken.hops;
      RunCons(turns, o, m, n, taken);
    } else {
      assert Loop(turns, reviewer, denials) == Outcome(TurnLimit, [H.Spoke(Some(LIMIT_TEXT), [])], []);
      NoTurns();
    }
  }

  lemma {:induction false} NoTurns()
    ensures IsRun([], [H.Spoke(Some(LIMIT_TEXT), [])], [], TurnLimit)
  {
  }

  lemma {:induction false} OneStop(t: Turn, entries: seq<H.Entry>, hops: seq<Hop>, stop: Stop)
    requires IsTurn(t, entries, hops, None)
    ensures !IsTurn(t, entries, hops, Some(stop))
  {
    hide Records, Reached, Blocked;
  }

  lemma {:induction false} RunCons(turns: seq<Turn>, o: Outcome, m: nat, n: nat, taken: Taken)
    requires turns != [] && m <= |o.entries| && n <= |o.hops|
    requires o.entries[..m] == taken.entries && o.hops[..n] == taken.hops
    requires IsTurn(turns[0], taken.entries, taken.hops, taken.stop)
    requires
      if taken.stop.Some? then taken.stop == Some(o.stop) && m == |o.entries| && n == |o.hops|
      else
        && !IsTurn(turns[0], taken.entries, taken.hops, Some(o.stop))
        && IsRun(turns[1..], o.entries[m..], o.hops[n..], o.stop)
    ensures IsRun(turns, o.entries, o.hops, o.stop)
  {
    hide IsTurn;
    assert Splits(o.entries, m, o.hops, n);
  }
}
