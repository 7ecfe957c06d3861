/** The tool loop of a run (`run_loop` with a permission preflight): who decides on each call,
    which calls are started, when the loop stops for the user, the reviewer's circuit breaker,
    and what the wrappers for unattended runs make of all this. Model replies, policy verdicts,
    reviews and tool results are arbitrary inputs. */
module ToolGate {
  import opened Text
  import H = History

  datatype Permission = Allow | AskUser | Deny | AutoReview

  /** What the reviewer would answer: an exception, or a decision and whether it is a denial. */
  datatype Review = Failure | Verdict(decision: Permission, denies: bool)

  /** What the tool would do: stopped by a cancellation before it starts, or run to an output. */
  datatype Execution = Execution(cancelled: bool, output: string, interrupts: bool)

  /** A call of one reply: `known` if the tool exists and is allowed to this agent; no `policy`
      verdict if the preflight raised. */
  datatype Offer = Offer(call: H.Call, known: bool, isRead: bool, policy: Option<Permission>, review: Review,
      run: Execution)

  datatype Turn =
    | CancelledFirst
    | ModelError(error: string)
    | Reply(text: Option<string>, calls: seq<Offer>, questionsValid: bool)

  const BREAKER: nat := 3

  // ----- one call's decision -----

  /** The final decision on a call, whether it was routed to the reviewer, whether the reviewer
      was really asked, and whether the outcome counts as its denial. */
  datatype Judged = Judged(final: Permission, routed: bool, asked: bool, denial: bool)

  function Judge(c: Offer, reviewer: bool, denials: nat): Judged {
    if !c.known || c.policy.None? then Judged(Deny, false, false, false)
    else if c.policy.value != AutoReview then Judged(c.policy.value, false, false, false)
    else if denials >= BREAKER then Judged(Deny, true, false, true)
    else if !reviewer then Judged(AskUser, true, false, false)
    else if c.review.Failure? || c.review.decision == AutoReview then Judged(AskUser, true, true, false)
    else Judged(c.review.decision, true, true, c.review.denies)
  }

  function Count(denials: nat, j: Judged): nat {
    if !j.routed then denials else if j.denial then denials + 1 else 0
  }

  function CountAll(denials: nat, js: seq<Judged>): nat
    decreases |js|
  {
    if js == [] then denials else CountAll(Count(denials, js[0]), js[1..])
  }

  function JudgeAll(calls: seq<Offer>, reviewer: bool, denials: nat): (js: seq<Judged>)
    ensures |js| == |calls|
    decreases |calls|
  {
    if calls == [] then []
    else
      var j := Judge(calls[0], reviewer, denials);
      [j] + JudgeAll(calls[1..], reviewer, Count(denials, j))
  }

  lemma {:induction false} JudgeStep(calls: seq<Offer>, reviewer: bool, denials: nat)
    requires calls != []
    ensures
      var j := Judge(calls[0], reviewer, denials);
      JudgeAll(calls, reviewer, denials) == [j] + JudgeAll(calls[1..], reviewer, Count(denials, j))
  {
  }

  lemma {:induction false} JudgeAt(calls: seq<Offer>, i: nat, reviewer: bool, denials: nat)
    requires i < |calls|
    ensures
      var j := Judge(calls[i], reviewer, denials);
      JudgeAll(calls[i..], reviewer, denials) == [j] + JudgeAll(calls[i + 1..], reviewer, Count(denials, j))
  {
    assert calls[i..][0] == calls[i] && calls[i..][1..] == calls[i + 1..];
    JudgeStep(calls[i..], reviewer, denials);
  }

  method JudgeHop(calls: seq<Offer>, reviewer: bool, denials0: nat) returns (js: seq<Judged>, denials: nat)
    ensures js == JudgeAll(calls, reviewer, denials0) && denials == CountAll(denials0, js)
  {
    js, denials := [], denials0;
    assert calls[0..] == calls;
    for i := 0 to |calls|
      invariant js + JudgeAll(calls[i..], reviewer, denials) == JudgeAll(calls, reviewer, denials0)
      invariant denials == CountAll(denials0, js)
    {
      var j := Judge(calls[i], reviewer, denials);
      JudgeAt(calls, i, reviewer, denials);
      hide Judge, JudgeAll, CountAll;
      CountSnoc(denials0, js, j);
      ghost var rest := JudgeAll(calls[i + 1..], reviewer, Count(denials, j));
      Assoc(js, [j], rest);
      if j.routed {
        denials := if j.denial then denials + 1 else 0;
      }
      js := js + [j];
    }
  }

  lemma {:induction false} CountSnoc(denials: nat, js: seq<Judged>, j: Judged)
    ensures CountAll(denials, js + [j]) == Count(CountAll(denials, js), j)
    decreases |js|
  {
    if js == [] {
      assert [j][1..] == [];
    } else {
      assert (js + [j])[1..] == js[1..] + [j];
      CountSnoc(Count(denials, js[0]), js[1..], j);
    }
  }

  // ----- executing a hop -----

  predicate StartsRead(c: Offer, j: Judged) { j.final == Allow && c.isRead }

  /** The allowed reads, which are started together before anything else. */
  function EarlyStarts(calls: seq<Offer>, js: seq<Judged>, k: nat): seq<nat>
    requires |js| == |calls| && k <= |calls|
    decreases |calls| - k
  {
    if k == |calls| then []
    else (if StartsRead(calls[k], js[k]) && !calls[k].run.cancelled then [k] else []) + EarlyStarts(calls, js, k + 1)
  }

  /** The read whose result is filed under this id: the last one, if ids repeat. */
  function ReadOf(calls: seq<Offer>, js: seq<Judged>, id: string, n: nat): (r: Option<nat>)
    requires |js| == |calls| && n <= |calls|
    ensures r.Some? ==> r.value < n && StartsRead(calls[r.value], js[r.value]) && calls[r.value].call.id == id
    ensures r.None? ==> forall k :: 0 <= k < n && StartsRead(calls[k], js[k]) ==> calls[k].call.id != id
  {
    if n == 0 then None
    else if StartsRead(calls[n - 1], js[n - 1]) && calls[n - 1].call.id == id then Some(n - 1)
    else ReadOf(calls, js, id, n - 1)
  }

  const DENIED_OUTPUT := "denied"
  const CANCELLED_OUTPUT := "cancelled"

  function OutputOf(c: Offer): string { if c.run.cancelled then CANCELLED_OUTPUT else c.run.output }

  predicate Interrupts(c: Offer) { c.run.cancelled || c.run.interrupts }

  /** The results recorded in order, the calls started on the way, and whether one ended the run. */
  datatype Pass = Pass(outputs: seq<string>, started: seq<nat>, interrupted: bool)

  function Work(calls: seq<Offer>, js: seq<Judged>, k: nat): (p: Pass)
    requires |js| == |calls| && k <= |calls|
    ensures |p.outputs| <= |calls| - k && (!p.interrupted ==> |p.outputs| == |calls| - k)
    decreases |calls| - k
  {
    if k == |calls| then Pass([], [], false)
    else if js[k].final == Deny then
      var rest := Work(calls, js, k + 1);
      rest.(outputs := [DENIED_OUTPUT] + rest.outputs)
    else
      var read := ReadOf(calls, js, calls[k].call.id, |calls|);
      var i := if read.Some? then read.value else k;
      var starts := if read.None? && !calls[k].run.cancelled then [k] else [];
      if Interrupts(calls[i]) then Pass([OutputOf(calls[i])], starts, true)
      else
        var rest := Work(calls, js, k + 1);
        Pass([OutputOf(calls[i])] + rest.outputs, starts + rest.started, rest.interrupted)
  }

  lemma {:induction false} EarlyStartsAre(calls: seq<Offer>, js: seq<Judged>, k: nat)
    requires |js| == |calls| && k <= |calls|
    ensures forall x :: x in EarlyStarts(calls, js, k) <==>
      k <= x < |calls| && StartsRead(calls[x], js[x]) && !calls[x].run.cancelled
    ensures NoRepeats(EarlyStarts(calls, js, k))
    decreases |calls| - k
  {
    if k < |calls| {
      EarlyStartsAre(calls, js, k + 1);
    }
  }

  /** The indices started in a hop, in the order in which they start. */
  function Starts(calls: seq<Offer>, js: seq<Judged>): seq<nat>
    requires |js| == |calls|
  {
    EarlyStarts(calls, js, 0) + Work(calls, js, 0).started
  }

  lemma {:induction false} WorkStarts(calls: seq<Offer>, js: seq<Judged>, k: nat)
    requires |js| == |calls| && k <= |calls| && forall x ::
      0 <= x < |js| ==> js[x].final == Allow || js[x].final == Deny
    ensures forall x :: x in Work(calls, js, k).started ==>
      k <= x < |calls| && js[x].final == Allow && !calls[x].isRead && !calls[x].run.cancelled
    ensures NoRepeats(Work(calls, js, k).started)
    decreases |calls| - k
  {
    if k < |calls| {
      WorkStarts(calls, js, k + 1);
      var rest := Work(calls, js, k + 1);
      var here := if js[k].final == Deny then []
        else if ReadOf(calls, js, calls[k].call.id, |calls|).None? && !calls[k].run.cancelled then [k] else [];
      assert Work(calls, js, k).started == here + rest.started || Work(calls, js, k).started == here;
    }
  }

  predicate Blocked(js: seq<Judged>) { exists k :: 0 <= k < |js| && js[k].final == AskUser }

  lemma {:induction false} JudgedIsFinal(calls: seq<Offer>, reviewer: bool, denials: nat)
    ensures forall k :: 0 <= k < |calls| ==> JudgeAll(calls, reviewer, denials)[k].final != AutoReview
  {
    if calls != [] {
      JudgedIsFinal(calls[1..], reviewer, Count(denials, Judge(calls[0], reviewer, denials)));
    }
  }

  /** A hop that is not blocked starts only what was allowed, each call once, reads first. */
  lemma {:induction false} StartsAreAllowed(calls: seq<Offer>, js: seq<Judged>)
    requires |js| == |calls| && !Blocked(js) && forall k :: 0 <= k < |js| ==> js[k].final != AutoReview
    ensures forall k :: k in Starts(calls, js) ==> k < |calls| && js[k].final == Allow
    ensures NoRepeats(Starts(calls, js))
  {
    EarlyStartsAre(calls, js, 0);
    WorkStarts(calls, js, 0);
    hide EarlyStarts, Work;
    var a, b := EarlyStarts(calls, js, 0), Work(calls, js, 0).started;
    assert forall i :: 0 <= i < |a| ==> a[i] in a;
    assert forall i :: 0 <= i < |b| ==> b[i] in b;
  }

  /** What the work on call `k` records and starts. */
  function OneOutput(calls: seq<Offer>, js: seq<Judged>, k: nat): string
    requires |js| == |calls| && k < |calls|
  {
    if js[k].final == Deny then DENIED_OUTPUT
    else
      var read := ReadOf(calls, js, calls[k].call.id, |calls|);
      OutputOf(calls[if read.Some? then read.value else k])
  }

  function OneStart(calls: seq<Offer>, js: seq<Judged>, k: nat): seq<nat>
    requires |js| == |calls| && k < |calls|
  {
    if js[k].final != Deny && ReadOf(calls, js, calls[k].call.id, |calls|).None? && !calls[k].run.cancelled
    then [k] else []
  }

  predicate OneInterrupts(calls: seq<Offer>, js: seq<Judged>, k: nat)
    requires |js| == |calls| && k < |calls|
  {
    js[k].final != Deny &&
    var read := ReadOf(calls, js, calls[k].call.id, |calls|);
    Interrupts(calls[if read.Some? then read.value else k])
  }

  lemma {:induction false} WorkStep(calls: seq<Offer>, js: seq<Judged>, k: nat)
    requires |js| == |calls| && k < |calls|
    ensures
      var p := Work(calls, js, k);
      var output, starts := [OneOutput(calls, js, k)], OneStart(calls, js, k);
      if OneInterrupts(calls, js, k) then p == Pass(output, starts, true)
      else
        var rest := Work(calls, js, k + 1);
        p == Pass(output + rest.outputs, starts + rest.started, rest.interrupted)
  {
    hide ReadOf;
    assert [] + Work(calls, js, k + 1).started == Work(calls, js, k + 1).started;
  }

  /** One call: its denial, the read's result filed under its id, or its own execution. */
  method WorkOn(calls: seq<Offer>, js: seq<Judged>, k: nat) returns (output: string, starts: seq<nat>, interrupts: bool)
    requires |js| == |calls| && k < |calls|
    ensures output == OneOutput(calls, js, k) && starts == OneStart(calls, js, k) &&
      interrupts == OneInterrupts(calls, js, k)
  {
    if js[k].final == Deny {
      return DENIED_OUTPUT, [], false;
    }
    var read := ReadOf(calls, js, calls[k].call.id, |calls|);
    var i := if read.Some? then read.value else k;
    starts := if read.None? && !calls[k].run.cancelled then [k] else [];
    output, interrupts := OutputOf(calls[i]), Interrupts(calls[i]);
  }

  method ExecuteHop(calls: seq<Offer>, js: seq<Judged>) returns (p: Pass)
    requires |js| == |calls|
    ensures p == Work(calls, js, 0).(started := Starts(calls, js))
  {
    var started := EarlyStarts(calls, js, 0);
    var outputs: seq<string> := [];
    var k: nat := 0;
    ghost var total := Work(calls, js, 0);
    ghost var before := started;
    assert Work(calls, js, |calls|) == Pass([], [], false);
    hide Work, EarlyStarts, OneOutput, OneStart, OneInterrupts;
    while k < |calls|
      invariant k <= |calls|
      invariant outputs + Work(calls, js, k).outputs == total.outputs
      invariant started + Work(calls, js, k).started == before + total.started
      invariant Work(calls, js, k).interrupted == total.interrupted
    {
      WorkStep(calls, js, k);
      ghost var rest := Work(calls, js, k + 1);
      Assoc(outputs, [OneOutput(calls, js, k)], rest.outputs);
      Assoc(started, OneStart(calls, js, k), rest.started);
      var output, starts, interrupts := WorkOn(calls, js, k);
      outputs, started := outputs + [output], started + starts;
      if interrupts {
        return Pass(outputs, started, true);
      }
      k := k + 1;
    }
    p := Pass(outputs, started, false);
  }

  // ----- the loop -----

  datatype Stop = EndTurn | Cancelled | Failed | Questions | Confirm | Interrupted | TurnLimit

  /** One judged hop and the calls started in it. */
  datatype Hop = Hop(calls: seq<Offer>, judged: seq<Judged>, started: seq<nat>)

  /** How the loop ended, what it recorded, and the hops it judged. */
  datatype Outcome = Outcome(stop: Stop, entries: seq<H.Entry>, hops: seq<Hop>)

  const ASK_USER := "ask_user"
  const LIMIT_TEXT := "turn limit"
  const QUESTIONS_ERROR := "invalid questions"

  function FirstAsk(calls: seq<Offer>): (r: Option<nat>)
    ensures r.Some? ==> r.value < |calls| && calls[r.value].call.name == ASK_USER
  {
    if calls == [] then None
    else if calls[0].call.name == ASK_USER then Some(0)
    else
      var rest := FirstAsk(calls[1..]);
      if rest.None? then None else Some(rest.value + 1)
  }

  /** The recorded hop: the first calls answered with these outputs. */
  function Answered(text: Option<string>, calls: seq<Offer>, outputs: seq<string>): H.Entry {
    H.Spoke(text, seq(|calls|, k requires 0 <= k < |calls| =>
      H.Asked(calls[k].call, if k < |outputs| then Some(outputs[k]) else None)))
  }

  function AnsweredAt(text: Option<string>, calls: seq<Offer>, at: nat): H.Entry {
    H.Spoke(text, seq(|calls|, k requires 0 <= k < |calls| =>
      H.Asked(calls[k].call, if k == at then Some(QUESTIONS_ERROR) else None)))
  }

  function TextOr(text: Option<string>): string { if text.None? then "" else text.value }

  /** What one turn does: it ends the loop, or leaves the count of denials for the next. */
  datatype Taken = Taken(stop: Option<Stop>, entries: seq<H.Entry>, hops: seq<Hop>, denials: nat)

  function Take(t: Turn, reviewer: bool, denials: nat): Taken {
    match t
    case CancelledFirst => Taken(Some(Cancelled), [], [], denials)
    case ModelError(error) => Taken(Some(Failed), [H.Spoke(Some(error), [])], [], denials)
    case Reply(text, calls, questionsValid) =>
      if calls == [] then Taken(Some(EndTurn), [H.Spoke(Some(TextOr(text)), [])], [], denials)
      else if FirstAsk(calls).Some? then
        if questionsValid then Taken(Some(Questions), [Answered(text, calls, [])], [], denials)
        else Taken(None, [AnsweredAt(text, calls, FirstAsk(calls).value)], [], denials)
      else
        var js := JudgeAll(calls, reviewer, denials);
        if Blocked(js) then
          Taken(Some(Confirm), [Answered(text, calls, [])], [Hop(calls, js, [])], CountAll(denials, js))
        else
          var p := Work(calls, js, 0);
          Taken(if p.interrupted then Some(Interrupted) else None, [Answered(text, calls, p.outputs)],
                [Hop(calls, js, Starts(calls, js))], CountAll(denials, js))
  }

  /** The loop over at most as many turns as there are replies. */
  function Loop(turns: seq<Turn>, reviewer: bool, denials: nat): Outcome
    decreases |turns|
  {
    if turns == [] then Outcome(TurnLimit, [H.Spoke(Some(LIMIT_TEXT), [])], [])
    else
      var taken := Take(turns[0], reviewer, denials);
      if taken.stop.Some? then Outcome(taken.stop.value, taken.entries, taken.hops)
      else
        var rest := Loop(turns[1..], reviewer, taken.denials);
        Outcome(rest.stop, taken.entries + rest.entries, taken.hops + rest.hops)
  }

  function RunOf(userText: string, turns: seq<Turn>, reviewer: bool): Outcome {
    var o := Loop(turns, reviewer, 0);
    o.(entries := [H.Said(userText)] + o.entries)
  }

  method TakeTurn(t: Turn, reviewer: bool, denials0: nat) returns (taken: Taken)
    ensures taken == Take(t, reviewer, denials0)
  {
    hide Starts, Work, JudgeAll, CountAll, FirstAsk;
    match t {
      case CancelledFirst => taken := Taken(Some(Cancelled), [], [], denials0);
      case ModelError(error) => taken := Taken(Some(Failed), [H.Spoke(Some(error), [])], [], denials0);
      case Reply(text, calls, questionsValid) =>
        if calls == [] {
          return Taken(Some(EndTurn), [H.Spoke(Some(TextOr(text)), [])], [], denials0);
        }
        var ask := FirstAsk(calls);
        if ask.Some? {
          if questionsValid {
            return Taken(Some(Questions), [Answered(text, calls, [])], [], denials0);
          }
          return Taken(None, [AnsweredAt(text, calls, ask.value)], [], denials0);
        }
        var js, denials := JudgeHop(calls, reviewer, denials0);
        if Blocked(js) {
          return Taken(Some(Confirm), [Answered(text, calls, [])], [Hop(calls, js, [])], denials);
        }
        var p := ExecuteHop(calls, js);
        taken := Taken(if p.interrupted then Some(Interrupted) else None, [Answered(text, calls, p.outputs)],
                       [Hop(calls, js, p.started)], denials);
    }
  }

  method RunLoop(userText: string, turns: seq<Turn>, reviewer: bool) returns (o: Outcome)
    ensures o == RunOf(userText, turns, reviewer)
  {
    var entries, hops, denials := [H.Said(userText)], [], 0;
    ghost var total := RunOf(userText, turns, reviewer);
    assert turns[0..] == turns;
    for i := 0 to |turns|
      invariant entries + Loop(turns[i..], reviewer, denials).entries == total.entries
      invariant hops + Loop(turns[i..], reviewer, denials).hops == total.hops
      invariant Loop(turns[i..], reviewer, denials).stop == total.stop
    {
      assert turns[i..][0] == turns[i] && turns[i..][1..] == turns[i + 1..];
      hide Take;
      var taken := TakeTurn(turns[i], reviewer, denials);
      ghost var rest := Loop(turns[i + 1..], reviewer, taken.denials);
      Assoc(entries, taken.entries, rest.entries);
      Assoc(hops, taken.hops, rest.hops);
      entries, hops, denials := entries + taken.entries, hops + taken.hops, taken.denials;
      if taken.stop.Some? {
        return Outcome(taken.stop.value, entries, hops);
      }
    }
    o := Outcome(TurnLimit, entries + [H.Spoke(Some(LIMIT_TEXT), [])], hops);
  }

  // ----- the gate and the barrier -----

  /** Only calls that were finally allowed start, each at most once, and none in a hop that needs
      the user. */
  predicate Gated(h: Hop) {
    && |h.judged| == |h.calls|
    && (forall k :: k in h.started ==> k < |h.calls| && h.judged[k].final == Allow)
    && NoRepeats(h.started)
    && (Blocked(h.judged) ==> h.started == [])
  }

  predicate AllGated(hops: seq<Hop>) { forall i :: 0 <= i < |hops| ==> Gated(hops[i]) }

  predicate AnyBlocked(hops: seq<Hop>) { exists i :: 0 <= i < |hops| && Blocked(hops[i].judged) }

  lemma {:induction false} GatedConcat(a: seq<Hop>, b: seq<Hop>)
    ensures AllGated(a + b) <==> AllGated(a) && AllGated(b)
    ensures AnyBlocked(a + b) <==> AnyBlocked(a) || AnyBlocked(b)
  {
    hide Gated, Blocked;
    assert forall i :: 0 <= i < |a| ==> (a + b)[i] == a[i];
    assert forall i :: 0 <= i < |b| ==> (a + b)[|a| + i] == b[i];
  }

  lemma {:induction false} TakeIsGated(t: Turn, reviewer: bool, denials: nat)
    ensures AllGated(Take(t, reviewer, denials).hops)
    ensures Take(t, reviewer, denials).stop == Some(Confirm) <==> AnyBlocked(Take(t, reviewer, denials).hops)
  {
    if t.Reply? && t.calls != [] && FirstAsk(t.calls).None? {
      var js := JudgeAll(t.calls, reviewer, denials);
      JudgedIsFinal(t.calls, reviewer, denials);
      var taken := Take(t, reviewer, denials);
      assert taken.hops[0].judged == js;
      if !Blocked(js) { StartsAreAllowed(t.calls, js); }
    }
    hide Starts, Work, JudgeAll, CountAll, FirstAsk, Blocked;
  }

  /** Over a whole run: every hop is gated, and the run stops for the user exactly when some hop
      needs the user. */
  lemma {:induction false} RunIsGated(turns: seq<Turn>, reviewer: bool, denials: nat)
    ensures
      var o := Loop(turns, reviewer, denials);
      AllGated(o.hops) && (o.stop == Confirm <==> AnyBlocked(o.hops))
    decreases |turns|
  {
    if turns != [] {
      var taken := Take(turns[0], reviewer, denials);
      TakeIsGated(turns[0], reviewer, denials);
      hide Take, AllGated, AnyBlocked;
      if taken.stop.None? {
        RunIsGated(turns[1..], reviewer, taken.denials);
        GatedConcat(taken.hops, Loop(turns[1..], reviewer, taken.denials).hops);
      }
    }
  }

  /** The policy allows the call, or leaves it to the reviewer, who is there and allows it. */
  predicate Permitted(c: Offer, reviewer: bool) {
    c.known &&
    (c.policy == Some(Allow) ||
      (c.policy == Some(AutoReview) && reviewer && c.review.Verdict? && c.review.decision == Allow))
  }

  predicate AllPermitted(hops: seq<Hop>, reviewer: bool) {
    forall i, k :: 0 <= i < |hops| && k in hops[i].started ==>
      k < |hops[i].calls| && Permitted(hops[i].calls[k], reviewer)
  }

  lemma {:induction false} JudgedPermits(calls: seq<Offer>, reviewer: bool, denials: nat)
    ensures forall k :: 0 <= k < |calls| && JudgeAll(calls, reviewer, denials)[k].final == Allow ==>
      Permitted(calls[k], reviewer)
    decreases |calls|
  {
    if calls != [] {
      JudgedPermits(calls[1..], reviewer, Count(denials, Judge(calls[0], reviewer, denials)));
    }
  }

  /** Over a whole run: whatever is started was permitted by the policy or by the reviewer. */
  lemma {:induction false} RunIsPermitted(turns: seq<Turn>, reviewer: bool, denials: nat)
    ensures AllPermitted(Loop(turns, reviewer, denials).hops, reviewer)
    decreases |turns|
  {
    if turns != [] {
      var t, taken := turns[0], Take(turns[0], reviewer, denials);
      TakeIsPermitted(t, reviewer, denials);
      hide Take, Permitted;
      if taken.stop.None? {
        RunIsPermitted(turns[1..], reviewer, taken.denials);
        PermittedConcat(taken.hops, Loop(turns[1..], reviewer, taken.denials).hops, reviewer);
      }
    }
  }

  lemma {:induction false} TakeIsPermitted(t: Turn, reviewer: bool, denials: nat)
    ensures AllPermitted(Take(t, reviewer, denials).hops, reviewer)
  {
    TakeIsGated(t, reviewer, denials);
    if t.Reply? { JudgedPermits(t.calls, reviewer, denials); }
    hide Starts, Work, JudgeAll, CountAll, FirstAsk, Blocked, Permitted;
  }

  lemma {:induction false} PermittedConcat(a: seq<Hop>, b: seq<Hop>, reviewer: bool)
    requires AllPermitted(a, reviewer) && AllPermitted(b, reviewer)
    ensures AllPermitted(a + b, reviewer)
  {
    hide Permitted;
  }

  // ----- the circuit breaker -----

  /** All judgements of a run, in order. */
  function AllJudged(hops: seq<Hop>): seq<Judged> {
    if hops == [] then [] else hops[0].judged + AllJudged(hops[1..])
  }

  /** Three routed calls were refused by the reviewer one after the other before position `n`. */
  predicate ThreeInARow(js: seq<Judged>, n: nat)
    requires n <= |js|
  {
    exists i, j, k :: 0 <= i < j < k < n && RefusedAt(js, i) && RefusedAt(js, j) && RefusedAt(js, k) &&
      forall m :: i < m < k && js[m].routed ==> RefusedAt(js, m)
  }

  predicate RefusedAt(js: seq<Judged>, i: nat)
    requires i < |js|
  {
    js[i].routed && js[i].denial
  }

  /** Each judgement is the one the count so far calls for. */
  predicate Counted(js: seq<Judged>, denials: nat)
    decreases |js|
  {
    js == [] ||
    ((denials >= BREAKER && js[0].routed ==> !js[0].asked && js[0].final == Deny && js[0].denial) &&
     Counted(js[1..], Count(denials, js[0])))
  }

  lemma {:induction false} JudgeAllCounted(calls: seq<Offer>, reviewer: bool, denials: nat)
    ensures Counted(JudgeAll(calls, reviewer, denials), denials)
    decreases |calls|
  {
    if calls != [] {
      JudgeAllCounted(calls[1..], reviewer, Count(denials, Judge(calls[0], reviewer, denials)));
    }
  }

  lemma {:induction false} CountedConcat(a: seq<Judged>, b: seq<Judged>, denials: nat)
    requires Counted(a, denials) && Counted(b, CountAll(denials, a))
    ensures Counted(a + b, denials) && CountAll(denials, a + b) == CountAll(CountAll(denials, a), b)
    decreases |a|
  {
    if a == [] {
      assert a + b == b;
    } else {
      assert (a + b)[1..] == a[1..] + b;
      CountedConcat(a[1..], b, Count(denials, a[0]));
    }
  }

  lemma {:induction false} LoopCounted(turns: seq<Turn>, reviewer: bool, denials: nat)
    ensures Counted(AllJudged(Loop(turns, reviewer, denials).hops), denials)
    decreases |turns|
  {
    if turns != [] {
      var t, taken := turns[0], Take(turns[0], reviewer, denials);
      if t.Reply? { JudgeAllCounted(t.calls, reviewer, denials); }
      TakenJudged(t, reviewer, denials);
      hide Take, JudgeAll, Counted, CountAll;
      if taken.stop.None? {
        LoopCounted(turns[1..], reviewer, taken.denials);
        var rest := Loop(turns[1..], reviewer, taken.denials);
        if taken.hops != [] {
          assert (taken.hops + rest.hops)[1..] == rest.hops;
          CountedConcat(AllJudged(taken.hops), AllJudged(rest.hops), denials);
        } else {
          assert taken.hops + rest.hops == rest.hops;
        }
      }
    }
  }

  lemma {:induction false} TakenJudged(t: Turn, reviewer: bool, denials: nat)
    ensures
      var taken := Take(t, reviewer, denials);
      |taken.hops| <= 1 && taken.denials == CountAll(denials, AllJudged(taken.hops)) &&
      Counted(AllJudged(taken.hops), denials) &&
      (taken.hops != [] ==> AllJudged(taken.hops) == taken.hops[0].judged)
  {
    if t.Reply? {
      JudgeAllCounted(t.calls, reviewer, denials);
      hide JudgeAll, Work, Starts, FirstAsk;
      var js := JudgeAll(t.calls, reviewer, denials);
      assert js + [] == js;
      assert forall h: Hop :: [h][1..] == [];
    }
  }

  lemma {:induction false} CountAt(js: seq<Judged>, denials: nat, n: nat)
    requires n < |js|
    ensures CountAll(denials, js[..n + 1]) == Count(CountAll(denials, js[..n]), js[n])
  {
    assert js[..n + 1] == js[..n] + [js[n]];
    CountSnoc(denials, js[..n], js[n]);
  }

  lemma {:induction false} CountedAt(js: seq<Judged>, denials: nat, n: nat)
    requires Counted(js, denials) && n < |js| && CountAll(denials, js[..n]) >= BREAKER
    ensures js[n].routed ==> !js[n].asked && js[n].final == Deny && js[n].denial
    decreases n
  {
    if n > 0 {
      assert js[..n][1..] == js[1..][..n - 1] && js[1..][n - 1] == js[n];
      CountedAt(js[1..], Count(denials, js[0]), n - 1);
    }
  }

  lemma {:induction false} StaysTripped(js: seq<Judged>, denials: nat, n: nat, m: nat)
    requires Counted(js, denials) && n <= m <= |js| && CountAll(denials, js[..n]) >= BREAKER
    ensures CountAll(denials, js[..m]) >= BREAKER
    decreases m - n
  {
    if n < m {
      CountedAt(js, denials, n);
      CountAt(js, denials, n);
      StaysTripped(js, denials, n + 1, m);
    }
  }

  lemma {:induction false} RefusalsAddUp(js: seq<Judged>, denials: nat, n: nat, m: nat)
    requires n <= m <= |js| && forall x :: n <= x < m && js[x].routed ==> RefusedAt(js, x)
    ensures CountAll(denials, js[..m]) >= CountAll(denials, js[..n])
    decreases m - n
  {
    if n < m {
      CountAt(js, denials, n);
      RefusalsAddUp(js, denials, n + 1, m);
    }
  }

  /** After three consecutive reviewer denials no later call of the run reaches the reviewer, and
      every call routed to it is denied. */
  lemma {:induction false} BreakerHolds(turns: seq<Turn>, reviewer: bool, n: nat)
    requires n < |AllJudged(Loop(turns, reviewer, 0).hops)| && ThreeInARow(AllJudged(Loop(turns, reviewer, 0).hops), n)
    ensures
      var j := AllJudged(Loop(turns, reviewer, 0).hops)[n];
      !j.asked && (j.routed ==> j.final == Deny)
  {
    hide ThreeInARow, Counted;
    LoopCounted(turns, reviewer, 0);
    AskedIsRouted(turns, reviewer, 0);
    BreakerAt(AllJudged(Loop(turns, reviewer, 0).hops), n);
  }

  lemma {:induction false} BreakerAt(js: seq<Judged>, n: nat)
    requires Counted(js, 0) && n < |js| && ThreeInARow(js, n)
    ensures js[n].routed ==> !js[n].asked && js[n].final == Deny
  {
    hide CountAll, Counted;
    var i, j, k :| 0 <= i < j < k < n && RefusedAt(js, i) && RefusedAt(js, j) && RefusedAt(js, k) &&
      forall m :: i < m < k && js[m].routed ==> RefusedAt(js, m);
    ThreeTrip(js, i, j, k);
    StaysTripped(js, 0, k + 1, n);
    CountedAt(js, 0, n);
  }

  lemma {:induction false} ThreeTrip(js: seq<Judged>, i: nat, j: nat, k: nat)
    requires i < j < k < |js| && RefusedAt(js, i) && RefusedAt(js, j) && RefusedAt(js, k)
    requires forall m :: i < m < k && js[m].routed ==> RefusedAt(js, m)
    ensures CountAll(0, js[..k + 1]) >= BREAKER
  {
    hide CountAll;
    CountAt(js, 0, i);
    RefusalsAddUp(js, 0, i + 1, j);
    CountAt(js, 0, j);
    RefusalsAddUp(js, 0, j + 1, k);
    CountAt(js, 0, k);
  }

  lemma {:induction false} FirstJudged(a: seq<Hop>, b: seq<Hop>)
    requires |a| <= 1
    ensures AllJudged(a + b) == AllJudged(a) + AllJudged(b)
  {
    if a == [] {
      assert a + b == b;
    } else {
      assert (a + b)[1..] == b && a[1..] == [];
    }
  }

  predicate AskedRouted(js: seq<Judged>) { forall k :: 0 <= k < |js| && js[k].asked ==> js[k].routed }

  lemma {:induction false} TakenIsRouted(t: Turn, reviewer: bool, denials: nat)
    ensures AskedRouted(AllJudged(Take(t, reviewer, denials).hops)) && |Take(t, reviewer, denials).hops| <= 1
  {
    TakenJudged(t, reviewer, denials);
    if t.Reply? { JudgeAllAsked(t.calls, reviewer, denials); }
    hide JudgeAll, CountAll, Work, FirstAsk, Starts, Blocked, Answered;
  }

  lemma {:induction false} AskedIsRouted(turns: seq<Turn>, reviewer: bool, denials: nat)
    ensures AskedRouted(AllJudged(Loop(turns, reviewer, denials).hops))
    decreases |turns|
  {
    if turns != [] {
      hide Take, AllJudged;
      TakenIsRouted(turns[0], reviewer, denials);
      var taken := Take(turns[0], reviewer, denials);
      if taken.stop.None? {
        AskedIsRouted(turns[1..], reviewer, taken.denials);
        FirstJudged(taken.hops, Loop(turns[1..], reviewer, taken.denials).hops);
      }
    } else {
      assert AllJudged([]) == [];
    }
  }

  lemma {:induction false} JudgeAllAsked(calls: seq<Offer>, reviewer: bool, denials: nat)
    ensures forall k :: 0 <= k < |calls| && JudgeAll(calls, reviewer, denials)[k].asked ==>
      JudgeAll(calls, reviewer, denials)[k].routed
    decreases |calls|
  {
    if calls != [] {
      JudgeAllAsked(calls[1..], reviewer, Count(denials, Judge(calls[0], reviewer, denials)));
    }
  }

  // ----- unattended runs -----

  function UnattendedPolicy(policy: Option<Permission>): Option<Permission> {
    if policy == Some(AskUser) then Some(Deny) else policy
  }

  /** The parent's reviewer, if there is one, with everything but a clear answer turned into no. */
  function UnattendedReview(review: Review, available: bool): Review {
    if !available || review.Failure? then Verdict(Deny, false)
    else if review.decision == AskUser || review.decision == AutoReview then Verdict(Deny, review.denies)
    else review
  }

  function Wrap(c: Offer, available: bool): Offer {
    c.(policy := UnattendedPolicy(c.policy), review := UnattendedReview(c.review, available))
  }

  function WrapTurn(t: Turn, available: bool): Turn {
    if t.Reply? then t.(calls := seq(|t.calls|, k requires 0 <= k < |t.calls| => Wrap(t.calls[k], available))) else t
  }

  function WrapAll(turns: seq<Turn>, available: bool): (r: seq<Turn>)
    ensures |r| == |turns|
  {
    seq(|turns|, k requires 0 <= k < |turns| => WrapTurn(turns[k], available))
  }

  /** The wrapped policy and reviewer permit exactly what the parent run permits by itself. */
  lemma {:induction false} WrappingOnlyNarrows(c: Offer, available: bool)
    ensures Permitted(Wrap(c, available), true) <==> Permitted(c, available)
  {
  }

  predicate Unasking(c: Offer) {
    c.policy != Some(AskUser) && c.review.Verdict? && c.review.decision != AskUser && c.review.decision != AutoReview
  }

  lemma {:induction false} UnaskingHop(calls: seq<Offer>, denials: nat)
    requires forall k :: 0 <= k < |calls| ==> Unasking(calls[k])
    ensures !Blocked(JudgeAll(calls, true, denials))
    decreases |calls|
  {
    if calls != [] {
      UnaskingHop(calls[1..], Count(denials, Judge(calls[0], true, denials)));
    }
  }

  predicate UnaskingTurn(t: Turn) { t.Reply? ==> forall k :: 0 <= k < |t.calls| ==> Unasking(t.calls[k]) }

  lemma {:induction false} UnaskingRun(turns: seq<Turn>, denials: nat)
    requires forall i :: 0 <= i < |turns| ==> UnaskingTurn(turns[i])
    ensures Loop(turns, true, denials).stop != Confirm
    decreases |turns|
  {
    if turns != [] {
      var t, taken := turns[0], Take(turns[0], true, denials);
      if t.Reply? { UnaskingHop(t.calls, denials); }
      hide JudgeAll, Work, Starts, FirstAsk, Blocked, CountAll;
      if taken.stop.None? {
        UnaskingRun(turns[1..], taken.denials);
      }
    }
  }

  /** The hop is the calls of one of the turns. */
  predicate FromTurn(turns: seq<Turn>, h: Hop) {
    exists i :: 0 <= i < |turns| && turns[i].Reply? && turns[i].calls == h.calls
  }

  lemma {:induction false} HopsAreTurns(turns: seq<Turn>, reviewer: bool, denials: nat)
    ensures forall h :: h in Loop(turns, reviewer, denials).hops ==> FromTurn(turns, h)
    decreases |turns|
  {
    if turns != [] {
      var taken := Take(turns[0], reviewer, denials);
      assert forall h :: h in taken.hops ==> turns[0].Reply? && turns[0].calls == h.calls;
      hide Take;
      if taken.stop.None? {
        var rest := Loop(turns[1..], reviewer, taken.denials).hops;
        HopsAreTurns(turns[1..], reviewer, taken.denials);
        forall h | h in rest ensures FromTurn(turns, h) {
          var i :| 0 <= i < |turns[1..]| && turns[1..][i].Reply? && turns[1..][i].calls == h.calls;
          assert turns[i + 1] == turns[1..][i];
        }
      }
    }
  }

  /** The started calls are calls of the parent's own turns, wrapped, that the parent's policy
      allows, or leaves to its reviewer, who is there and allows them. */
  predicate ParentPermits(turns: seq<Turn>, available: bool, h: Hop) {
    exists i :: 0 <= i < |turns| && turns[i].Reply? && |h.calls| == |turns[i].calls| &&
      forall k :: k in h.started ==>
        k < |h.calls| && h.calls[k] == Wrap(turns[i].calls[k], available) && Permitted(turns[i].calls[k], available)
  }

  lemma {:induction false} WrappedIsUnasking(t: Turn, available: bool)
    ensures UnaskingTurn(WrapTurn(t, available))
  {
    if t.Reply? {
      forall k | 0 <= k < |t.calls| ensures Unasking(Wrap(t.calls[k], available)) {
      }
    }
  }

  lemma {:induction false} HopIsPermitted(turns: seq<Turn>, available: bool, hops: seq<Hop>, j: nat)
    requires j < |hops| && AllPermitted(hops, true) && FromTurn(WrapAll(turns, available), hops[j])
    ensures ParentPermits(turns, available, hops[j])
  {
    var h, wrapped := hops[j], WrapAll(turns, available);
    var i :| 0 <= i < |wrapped| && wrapped[i].Reply? && wrapped[i].calls == h.calls;
    forall k | k in h.started ensures k < |h.calls| && Permitted(turns[i].calls[k], available) {
      assert Permitted(h.calls[k], true);
      WrappingOnlyNarrows(turns[i].calls[k], available);
    }
    hide Permitted, Wrap;
  }

  /** With the wrappers the loop never stops for a confirmation, and starts only calls that the
      parent's policy, or the parent's reviewer where the policy asks it, lets through. */
  lemma {:induction false} UnattendedNeverConfirms(turns: seq<Turn>, available: bool, denials: nat)
    ensures
      var o := Loop(WrapAll(turns, available), true, denials);
      o.stop != Confirm && forall h :: h in o.hops ==> ParentPermits(turns, available, h)
  {
    var wrapped := WrapAll(turns, available);
    forall i | 0 <= i < |wrapped| ensures UnaskingTurn(wrapped[i]) { WrappedIsUnasking(turns[i], available); }
    UnaskingRun(wrapped, denials);
    RunIsPermitted(wrapped, true, denials);
    HopsAreTurns(wrapped, true, denials);
    hide Loop, WrapAll, ParentPermits;
    var hops := Loop(wrapped, true, denials).hops;
    forall h | h in hops ensures ParentPermits(turns, available, h) {
      var j :| 0 <= j < |hops| && hops[j] == h;
      HopIsPermitted(turns, available, hops, j);
    }
  }

  // ----- what comes back to the next run -----

  predicate AllAnswered(e: H.Entry) {
    e.Spoke? ==> forall k :: 0 <= k < |e.asked| ==> e.asked[k].output.Some?
  }

  predicate NoneAnswered(e: H.Entry) {
    e.Spoke? && e.asked != [] && forall k :: 0 <= k < |e.asked| ==> e.asked[k].output.None?
  }

  /** An invalid question among other calls: it is answered, they are not. */
  predicate DropsCalls(t: Turn) {
    t.Reply? && FirstAsk(t.calls).Some? && !t.questionsValid && |t.calls| > 1
  }

  /** The calls of an interrupted hop are answered up to the one that interrupts it. */
  predicate AnsweredUpTo(e: H.Entry, n: nat) {
    e.Spoke? && 0 < n <= |e.asked| && forall k :: 0 <= k < |e.asked| ==> (e.asked[k].output.Some? <==> k < n)
  }

  ghost predicate CutShort(e: H.Entry) { exists n: nat :: AnsweredUpTo(e, n) }

  /** What is left unanswered: all of the last hop if the run stops for the user, what is behind the
      interrupting call if it is interrupted, and else nothing, if no question drops its companions. */
  ghost predicate Leaves(stop: Option<Stop>, entries: seq<H.Entry>, drops: bool) {
    match stop
    case Some(Confirm) => entries != [] && NoneAnswered(entries[|entries| - 1])
    case Some(Questions) => entries != [] && NoneAnswered(entries[|entries| - 1])
    case Some(Interrupted) => entries != [] && CutShort(entries[|entries| - 1])
    case _ => !drops ==> forall k :: 0 <= k < |entries| ==> AllAnswered(entries[k])
  }

  lemma {:induction false} WorkAnswers(calls: seq<Offer>, js: seq<Judged>, k: nat)
    requires |js| == |calls| && k <= |calls|
    ensures Work(calls, js, k).interrupted ==> Work(calls, js, k).outputs != []
    decreases |calls| - k
  {
    if k < |calls| { WorkAnswers(calls, js, k + 1); }
  }

  lemma {:induction false} OneAnswered(text: Option<string>, calls: seq<Offer>, at: nat)
    requires at < |calls|
    ensures AllAnswered(AnsweredAt(text, calls, at)) <==> |calls| == 1
  {
    var e := AnsweredAt(text, calls, at);
    if |calls| > 1 {
      var other := if at == 0 then 1 else 0;
      assert e.asked[other].output.None?;
    }
  }

  lemma {:induction false} HopAnswers(text: Option<string>, calls: seq<Offer>, js: seq<Judged>)
    requires |js| == |calls| > 0
    ensures NoneAnswered(Answered(text, calls, []))
    ensures
      var p := Work(calls, js, 0);
      if p.interrupted then CutShort(Answered(text, calls, p.outputs))
        else AllAnswered(Answered(text, calls, p.outputs))
  {
    WorkAnswers(calls, js, 0);
    var p := Work(calls, js, 0);
    hide Work;
    if p.interrupted { assert AnsweredUpTo(Answered(text, calls, p.outputs), |p.outputs|); }
  }

  lemma {:induction false} TakeAnswers(t: Turn, reviewer: bool, denials: nat)
    ensures Leaves(Take(t, reviewer, denials).stop, Take(t, reviewer, denials).entries, DropsCalls(t))
  {
    if t.Reply? && t.calls != [] {
      if FirstAsk(t.calls).Some? { OneAnswered(t.text, t.calls, FirstAsk(t.calls).value); }
      HopAnswers(t.text, t.calls, JudgeAll(t.calls, reviewer, denials));
    }
    hide Work, JudgeAll, CountAll, FirstAsk, Starts, Blocked, Answered, AnsweredAt, NoneAnswered, CutShort;
  }

  lemma {:induction false} LeavesMore(stop: Stop, entries: seq<H.Entry>, more: seq<H.Entry>, drops: bool)
    requires Leaves(None, entries, drops) && Leaves(Some(stop), more, drops)
    ensures Leaves(Some(stop), entries + more, drops)
  {
    hide NoneAnswered, CutShort, AllAnswered;
  }

  lemma {:induction false} RunAnswers(turns: seq<Turn>, reviewer: bool, denials: nat)
    ensures
      var o := Loop(turns, reviewer, denials);
      Leaves(Some(o.stop), o.entries, exists t :: t in turns && DropsCalls(t))
    decreases |turns|
  {
    if turns != [] {
      TakeAnswers(turns[0], reviewer, denials);
      var taken := Take(turns[0], reviewer, denials);
      assert forall t :: t in turns <==> t == turns[0] || t in turns[1..];
      hide Take, AllAnswered, NoneAnswered, DropsCalls, CutShort;
      if taken.stop.None? {
        RunAnswers(turns[1..], reviewer, taken.denials);
        var rest := Loop(turns[1..], reviewer, taken.denials);
        LeavesMore(rest.stop, taken.entries, rest.entries, exists t :: t in turns && DropsCalls(t));
      }
    }
  }

  /** A reply with usable calls, tools that answer something, and a text where there is no call. */
  predicate Speaks(t: Turn) {
    match t
    case CancelledFirst => true
    case ModelError(error) => !H.NoText(Some(error))
    case Reply(text, calls, _) =>
      && (calls == [] ==> !H.NoText(Some(TextOr(text))))
      && forall k :: 0 <= k < |calls| ==>
           calls[k].call.id != "" && calls[k].call.name != "" && calls[k].call.args != "" && calls[k].run.output != ""
  }

  lemma {:induction false} WorkSpeaks(calls: seq<Offer>, js: seq<Judged>, k: nat)
    requires |js| == |calls| && k <= |calls| && forall x :: 0 <= x < |calls| ==> calls[x].run.output != ""
    ensures forall x :: 0 <= x < |Work(calls, js, k).outputs| ==> Work(calls, js, k).outputs[x] != ""
    decreases |calls| - k
  {
    if k < |calls| { WorkSpeaks(calls, js, k + 1); }
  }

  lemma {:induction false} TakeSpeaks(t: Turn, reviewer: bool, denials: nat)
    requires Speaks(t)
    ensures forall e :: e in Take(t, reviewer, denials).entries && AllAnswered(e) ==> H.Complete(e)
  {
    if t.Reply? && t.calls != [] && FirstAsk(t.calls).None? {
      WorkSpeaks(t.calls, JudgeAll(t.calls, reviewer, denials), 0);
    }
    hide Work, JudgeAll, CountAll, FirstAsk, Starts;
  }

  lemma {:induction false} RunSpeaks(turns: seq<Turn>, reviewer: bool, denials: nat)
    requires forall t :: t in turns ==> Speaks(t)
    ensures forall e :: e in Loop(turns, reviewer, denials).entries && AllAnswered(e) ==> H.Complete(e)
    decreases |turns|
  {
    if turns == [] {
      assert !IsSpace(LIMIT_TEXT[0]);
      InkOfText(LIMIT_TEXT);
    } else {
      TakeSpeaks(turns[0], reviewer, denials);
      var taken := Take(turns[0], reviewer, denials);
      assert forall t :: t in turns[1..] ==> t in turns;
      hide Take, AllAnswered, Speaks, H.Complete;
      if taken.stop.None? { RunSpeaks(turns[1..], reviewer, taken.denials); }
    }
  }

  lemma {:induction false} InkOfText(s: string)
    requires s != [] && !IsSpace(s[0])
    ensures !H.NoText(Some(s))
  {
    StripFacts(s);
  }

  /** The run stopped by itself, and dropped no call beside an invalid question. */
  predicate AnswersAll(stop: Stop, turns: seq<Turn>) {
    stop != Confirm && stop != Questions && stop != Interrupted && forall t :: t in turns ==> !DropsCalls(t)
  }

  /** What a run recorded comes back to the next one without its unanswered calls, as a legal
      history; and word for word if the run answered all calls and everybody said something. */
  lemma {:induction false} RunComesBack(userText: string, turns: seq<Turn>, reviewer: bool, start: nat)
    ensures
      var o := RunOf(userText, turns, reviewer);
      var back := H.Rebuild(H.RowsOf(H.Flatten(o.entries), start));
      && back == H.KeptEntries(o.entries) && H.Legal(back)
      && (AnswersAll(o.stop, turns) ==> forall k :: 0 <= k < |o.entries| ==> AllAnswered(o.entries[k]))
      && (AnswersAll(o.stop, turns) && (forall t :: t in turns ==> Speaks(t)) ==>
            back == H.LiveOf(H.Flatten(o.entries)))
  {
    var o := RunOf(userText, turns, reviewer);
    H.RoundTrip(o.entries, start);
    H.RebuildIsLegal(H.RowsOf(H.Flatten(o.entries), start));
    hide Loop, H.Rebuild, H.KeptEntries, H.Legal, H.Flatten, H.RowsOf, H.LiveOf, Speaks, H.Complete;
    if AnswersAll(o.stop, turns) {
      RunAnswers(turns, reviewer, 0);
      hide DropsCalls;
      assert forall k :: 0 < k < |o.entries| ==> o.entries[k] == Loop(turns, reviewer, 0).entries[k - 1];
      assert forall k :: 0 <= k < |o.entries| ==> AllAnswered(o.entries[k]);
      hide AllAnswered;
      if forall t :: t in turns ==> Speaks(t) {
        RunSpeaks(turns, reviewer, 0);
        SaidIsComplete(userText);
        forall k | 0 <= k < |o.entries| ensures H.Complete(o.entries[k]) {
          if k > 0 { assert o.entries[k] in Loop(turns, reviewer, 0).entries; }
        }
        H.CompleteRoundTrip(o.entries, start);
      }
    }
  }

  lemma {:induction false} SaidIsComplete(text: string)
    ensures H.Complete(H.Said(text))
  {
  }
}
