/** The tool-result budget applied before every model request: the oldest results make way for
    placeholders, in fresh copies, because the same message objects are also what gets stored.
    The JSON of a placeholder is an arbitrary text that is recognised as one. */
module Budget {
  import opened Text

  datatype Role = User | Assistant | Tool

  datatype Msg = Msg(role: Role, content: string, callId: string, name: string)

  /** How placeholders are written and recognised. */
  datatype Codec = Codec(write: Msg -> string, recognises: string -> bool)

  ghost predicate Sound(codec: Codec) {
    forall m: Msg :: codec.write(m) != "" && codec.recognises(codec.write(m))
  }

  predicate IsResult(m: Msg) { m.role == Tool && m.content != "" }

  /** The positions of the results among the first `n` messages. */
  function Results(msgs: seq<Msg>, n: nat): (r: seq<nat>)
    requires n <= |msgs|
    ensures forall i :: 0 <= i < |r| ==> r[i] < n
    ensures forall k :: k in r ==> k < n
  {
    if n == 0 then []
    else Results(msgs, n - 1) + if IsResult(msgs[n - 1]) then [n - 1] else []
  }

  function Chars(msgs: seq<Msg>, n: nat): nat
    requires n <= |msgs|
  {
    if n == 0 then 0 else Chars(msgs, n - 1) + if IsResult(msgs[n - 1]) then |msgs[n - 1].content| else 0
  }

  predicate OverBudget(msgs: seq<Msg>, budget: int, keep: int) {
    budget > 0 && Chars(msgs, |msgs|) > budget && |Results(msgs, |msgs|)| > keep
  }

  /** The results that have to make way: all but the newest `keep`. */
  function Oldest(msgs: seq<Msg>, keep: int): (r: seq<nat>)
    requires |Results(msgs, |msgs|)| > keep
    ensures forall k :: k in r ==> k < |msgs|
  {
    var results := Results(msgs, |msgs|);
    results[..Min(|results| - keep, |results|)]
  }

  function Replace(m: Msg, codec: Codec): Msg {
    if codec.recognises(m.content) then m else m.(content := codec.write(m))
  }

  function Budgeted(msgs: seq<Msg>, codec: Codec, budget: int, keep: int): (r: seq<Msg>)
    ensures |r| == |msgs|
  {
    if !OverBudget(msgs, budget, keep) then msgs
    else seq(|msgs|, k requires 0 <= k < |msgs| => if k in Oldest(msgs, keep) then Replace(msgs[k], codec) else msgs[k])
  }

  lemma {:induction false} ResultsAre(msgs: seq<Msg>, n: nat)
    requires n <= |msgs|
    ensures forall k: nat :: k in Results(msgs, n) <==> k < n && msgs[k].role == Tool && msgs[k].content != ""
    ensures forall i, j :: 0 <= i < j < |Results(msgs, n)| ==> Results(msgs, n)[i] < Results(msgs, n)[j]
  {
    if n > 0 { ResultsAre(msgs, n - 1); }
  }

  lemma {:induction false} SameResults(a: seq<Msg>, b: seq<Msg>, n: nat)
    requires |a| == |b| && n <= |a| && forall k :: 0 <= k < |a| ==> IsResult(a[k]) == IsResult(b[k])
    ensures Results(a, n) == Results(b, n)
  {
    if n > 0 { SameResults(a, b, n - 1); }
  }

  lemma {:induction false} OldestAre(msgs: seq<Msg>, keep: int)
    requires |Results(msgs, |msgs|)| > keep
    ensures forall k :: k in Oldest(msgs, keep) ==> IsResult(msgs[k])
    ensures
      var results := Results(msgs, |msgs|);
      forall i :: Max(0, |results| - keep) <= i < |results| ==> results[i] !in Oldest(msgs, keep)
  {
    ResultsAre(msgs, |msgs|);
    var results, oldest := Results(msgs, |msgs|), Oldest(msgs, keep);
    hide Results;
    forall k | k in oldest ensures IsResult(msgs[k]) {
      assert k in results;
    }
    forall i | Max(0, |results| - keep) <= i < |results| ensures results[i] !in oldest {
      forall j | 0 <= j < |oldest| ensures oldest[j] != results[i] {
        assert oldest[j] == results[j] && j < i;
      }
    }
  }

  /** Roles, ids, names, order and number of the messages stay, other messages and the newest
      `keep` results stay word for word, and what is replaced is a placeholder. */
  lemma {:induction false} BudgetedIs(msgs: seq<Msg>, codec: Codec, budget: int, keep: int)
    requires Sound(codec)
    ensures
      var r, results := Budgeted(msgs, codec, budget, keep), Results(msgs, |msgs|);
      && (forall k :: 0 <= k < |msgs| ==>
        r[k] == msgs[k].(content := r[k].content) && IsResult(r[k]) == IsResult(msgs[k]))
      && (forall k :: 0 <= k < |msgs| && r[k] != msgs[k] ==> IsResult(msgs[k]) && codec.recognises(r[k].content))
      && (forall i :: Max(0, |results| - keep) <= i < |results| ==> r[results[i]] == msgs[results[i]])
  {
    if OverBudget(msgs, budget, keep) { OldestAre(msgs, keep); }
    hide Results, Chars, Oldest;
  }

  /** The lengths of the results at these positions, added up. */
  function TotalLength(msgs: seq<Msg>, at: seq<nat>): nat
    requires forall i :: 0 <= i < |at| ==> at[i] < |msgs|
  {
    if at == [] then 0 else TotalLength(msgs, at[..|at| - 1]) + |msgs[at[|at| - 1]].content|
  }

  lemma {:induction false} CharsAreTotal(msgs: seq<Msg>, n: nat)
    requires n <= |msgs|
    ensures Chars(msgs, n) == TotalLength(msgs, Results(msgs, n))
  {
    if n > 0 {
      CharsAreTotal(msgs, n - 1);
      var front := Results(msgs, n - 1);
      if IsResult(msgs[n - 1]) { assert (front + [n - 1])[..|front|] == front; }
      assert front + [] == front;
    }
  }

  /** A result is replaced exactly if the results together are over a positive budget, at least `keep`
      newer ones remain, and it is not a placeholder yet; everything else stays. */
  lemma {:induction false} ReplacesIff(msgs: seq<Msg>, codec: Codec, budget: int, keep: int, k: nat)
    requires k < |msgs|
    ensures
      var r, results := Budgeted(msgs, codec, budget, keep), Results(msgs, |msgs|);
      r[k] ==
        if budget > 0 && TotalLength(msgs, results) > budget && !codec.recognises(msgs[k].content) &&
             exists i :: 0 <= i < |results| - keep && i < |results| && results[i] == k
        then msgs[k].(content := codec.write(msgs[k])) else msgs[k]
  {
    CharsAreTotal(msgs, |msgs|);
    var results := Results(msgs, |msgs|);
    hide Results, Chars, TotalLength;
    if |results| > keep {
      var oldest := Oldest(msgs, keep);
      assert k in oldest <==> exists i :: 0 <= i < |results| - keep && i < |results| && results[i] == k by {
        if i: nat :| i < |results| - keep && i < |results| && results[i] == k { assert oldest[i] == k; }
        if k in oldest {
          var i :| 0 <= i < |oldest| && oldest[i] == k;
          assert results[i] == k;
        }
      }
    }
  }

  /** Once applied, applying it again changes nothing. */
  lemma {:induction false} BudgetIsIdempotent(msgs: seq<Msg>, codec: Codec, budget: int, keep: int)
    requires Sound(codec)
    ensures
      var once := Budgeted(msgs, codec, budget, keep);
      Budgeted(once, codec, budget, keep) == once
  {
    var once := Budgeted(msgs, codec, budget, keep);
    BudgetedIs(msgs, codec, budget, keep);
    SameResults(msgs, once, |msgs|);
    hide Results, Chars;
    if OverBudget(msgs, budget, keep) && OverBudget(once, budget, keep) {
      var twice := Budgeted(once, codec, budget, keep);
      assert Oldest(once, keep) == Oldest(msgs, keep);
      forall k | 0 <= k < |msgs| ensures twice[k] == once[k] {
        if k in Oldest(msgs, keep) {
          assert codec.recognises(once[k].content);
        }
      }
      assert twice == once;
    }
  }

  // ----- on shared objects -----

  class Message {
    const role: Role
    var content: string
    const callId: string
    const name: string

    constructor (m: Msg)
      ensures View() == m
    {
      role, content, callId, name := m.role, m.content, m.callId, m.name;
    }

    function View(): Msg
      reads this
    {
      Msg(role, content, callId, name)
    }
  }

  ghost predicate Shows(messages: seq<Message>, msgs: seq<Msg>)
    reads messages
  {
    |messages| == |msgs| && forall k :: 0 <= k < |msgs| ==> messages[k].View() == msgs[k]
  }

  method Views(messages: seq<Message>) returns (msgs: seq<Msg>)
    ensures Shows(messages, msgs)
  {
    msgs := [];
    for k := 0 to |messages|
      invariant Shows(messages[..k], msgs)
    {
      msgs := msgs + [messages[k].View()];
    }
    assert messages[..|messages|] == messages;
  }

  /** A placeholder is kept; anything else is replaced by a fresh copy with new content. */
  method Replaced(m: Message, codec: Codec) returns (r: Message)
    ensures r.View() == Replace(m.View(), codec) && (r == m || fresh(r))
  {
    if codec.recognises(m.content) {
      r := m;
    } else {
      r := new Message(m.View().(content := codec.write(m.View())));
    }
  }

  lemma {:induction false} ShowsReplaced(messages: seq<Message>, m: Message, k: nat, msgs: seq<Msg>)
    requires Shows(messages, msgs) && k < |messages|
    ensures messages[k].View() == msgs[k] && Shows(messages[k := m], msgs[k := m.View()])
  {
    hide Message.View;
  }

  /** One slot of the list. */
  method ReplaceAt(messages: seq<Message>, k: nat, codec: Codec, ghost msgs: seq<Msg>)
    returns (out: seq<Message>, changed: bool)
    requires Shows(messages, msgs) && k < |messages|
    ensures Shows(out, msgs[k := Replace(msgs[k], codec)])
    ensures |out| == |messages| && forall j :: 0 <= j < |out| ==> out[j] == messages[j] || fresh(out[j])
    ensures !changed ==> out == messages
  {
    hide Replace;
    var m := Replaced(messages[k], codec);
    ShowsReplaced(messages, m, k, msgs);
    out, changed := messages, false;
    if m != messages[k] {
      out := messages[k := m];
      changed := true;
    }
    assert out == messages[k := m];
  }

  /** The list for one request. Nothing that existed before is written to. */
  method ApplyToolResultBudget(messages: seq<Message>, codec: Codec, budget: int, keep: int)
    returns (out: seq<Message>, ghost before: seq<Msg>)
    requires Sound(codec)
    ensures Shows(messages, before) && Shows(out, Budgeted(before, codec, budget, keep))
    ensures |out| == |messages| && forall k :: 0 <= k < |out| ==> out[k] == messages[k] || fresh(out[k])
    ensures !OverBudget(before, budget, keep) ==> out == messages
  {
    var msgs := Views(messages);
    before := msgs;
    if !OverBudget(msgs, budget, keep) {
      return messages, msgs;
    }
    var oldest := Oldest(msgs, keep);
    out := messages;
    var changed := false;
    OldestOnce(msgs, keep);
    assert Partly(msgs, oldest[..0], codec) == msgs;
    hide Results, Chars, OverBudget, Oldest, Replace, Partly, Shows, Message.View, Budgeted, Sound;
    for i := 0 to |oldest|
      invariant |out| == |messages| && forall k :: 0 <= k < |out| ==> out[k] == messages[k] || fresh(out[k])
      invariant Shows(out, Partly(msgs, oldest[..i], codec))
      invariant !changed ==> out == messages
    {
      var index := oldest[i];
      assert index in oldest;
      PartlyNext(msgs, oldest, i, codec);
      var more: bool;
      out, more := ReplaceAt(out, index, codec, Partly(msgs, oldest[..i], codec));
      changed := changed || more;
    }
    assert oldest[..|oldest|] == oldest;
    PartlyAll(msgs, codec, budget, keep);
    if !changed {
      out := messages;
    }
  }

  /** The messages with those at `done` replaced. */
  function Partly(msgs: seq<Msg>, done: seq<nat>, codec: Codec): (r: seq<Msg>)
    ensures |r| == |msgs|
  {
    seq(|msgs|, k requires 0 <= k < |msgs| => if k in done then Replace(msgs[k], codec) else msgs[k])
  }

  lemma {:induction false} PartlyNext(msgs: seq<Msg>, all: seq<nat>, i: nat, codec: Codec)
    requires i < |all| && all[i] < |msgs| && forall j :: 0 <= j < i ==> all[j] != all[i]
    ensures Partly(msgs, all[..i], codec)[all[i]] == msgs[all[i]]
    ensures Partly(msgs, all[..i + 1], codec) == Partly(msgs, all[..i], codec)[all[i] := Replace(msgs[all[i]], codec)]
  {
    hide Replace;
    assert all[..i + 1] == all[..i] + [all[i]];
  }

  lemma {:induction false} PartlyAll(msgs: seq<Msg>, codec: Codec, budget: int, keep: int)
    requires OverBudget(msgs, budget, keep)
    ensures Partly(msgs, Oldest(msgs, keep), codec) == Budgeted(msgs, codec, budget, keep)
  {
    hide Results, Chars, Oldest, Replace;
  }

  lemma {:induction false} OldestOnce(msgs: seq<Msg>, keep: int)
    requires |Results(msgs, |msgs|)| > keep
    ensures forall i, j :: 0 <= i < j < |Oldest(msgs, keep)| ==> Oldest(msgs, keep)[i] != Oldest(msgs, keep)[j]
  {
    ResultsAre(msgs, |msgs|);
  }

  /** The loop's use of it: every new message goes to the request list and, as the same object,
      to the list that will be stored. However often the budget bites, what was recorded stays. */
  method Requests(batches: seq<Msg>, codec: Codec, budget: int, keep: int)
    returns (messages: seq<Message>, recorded: seq<Message>)
    requires Sound(codec)
    ensures Shows(recorded, batches) && |messages| == |batches|
  {
    messages, recorded := [], [];
    for i := 0 to |batches|
      invariant Shows(recorded, batches[..i]) && |messages| == i
      invariant forall m :: m in recorded ==> fresh(m)
    {
      ghost var before;
      messages, before := ApplyToolResultBudget(messages, codec, budget, keep);
      var message := new Message(batches[i]);
      messages := messages + [message];
      recorded := recorded + [message];
      assert batches[..i + 1] == batches[..i] + [batches[i]];
    }
    assert batches[..|batches|] == batches;
  }
}
