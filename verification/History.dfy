/** Message history: what a run records, what is stored, and the provider history rebuilt from
    the stored rows (`rows_to_history`), with the two splices that resume a paused hop.
    Tool arguments are opaque JSON texts. */
module History {
  import opened Text

  datatype Call = Call(id: string, name: string, args: string)

  /** A message of the provider history. */
  datatype Msg =
    | User(text: string)
    | Assistant(content: Option<string>, calls: seq<Call>)
    | Result(id: string, name: string, output: string)

  /** A stored row; a missing id, name or text is the empty string or `None`. */
  datatype Row =
    | UserRow(sequence: nat, content: Option<string>)
    | AssistantRow(sequence: nat, content: Option<string>)
    | ToolRow(sequence: nat, content: Option<string>, id: string, name: string, input: Option<string>)

  predicate NoText(content: Option<string>) { content.None? || Blank(content.value) }

  function OrElse(content: Option<string>, default: string): string {
    if content.None? || content.value == "" then default else content.value
  }

  // ----- rebuilding -----

  predicate Malformed(row: Row)
    requires row.ToolRow?
  {
    row.id == "" || row.name == ""
  }

  function CallOf(row: Row): Call
    requires row.ToolRow?
  {
    Call(row.id, row.name, OrElse(row.input, "{}"))
  }

  function ResultOf(row: Row): Msg
    requires row.ToolRow?
  {
    Result(row.id, row.name, OrElse(row.content, "{}"))
  }

  predicate AllTools(rows: seq<Row>) { forall k :: 0 <= k < |rows| ==> rows[k].ToolRow? }

  /** The well-formed rows of a run of tool rows. */
  function Kept(tools: seq<Row>): seq<Row>
    requires AllTools(tools)
    ensures AllTools(Kept(tools))
  {
    if tools == [] then [] else (if Malformed(tools[0]) then [] else [tools[0]]) + Kept(tools[1..])
  }

  function CallsOf(tools: seq<Row>): (r: seq<Call>)
    requires AllTools(tools)
    ensures |r| == |tools| && forall k :: 0 <= k < |r| ==> r[k] == CallOf(tools[k])
  {
    seq(|tools|, k requires 0 <= k < |tools| => CallOf(tools[k]))
  }

  function ResultsOf(tools: seq<Row>): (r: seq<Msg>)
    requires AllTools(tools)
    ensures |r| == |tools| && forall k :: 0 <= k < |r| ==> r[k] == ResultOf(tools[k])
  {
    seq(|tools|, k requires 0 <= k < |tools| => ResultOf(tools[k]))
  }

  /** One assistant turn and the results that attach to it; blank turns without results vanish. */
  function Turn(content: Option<string>, tools: seq<Row>): seq<Msg>
    requires AllTools(tools)
  {
    var kept := Kept(tools);
    if kept == [] && NoText(content) then []
    else [Assistant(content, CallsOf(kept))] + ResultsOf(kept)
  }

  function LeadingTools(rows: seq<Row>): (n: nat)
    ensures n <= |rows| && AllTools(rows[..n]) && (n < |rows| ==> !rows[n].ToolRow?)
  {
    if rows != [] && rows[0].ToolRow? then 1 + LeadingTools(rows[1..]) else 0
  }

  /** A user row alone, an assistant row with the tool rows after it, or tool rows alone. */
  predicate IsTurn(rows: seq<Row>) {
    rows != [] && (rows[0].UserRow? ==> |rows| == 1) && AllTools(rows[1..])
  }

  function TurnLength(rows: seq<Row>): (n: nat)
    requires rows != []
    ensures 0 < n <= |rows| && IsTurn(rows[..n])
  {
    if rows[0].UserRow? then 1
    else
      var n := LeadingTools(rows[1..]);
      assert rows[..1 + n][1..] == rows[1..][..n];
      1 + n
  }

  function TurnMessages(turn: seq<Row>): seq<Msg>
    requires IsTurn(turn)
  {
    match turn[0]
    case UserRow(_, content) => [User(OrElse(content, ""))]
    case AssistantRow(_, content) => Turn(content, turn[1..])
    case ToolRow(_, _, _, _, _) => assert turn == [turn[0]] + turn[1..]; Turn(None, turn)
  }

  /** The history read off the rows turn by turn: a tool row belongs to the assistant row
      before it, or to a new blank assistant message. */
  function Rebuild(rows: seq<Row>): seq<Msg> {
    if rows == [] then []
    else
      var n := TurnLength(rows);
      TurnMessages(rows[..n]) + Rebuild(rows[n..])
  }

  // ----- the legal shape -----

  predicate Answers(r: Msg, call: Call) { r.Result? && r.id == call.id && r.name == call.name }

  predicate AnsweredAt(h: seq<Msg>, k: nat)
    requires k < |h| && h[k].Assistant?
  {
    var n := |h[k].calls|;
    && k + n < |h|
    && (forall m :: 0 <= m < n ==> Answers(h[k + 1..][m], h[k].calls[m]))
    && (k + 1 + n < |h| ==> !h[k + 1 + n].Result?)
  }

  /** Every assistant message is followed by exactly the results of its calls, in order, and
      says something or calls something; every run of results follows an assistant message. */
  predicate Legal(h: seq<Msg>) {
    && (forall k :: 0 <= k < |h| && h[k].Assistant? ==> AnsweredAt(h, k) && (h[k].calls != [] || !NoText(h[k].content)))
    && (forall k :: 0 <= k < |h| && h[k].Result? ==> k > 0 && !h[k - 1].User?)
  }

  predicate StartsTurn(h: seq<Msg>) { h == [] || !h[0].Result? }

  lemma {:induction false} LegalConcat(a: seq<Msg>, b: seq<Msg>)
    requires Legal(a) && Legal(b) && StartsTurn(b)
    ensures Legal(a + b) && (StartsTurn(a) ==> StartsTurn(a + b))
  {
    var h := a + b;
    hide Blank;
    forall k | 0 <= k < |h| && h[k].Assistant?
      ensures AnsweredAt(h, k) && (h[k].calls != [] || !NoText(h[k].content))
    {
      if k < |a| {
        assert AnsweredAt(a, k);
      } else {
        assert h[k] == b[k - |a|] && AnsweredAt(b, k - |a|);
        assert h[k + 1..] == b[k - |a| + 1..];
      }
    }
    forall k | 0 <= k < |h| && h[k].Result? ensures k > 0 && !h[k - 1].User? {
      if k >= |a| {
        assert b[k - |a|].Result?;
      }
    }
  }

  lemma {:induction false} TurnIsLegal(turn: seq<Row>)
    requires IsTurn(turn)
    ensures Legal(TurnMessages(turn)) && StartsTurn(TurnMessages(turn))
  {
    hide Blank, Kept;
  }

  /** Whatever the rows are, the rebuilt history is one a provider accepts. */
  lemma {:induction false} RebuildIsLegal(rows: seq<Row>)
    ensures Legal(Rebuild(rows)) && StartsTurn(Rebuild(rows))
    decreases |rows|
  {
    assert Legal([]);
    hide Legal, TurnMessages;
    if rows != [] {
      var n := TurnLength(rows);
      TurnIsLegal(rows[..n]);
      RebuildIsLegal(rows[n..]);
      LegalConcat(TurnMessages(rows[..n]), Rebuild(rows[n..]));
    }
  }

  /** Cutting the rows before a user or assistant row cuts the history there: no tool row leaves
      its assistant. */
  lemma {:induction false} RebuildCut(rows: seq<Row>, k: nat)
    requires k < |rows| && !rows[k].ToolRow?
    ensures Rebuild(rows) == Rebuild(rows[..k]) + Rebuild(rows[k..])
    decreases |rows|
  {
    if k == 0 {
      assert rows[..0] == [] && rows[0..] == rows && Rebuild([]) == [];
    } else {
      hide *;
      var n := TurnLength(rows);
      TurnLengthCut(rows, k);
      CutCut(rows, n, k);
      assert rows[n..][k - n] == rows[k];
      RebuildCut(rows[n..], k - n);
      FirstTurnCut(rows, n, k);
    }
  }

  lemma {:induction false} FirstTurnCut(rows: seq<Row>, n: nat, k: nat)
    requires 0 < n <= k < |rows| && n == TurnLength(rows) == TurnLength(rows[..k])
    requires Rebuild(rows[n..]) == Rebuild(rows[..k][n..]) + Rebuild(rows[k..])
    ensures Rebuild(rows) == Rebuild(rows[..k]) + Rebuild(rows[k..])
  {
    RebuildStep(rows);
    RebuildStep(rows[..k]);
    hide Rebuild, TurnMessages, TurnLength, IsTurn, LeadingTools;
    CutCut(rows, n, k);
    Assoc(TurnMessages(rows[..n]), Rebuild(rows[..k][n..]), Rebuild(rows[k..]));
  }

  lemma {:induction false} CutCut(rows: seq<Row>, n: nat, k: nat)
    requires n <= k <= |rows|
    ensures rows[n..][..k - n] == rows[..k][n..] && rows[n..][k - n..] == rows[k..] && rows[..k][..n] == rows[..n]
  {
  }

  lemma {:induction false} RebuildStep(rows: seq<Row>)
    requires rows != []
    ensures Rebuild(rows) == TurnMessages(rows[..TurnLength(rows)]) + Rebuild(rows[TurnLength(rows)..])
  {
  }

  lemma {:induction false} TurnLengthCut(rows: seq<Row>, k: nat)
    requires 0 < k < |rows| && !rows[k].ToolRow?
    ensures TurnLength(rows) <= k && TurnLength(rows[..k]) == TurnLength(rows)
  {
    LeadingToolsCut(rows, 1, k);
    assert rows[..k][1..] == rows[1..k];
  }

  lemma {:induction false} LeadingToolsCut(rows: seq<Row>, i: nat, k: nat)
    requires i <= k < |rows| && !rows[k].ToolRow?
    ensures LeadingTools(rows[i..]) == LeadingTools(rows[i..k]) && i + LeadingTools(rows[i..]) <= k
    decreases k - i
  {
    if i < k {
      assert rows[i..][1..] == rows[i + 1..] && rows[i..k][1..] == rows[i + 1..k];
      LeadingToolsCut(rows, i + 1, k);
    } else {
      assert rows[i..][0] == rows[k];
    }
  }

  // ----- the row loop -----

  /** A history entry; the loop adds calls to an assistant entry it has already appended. */
  class Message {
    var msg: Msg

    constructor (m: Msg)
      ensures msg == m
    {
      msg := m;
    }

    method AddCall(call: Call)
      requires msg.Assistant?
      modifies this
      ensures msg == Assistant(old(msg).content, old(msg).calls + [call])
    {
      msg := msg.(calls := msg.calls + [call]);
    }
  }

  ghost predicate Distinct(history: seq<Message>) {
    forall j, k :: 0 <= j < k < |history| ==> history[j] != history[k]
  }

  ghost predicate Shows(history: seq<Message>, h: seq<Msg>)
    reads history
  {
    |history| == |h| && Distinct(history) && forall k :: 0 <= k < |h| ==> history[k].msg == h[k]
  }

  /** The rest of the history when a turn with these tool rows is still open. */
  function RebuildOpen(content: Option<string>, tools: seq<Row>, rows: seq<Row>): seq<Msg>
    requires AllTools(tools)
  {
    var n := LeadingTools(rows);
    Turn(content, tools + rows[..n]) + Rebuild(rows[n..])
  }

  lemma {:induction false} KeptSnoc(tools: seq<Row>, row: Row)
    requires AllTools(tools) && row.ToolRow?
    ensures AllTools(tools + [row])
    ensures Kept(tools + [row]) == Kept(tools) + if Malformed(row) then [] else [row]
  {
    hide Malformed;
    var last := if Malformed(row) then [] else [row];
    if tools == [] {
      assert tools + [row] == [row] && [row][1..] == [];
    } else {
      var first := if Malformed(tools[0]) then [] else [tools[0]];
      assert (tools + [row])[1..] == tools[1..] + [row];
      KeptSnoc(tools[1..], row);
      Assoc(first, Kept(tools[1..]), last);
    }
  }

  lemma {:induction false} KeptNone()
    ensures Kept([]) == [] && CallsOf([]) == []
  {
  }

  lemma {:induction false} CloseTurn(content: Option<string>, tools: seq<Row>, rows: seq<Row>)
    requires AllTools(tools) && (rows != [] ==> !rows[0].ToolRow?)
    ensures RebuildOpen(content, tools, rows) == Turn(content, tools) + Rebuild(rows)
  {
    assert rows[..0] == [] && rows[0..] == rows && tools + [] == tools;
    hide Rebuild, Turn;
  }

  lemma {:induction false} ExtendTurn(content: Option<string>, tools: seq<Row>, rows: seq<Row>)
    requires AllTools(tools) && rows != [] && rows[0].ToolRow?
    ensures AllTools(tools + [rows[0]])
    ensures RebuildOpen(content, tools, rows) == RebuildOpen(content, tools + [rows[0]], rows[1..])
  {
    var n := LeadingTools(rows[1..]);
    assert tools + rows[..1 + n] == tools + [rows[0]] + rows[1..][..n];
    assert rows[1 + n..] == rows[1..][n..];
    hide Rebuild, Turn;
  }

  lemma {:induction false} OpenAssistant(rows: seq<Row>)
    requires rows != [] && rows[0].AssistantRow?
    ensures Rebuild(rows) == RebuildOpen(rows[0].content, [], rows[1..])
  {
    hide Rebuild, Kept, Turn, LeadingTools;
    RebuildStep(rows);
    var n := LeadingTools(rows[1..]);
    assert rows[..1 + n][1..] == rows[1..][..n] && rows[1 + n..] == rows[1..][n..] &&
      [] + rows[1..][..n] == rows[1..][..n];
    assert TurnMessages(rows[..1 + n]) == Turn(rows[0].content, rows[1..][..n]);
  }

  lemma {:induction false} OpenTools(rows: seq<Row>)
    requires rows != [] && rows[0].ToolRow?
    ensures Rebuild(rows) == RebuildOpen(None, [rows[0]], rows[1..])
  {
    hide Rebuild, Kept, Turn, LeadingTools;
    RebuildStep(rows);
    var n := LeadingTools(rows[1..]);
    assert rows[..1 + n] == [rows[0]] + rows[1..][..n] && rows[1 + n..] == rows[1..][n..];
    assert TurnMessages(rows[..1 + n]) == Turn(None, rows[..1 + n]);
  }

  lemma {:induction false} MalformedIsNothing(row: Row, rows: seq<Row>)
    requires row.ToolRow? && Malformed(row)
    ensures RebuildOpen(None, [row], rows) == RebuildOpen(None, [], rows)
  {
    var lead := rows[..LeadingTools(rows)];
    assert ([row] + lead)[1..] == lead == [] + lead;
    assert Kept([row] + lead) == Kept([] + lead);
    hide Kept, Rebuild;
  }

  lemma {:induction false} SkipMalformed(rows: seq<Row>)
    requires rows != [] && rows[0].ToolRow? && Malformed(rows[0])
    ensures Rebuild(rows) == Rebuild(rows[1..])
  {
    var rest := rows[1..];
    assert Turn(None, []) == [];
    hide Rebuild, RebuildOpen, Turn;
    OpenTools(rows);
    MalformedIsNothing(rows[0], rest);
    if rest != [] && rest[0].ToolRow? {
      OpenTools(rest);
      ExtendTurn(None, [], rest);
      assert [] + [rest[0]] == [rest[0]];
    } else {
      CloseTurn(None, [], rest);
    }
  }

  lemma {:induction false} UserTurn(rows: seq<Row>)
    requires rows != [] && rows[0].UserRow?
    ensures Rebuild(rows) == [User(OrElse(rows[0].content, ""))] + Rebuild(rows[1..])
  {
  }

  /** A message of the model vanishes exactly if there is nothing but white space in it and none of its
      results can be attached; a tool row without a message makes one of its own. */
  lemma {:induction false} TurnVanishesIff(turn: seq<Row>)
    requires IsTurn(turn)
    ensures
      var tools := if turn[0].ToolRow? then turn else turn[1..];
      TurnMessages(turn) == [] <==>
        && !turn[0].UserRow? && (forall k :: 0 <= k < |tools| ==> tools[k].id == "" || tools[k].name == "")
        && (turn[0].AssistantRow? && turn[0].content.Some? ==> AllSpace(turn[0].content.value))
  {
    var tools := if turn[0].ToolRow? then turn else turn[1..];
    if turn[0].AssistantRow? && turn[0].content.Some? { BlankIs(turn[0].content.value); }
    if !turn[0].UserRow? {
      assert turn == [turn[0]] + turn[1..];
      KeptIsNothingIff(tools);
    }
    hide Blank, AllSpace;
  }

  lemma {:induction false} KeptIsNothingIff(tools: seq<Row>)
    requires AllTools(tools)
    ensures Kept(tools) == [] <==> forall k :: 0 <= k < |tools| ==> tools[k].id == "" || tools[k].name == ""
    decreases |tools|
  {
    if tools != [] {
      KeptIsNothingIff(tools[1..]);
      assert forall k :: 1 <= k < |tools| ==> tools[k] == tools[1..][k - 1];
    }
  }

  /** Where the row loop stands: the messages of the closed turns, and the open turn if any. */
  datatype State =
    | Closed(done: seq<Msg>)
    | Open(done: seq<Msg>, content: Option<string>, tools: seq<Row>)
  {
    ghost predicate Ok() { Open? ==> AllTools(tools) }

    /** The history so far. */
    ghost function Msgs(): seq<Msg>
      requires Ok()
    {
      match this
      case Closed(done) => done
      case Open(done, content, tools) => done + Turn(content, tools)
    }

    /** The whole history, if these rows follow. */
    ghost function Ahead(rows: seq<Row>): seq<Msg>
      requires Ok()
    {
      match this
      case Closed(done) => done + Rebuild(rows)
      case Open(done, content, tools) => done + RebuildOpen(content, tools, rows)
    }

    ghost function After(row: Row): State
      requires Ok()
    {
      match row
      case UserRow(_, text) => Closed(Msgs() + [User(OrElse(text, ""))])
      case AssistantRow(_, text) => Open(Msgs(), text, [])
      case ToolRow(_, _, _, _, _) =>
        if Open? then Open(done, content, tools + [row])
        else if Malformed(row) then this
        else Open(done, None, [row])
    }

    lemma {:induction false} Advance(rows: seq<Row>)
      requires Ok() && rows != []
      ensures After(rows[0]).Ok() && After(rows[0]).Ahead(rows[1..]) == Ahead(rows)
    {
      hide Rebuild, RebuildOpen, Turn, LeadingTools;
      match rows[0] {
        case UserRow(_, text) =>
          if Open? { CloseTurn(content, tools, rows); }
          UserTurn(rows);
        case AssistantRow(_, text) =>
          if Open? { CloseTurn(content, tools, rows); }
          OpenAssistant(rows);
        case ToolRow(_, _, _, _, _) =>
          if Open? {
            ExtendTurn(content, tools, rows);
          } else if Malformed(rows[0]) {
            SkipMalformed(rows);
          } else {
            OpenTools(rows);
          }
      }
    }
  }

  /** The objects show the state: `active` is the open turn's assistant message, which is in
      the history once it has something to say or a result to own. */
  ghost predicate Tracks(history: seq<Message>, active: Message?, appended: bool, st: State)
    reads history, active
  {
    && st.Ok()
    && Shows(history, st.Msgs())
    && (active == null <==> st.Closed?)
    && (st.Closed? ==> !appended)
    && (st.Open? ==>
          && active.msg == Assistant(st.content, CallsOf(Kept(st.tools)))
          && (appended <==> Kept(st.tools) != [] || !NoText(st.content))
          && (if appended then |st.done| < |history| && history[|st.done|] == active else active !in history))
  }

  lemma {:induction false} TurnGrows(content: Option<string>, tools: seq<Row>, row: Row)
    requires AllTools(tools) && row.ToolRow? && !Malformed(row)
    ensures AllTools(tools + [row]) && Kept(tools + [row]) == Kept(tools) + [row]
    ensures CallsOf(Kept(tools + [row])) == CallsOf(Kept(tools)) + [CallOf(row)]
    ensures Turn(content, tools + [row]) ==
      [Assistant(content, CallsOf(Kept(tools)) + [CallOf(row)])] + (ResultsOf(Kept(tools)) + [ResultOf(row)])
  {
    KeptSnoc(tools, row);
    var kept := Kept(tools);
    hide Kept, Blank;
    assert ResultsOf(kept + [row]) == ResultsOf(kept) + [ResultOf(row)];
  }

  lemma {:induction false} SameTurn(content: Option<string>, tools: seq<Row>, row: Row)
    requires AllTools(tools) && row.ToolRow? && Malformed(row)
    ensures AllTools(tools + [row]) && Kept(tools + [row]) == Kept(tools)
    ensures Turn(content, tools + [row]) == Turn(content, tools)
  {
    KeptSnoc(tools, row);
    hide Kept, Blank;
  }

  /** An assistant row closes the open turn and opens its own; a blank one waits for a result. */
  method StartTurn(history0: seq<Message>, text: Option<string>, ghost done: seq<Msg>)
    returns (history: seq<Message>, active: Message, appended: bool)
    requires Shows(history0, done)
    ensures fresh(active) && forall m :: m in history ==> m in history0 || m == active
    ensures Tracks(history, active, appended, Open(done, text, []))
  {
    KeptNone();
    hide Kept, Blank;
    history := history0;
    active := new Message(Assistant(text, []));
    appended := !NoText(text);
    if appended {
      history := history + [active];
    }
  }

  /** A well-formed tool row attaches to the open turn's assistant message. */
  method AttachTool(history0: seq<Message>, active: Message, appended: bool, row: Row, ghost st: State)
    returns (history: seq<Message>)
    requires row.ToolRow? && !Malformed(row) && st.Open?
    requires Tracks(history0, active, appended, st)
    modifies active
    ensures forall m :: m in history ==> m in history0 || m == active || fresh(m)
    ensures AllTools(st.tools + [row]) && Tracks(history, active, true, Open(st.done, st.content, st.tools + [row]))
  {
    history := history0;
    ghost var results := ResultsOf(Kept(st.tools));
    assert st.Msgs() == st.done + if appended then [active.msg] + results else [];
    assert results == if appended then results else [];
    TurnGrows(st.content, st.tools, row);
    hide Kept, Blank, Turn, CallsOf, ResultsOf;
    if !appended {
      history := history + [active];
    }
    assert Shows(history, st.done + ([active.msg] + results));
    history := AppendResult(history, active, Call(row.id, row.name, OrElse(row.input, "{}")),
                            Result(row.id, row.name, OrElse(row.content, "{}")), st.done, results);
  }

  method AppendResult(history0: seq<Message>, active: Message, call: Call, result: Msg,
                      ghost done: seq<Msg>, ghost results: seq<Msg>)
    returns (history: seq<Message>)
    requires active.msg.Assistant? && Shows(history0, done + ([active.msg] + results)) && history0[|done|] == active
    modifies active
    ensures |history| == |history0| + 1 && history[..|history0|] == history0 && fresh(history[|history0|])
    ensures active.msg == Assistant(old(active.msg).content, old(active.msg).calls + [call])
    ensures Shows(history, done + ([active.msg] + (results + [result])))
  {
    active.AddCall(call);
    var message := new Message(result);
    history := history0 + [message];
  }

  method TakeTool(history0: seq<Message>, active0: Message?, appended0: bool, row: Row, ghost st: State)
    returns (history: seq<Message>, active: Message?, appended: bool)
    requires row.ToolRow? && Tracks(history0, active0, appended0, st)
    modifies if active0 == null then {} else {active0}
    ensures forall m :: m in history ==> m in history0 || m == active0 || fresh(m)
    ensures active == null || active == active0 || fresh(active)
    ensures Tracks(history, active, appended, st.After(row))
  {
    hide Kept, Blank, Turn, CallsOf, ResultsOf;
    history, active, appended := history0, active0, appended0;
    if row.id == "" || row.name == "" {
      if active != null { SameTurn(st.content, st.tools, row); }
    } else if active == null {
      history, active, appended := StartTurn(history, None, st.done);
      history := AttachTool(history, active, appended, row, Open(st.done, None, []));
      appended := true;
      assert [] + [row] == [row];
    } else {
      history := AttachTool(history, active, appended, row, st);
      appended := true;
    }
  }

  method TakeRow(history0: seq<Message>, active0: Message?, appended0: bool, row: Row, ghost st: State)
    returns (history: seq<Message>, active: Message?, appended: bool)
    requires Tracks(history0, active0, appended0, st)
    modifies if active0 == null then {} else {active0}
    ensures forall m :: m in history ==> m in history0 || m == active0 || fresh(m)
    ensures active == null || active == active0 || fresh(active)
    ensures st.After(row).Ok() && Tracks(history, active, appended, st.After(row))
  {
    match row
    case UserRow(_, text) =>
      hide Kept, Blank, Turn, CallsOf;
      var message := new Message(User(OrElse(text, "")));
      history, active, appended := history0 + [message], null, false;
    case AssistantRow(_, text) =>
      hide Kept, Blank, Turn, CallsOf;
      history, active, appended := StartTurn(history0, text, st.Msgs());
    case ToolRow(_, _, _, _, _) =>
      history, active, appended := TakeTool(history0, active0, appended0, row, st);
  }

  method RowsToHistory(rows: seq<Row>) returns (history: seq<Message>)
    ensures forall m :: m in history ==> fresh(m)
    ensures Shows(history, Rebuild(rows))
  {
    history := [];
    var active: Message? := null;
    var appended := false;
    ghost var st := Closed([]);
    hide Rebuild, Tracks, Shows, State.Ahead, State.After;
    NoneTaken(rows);
    assert rows[0..] == rows;
    var i: nat := 0;
    while i < |rows|
      invariant i <= |rows|
      invariant (forall m :: m in history ==> fresh(m)) && (active != null ==> fresh(active))
      invariant st.Ok() && Tracks(history, active, appended, st) && st.Ahead(rows[i..]) == Rebuild(rows)
    {
      st.Advance(rows[i..]);
      assert rows[i..][0] == rows[i] && rows[i..][1..] == rows[i + 1..];
      history, active, appended := TakeRow(history, active, appended, rows[i], st);
      st := st.After(rows[i]);
      i := i + 1;
    }
    assert rows[i..] == [];
    AllTaken(history, active, appended, st);
  }

  lemma {:induction false} NoneTaken(rows: seq<Row>)
    ensures Tracks([], null, false, Closed([])) && Closed([]).Ahead(rows) == Rebuild(rows)
  {
    hide Rebuild;
  }

  lemma {:induction false} AllTaken(history: seq<Message>, active: Message?, appended: bool, st: State)
    requires Tracks(history, active, appended, st)
    ensures Shows(history, st.Ahead([]))
  {
    if st.Open? { CloseTurn(st.content, st.tools, []); }
    hide Kept, Blank, Turn, CallsOf;
  }

  // ----- what a run records -----

  /** A call of one model hop with its output, if it was answered. */
  datatype Asked = Asked(call: Call, output: Option<string>)

  /** What a run adds to the conversation: the user's text, or one model hop. */
  datatype Entry =
    | Said(text: string)
    | Spoke(content: Option<string>, asked: seq<Asked>)

  /** A message as the loop records it. */
  datatype Recorded =
    | RUser(text: string)
    | RAssistant(content: Option<string>, calls: seq<Call>)
    | RTool(call: Call, output: string)

  function Answered(asked: seq<Asked>): seq<Recorded> {
    if asked == [] then []
    else (if asked[0].output.Some? then [RTool(asked[0].call, asked[0].output.value)] else []) + Answered(asked[1..])
  }

  function AllCalls(asked: seq<Asked>): seq<Call> {
    seq(|asked|, k requires 0 <= k < |asked| => asked[k].call)
  }

  function RecordsOf(e: Entry): seq<Recorded> {
    match e
    case Said(text) => [RUser(text)]
    case Spoke(content, asked) => [RAssistant(content, AllCalls(asked))] + Answered(asked)
  }

  function Flatten(entries: seq<Entry>): seq<Recorded> {
    if entries == [] then [] else RecordsOf(entries[0]) + Flatten(entries[1..])
  }

  /** The row a message is stored as: an assistant row keeps only its text. */
  function RowOf(m: Recorded, sequence: nat): Row {
    match m
    case RUser(text) => UserRow(sequence, Some(text))
    case RAssistant(content, _) => AssistantRow(sequence, content)
    case RTool(call, output) => ToolRow(sequence, Some(output), call.id, call.name, Some(call.args))
  }

  function RowsOf(msgs: seq<Recorded>, start: nat): (rows: seq<Row>)
    ensures |rows| == |msgs| && forall k :: 0 <= k < |msgs| ==> rows[k] == RowOf(msgs[k], start + k)
  {
    seq(|msgs|, k requires 0 <= k < |msgs| => RowOf(msgs[k], start + k))
  }

  method PersistMessages(table: seq<Row>, msgs: seq<Recorded>, start: nat) returns (rows: seq<Row>)
    ensures rows == table + RowsOf(msgs, start)
  {
    rows := table;
    var sequence := start;
    for i := 0 to |msgs|
      invariant sequence == start + i && rows == table + RowsOf(msgs[..i], start)
    {
      var row := match msgs[i]
        case RTool(call, output) => ToolRow(sequence, Some(output), call.id, call.name, Some(call.args))
        case RUser(text) => UserRow(sequence, Some(text))
        case RAssistant(content, _) => AssistantRow(sequence, content);
      rows := rows + [row];
      assert RowsOf(msgs[..i + 1], start) == RowsOf(msgs[..i], start) + [row];
      sequence := sequence + 1;
    }
    assert msgs[..|msgs|] == msgs;
  }

  // ----- the round trip -----

  predicate Survives(a: Asked) { a.output.Some? && a.call.id != "" && a.call.name != "" }

  /** The answered calls, with the defaults the rebuild puts in. */
  function Survivors(asked: seq<Asked>): seq<Asked> {
    if asked == [] then [] else (if Survives(asked[0]) then [asked[0]] else []) + Survivors(asked[1..])
  }

  function SentCall(a: Asked): Call { Call(a.call.id, a.call.name, OrElse(Some(a.call.args), "{}")) }

  function SentResult(a: Asked): Msg
    requires a.output.Some?
  {
    Result(a.call.id, a.call.name, OrElse(a.output, "{}"))
  }

  predicate AllSurvive(asked: seq<Asked>) { forall k :: 0 <= k < |asked| ==> Survives(asked[k]) }

  lemma {:induction false} SurvivorsSurvive(asked: seq<Asked>)
    ensures AllSurvive(Survivors(asked)) && (AllSurvive(asked) ==> Survivors(asked) == asked)
  {
    if asked != [] {
      SurvivorsSurvive(asked[1..]);
      Uncons(asked);
    }
  }

  function SentCalls(asked: seq<Asked>): (r: seq<Call>)
    ensures |r| == |asked| && forall k :: 0 <= k < |r| ==> r[k] == SentCall(asked[k])
  {
    seq(|asked|, k requires 0 <= k < |asked| => SentCall(asked[k]))
  }

  function SentResults(asked: seq<Asked>): (r: seq<Msg>)
    requires AllSurvive(asked)
    ensures |r| == |asked| && forall k :: 0 <= k < |r| ==> r[k] == SentResult(asked[k])
  {
    seq(|asked|, k requires 0 <= k < |asked| => SentResult(asked[k]))
  }

  function Sent(content: Option<string>, asked: seq<Asked>): seq<Msg>
    requires AllSurvive(asked)
  {
    [Assistant(content, SentCalls(asked))] + SentResults(asked)
  }

  /** An entry without its unanswered calls; a blank hop without an answer is gone. */
  function KeptOf(e: Entry): seq<Msg> {
    match e
    case Said(text) => [User(text)]
    case Spoke(content, asked) =>
      SurvivorsSurvive(asked);
      if Survivors(asked) == [] && NoText(content) then [] else Sent(content, Survivors(asked))
  }

  function KeptEntries(entries: seq<Entry>): seq<Msg> {
    if entries == [] then [] else KeptOf(entries[0]) + KeptEntries(entries[1..])
  }

  predicate Stands(row: Row, a: Asked) {
    row.ToolRow? && a.output.Some? && CallOf(row) == SentCall(a) && ResultOf(row) == SentResult(a)
  }

  predicate AllStand(rows: seq<Row>, asked: seq<Asked>) {
    |rows| == |asked| && forall k :: 0 <= k < |rows| ==> Stands(rows[k], asked[k])
  }

  lemma {:induction false} RowsOfTail(m: Recorded, msgs: seq<Recorded>, start: nat)
    ensures RowsOf([m] + msgs, start)[0] == RowOf(m, start)
    ensures RowsOf([m] + msgs, start)[1..] == RowsOf(msgs, start + 1)
  {
  }

  lemma {:induction false} RowsOfConcat(a: seq<Recorded>, b: seq<Recorded>, start: nat)
    ensures RowsOf(a + b, start) == RowsOf(a, start) + RowsOf(b, start + |a|)
  {
  }

  lemma {:induction false} StandingRow(row: Row, rows: seq<Row>, a: Asked, asked: seq<Asked>)
    requires AllTools(rows) && AllStand(Kept(rows), Survivors(asked))
    requires Stands(row, a) && (Malformed(row) <==> !Survives(a))
    ensures AllTools([row] + rows) && AllStand(Kept([row] + rows), Survivors([a] + asked))
  {
    assert row.ToolRow?;
    hide Stands, Survives, Malformed;
    assert ([row] + rows)[1..] == rows && ([a] + asked)[1..] == asked;
  }

  lemma {:induction false} AnsweredRows(asked: seq<Asked>, start: nat)
    ensures AllTools(RowsOf(Answered(asked), start))
    ensures AllStand(Kept(RowsOf(Answered(asked), start)), Survivors(asked))
  {
    if asked != [] {
      var a, rest := asked[0], Answered(asked[1..]);
      Uncons(asked);
      if a.output.Some? {
        var m := RTool(a.call, a.output.value);
        AnsweredRows(asked[1..], start + 1);
        StandingRow(RowOf(m, start), RowsOf(rest, start + 1), a, asked[1..]);
        RowsOfTail(m, rest, start);
        Uncons(RowsOf([m] + rest, start));
        assert Answered(asked) == [m] + rest;
        hide Kept, Survivors, Answered, RowsOf;
      } else {
        AnsweredRows(asked[1..], start);
        assert Answered(asked) == rest && Survivors(asked) == Survivors(asked[1..]);
        hide Kept, Survivors, Answered, RowsOf;
      }
    }
  }

  lemma {:induction false} StandingTurn(content: Option<string>, tools: seq<Row>, asked: seq<Asked>)
    requires AllTools(tools) && AllSurvive(asked) && AllStand(Kept(tools), asked)
    ensures Turn(content, tools) == if asked == [] && NoText(content) then [] else Sent(content, asked)
  {
    hide Kept, Blank, CallsOf, ResultsOf, SentCalls, SentResults, SentCall, SentResult, CallOf, ResultOf;
    assert CallsOf(Kept(tools)) == SentCalls(asked);
    assert ResultsOf(Kept(tools)) == SentResults(asked);
  }

  lemma {:induction false} EntryRows(e: Entry, start: nat)
    ensures IsTurn(RowsOf(RecordsOf(e), start)) && TurnMessages(RowsOf(RecordsOf(e), start)) == KeptOf(e)
    ensures !RowsOf(RecordsOf(e), start)[0].ToolRow?
  {
    hide Kept, Survivors, Blank, Answered, Turn, Sent;
    match e {
      case Said(_) =>
      case Spoke(content, asked) =>
        RowsOfTail(RAssistant(content, AllCalls(asked)), Answered(asked), start);
        AnsweredRows(asked, start + 1);
        SurvivorsSurvive(asked);
        StandingTurn(content, RowsOf(Answered(asked), start + 1), Survivors(asked));
    }
  }

  lemma {:induction false} LeadingToolsIs(rows: seq<Row>, n: nat)
    requires n <= |rows| && AllTools(rows[..n]) && (n < |rows| ==> !rows[n].ToolRow?)
    ensures LeadingTools(rows) == n
  {
    var m := LeadingTools(rows);
    assert forall k :: 0 <= k < n ==> rows[k] == rows[..n][k];
    assert forall k :: 0 <= k < m ==> rows[k] == rows[..m][k];
    hide LeadingTools;
  }

  lemma {:induction false} TurnFirst(turn: seq<Row>, rest: seq<Row>)
    requires IsTurn(turn) && (rest != [] ==> !rest[0].ToolRow?)
    ensures Rebuild(turn + rest) == TurnMessages(turn) + Rebuild(rest)
  {
    var rows := turn + rest;
    if !turn[0].UserRow? {
      assert rows[1..][..|turn| - 1] == turn[1..];
      LeadingToolsIs(rows[1..], |turn| - 1);
    }
    assert rows[..|turn|] == turn && rows[|turn|..] == rest;
    hide TurnMessages, LeadingTools;
    RebuildStep(rows);
  }

  /** Storing what a run recorded and rebuilding it loses exactly the unanswered (or nameless)
      calls and the blank hops that own no result. */
  lemma {:induction false} RoundTrip(entries: seq<Entry>, start: nat)
    ensures Rebuild(RowsOf(Flatten(entries), start)) == KeptEntries(entries)
    ensures entries != [] ==> Flatten(entries) != [] && !RowsOf(Flatten(entries), start)[0].ToolRow?
    decreases |entries|
  {
    if entries != [] {
      var first, rest := RecordsOf(entries[0]), Flatten(entries[1..]);
      var more := start + |first|;
      RoundTrip(entries[1..], more);
      assert Flatten(entries) == first + rest && (entries[1..] == [] ==> rest == []);
      assert KeptEntries(entries) == KeptOf(entries[0]) + KeptEntries(entries[1..]);
      hide Rebuild, RecordsOf, KeptOf, Flatten, KeptEntries, TurnMessages, RowOf, IsTurn;
      EntryRows(entries[0], start);
      RowsOfConcat(first, rest, start);
      hide RowsOf;
      TurnFirst(RowsOf(first, start), RowsOf(rest, more));
    }
  }

  /** The conversation as the loop itself shows it to the model. */
  function Live(m: Recorded): Msg {
    match m
    case RUser(text) => User(text)
    case RAssistant(content, calls) => Assistant(content, calls)
    case RTool(call, output) => Result(call.id, call.name, output)
  }

  /** Nothing is missing: every call is answered, and the hop says or asks something. */
  predicate Complete(e: Entry) {
    e.Spoke? ==>
      && (e.asked != [] || !NoText(e.content))
      && AllSurvive(e.asked)
      && forall k :: 0 <= k < |e.asked| ==> e.asked[k].output.value != "" && e.asked[k].call.args != ""
  }

  function LiveOf(msgs: seq<Recorded>): seq<Msg> {
    seq(|msgs|, k requires 0 <= k < |msgs| => Live(msgs[k]))
  }

  lemma {:induction false} AllAnswered(asked: seq<Asked>)
    requires AllSurvive(asked)
    ensures |Answered(asked)| == |asked|
    ensures forall k :: 0 <= k < |asked| ==> Answered(asked)[k] == RTool(asked[k].call, asked[k].output.value)
  {
    if asked != [] {
      AllAnswered(asked[1..]);
    }
  }

  lemma {:induction false} LiveOfConcat(a: seq<Recorded>, b: seq<Recorded>)
    ensures LiveOf(a + b) == LiveOf(a) + LiveOf(b)
  {
  }

  lemma {:induction false} CompleteEntry(e: Entry)
    requires Complete(e)
    ensures KeptOf(e) == LiveOf(RecordsOf(e))
  {
    hide Answered, Survivors, Blank, SentCalls, SentResults, AllCalls, LiveOf;
    if e.Spoke? {
      SurvivorsSurvive(e.asked);
      CompleteCalls(e.asked);
      LiveOfConcat([RAssistant(e.content, AllCalls(e.asked))], Answered(e.asked));
      LiveOfOne(RAssistant(e.content, AllCalls(e.asked)));
    } else {
      LiveOfOne(RUser(e.text));
    }
  }

  lemma {:induction false} LiveOfOne(m: Recorded)
    ensures LiveOf([m]) == [Live(m)]
  {
  }

  lemma {:induction false} CompleteCalls(asked: seq<Asked>)
    requires AllSurvive(asked)
    requires forall k :: 0 <= k < |asked| ==> asked[k].output.value != "" && asked[k].call.args != ""
    ensures SentCalls(asked) == AllCalls(asked) && SentResults(asked) == LiveOf(Answered(asked))
  {
    AllAnswered(asked);
    hide Answered;
    assert forall k :: 0 <= k < |asked| ==> SentCall(asked[k]) == asked[k].call;
  }

  /** A complete conversation comes back word for word: the next run sees what this one saw. */
  lemma {:induction false} CompleteRoundTrip(entries: seq<Entry>, start: nat)
    requires forall k :: 0 <= k < |entries| ==> Complete(entries[k])
    ensures Rebuild(RowsOf(Flatten(entries), start)) == LiveOf(Flatten(entries))
  {
    RoundTrip(entries, start);
    CompleteEntries(entries);
    hide Rebuild, Flatten, KeptEntries, LiveOf, RowsOf;
  }

  lemma {:induction false} CompleteEntries(entries: seq<Entry>)
    requires forall k :: 0 <= k < |entries| ==> Complete(entries[k])
    ensures KeptEntries(entries) == LiveOf(Flatten(entries))
  {
    if entries != [] {
      CompleteEntries(entries[1..]);
      CompleteEntry(entries[0]);
      LiveOfConcat(RecordsOf(entries[0]), Flatten(entries[1..]));
      hide RecordsOf, KeptOf, Complete, LiveOf;
    }
  }

  // ----- resuming a paused hop -----

  predicate EndsAssistant(h: seq<Msg>) { h != [] && h[|h| - 1].Assistant? }

  /** The history with an assistant message at its end. */
  function WithAssistant(h: seq<Msg>): (r: seq<Msg>)
    ensures EndsAssistant(r)
  {
    if EndsAssistant(h) then h else h + [Assistant(None, [])]
  }

  function SetCalls(h: seq<Msg>, calls: seq<Call>): seq<Msg>
    requires EndsAssistant(h)
  {
    h[|h| - 1 := h[|h| - 1].(calls := calls)]
  }

  function ResultsFor(calls: seq<Call>, outputs: seq<string>): (r: seq<Msg>)
    requires |calls| == |outputs|
    ensures |r| == |calls| && forall k :: 0 <= k < |r| ==> r[k] == Result(calls[k].id, calls[k].name, outputs[k])
  {
    seq(|calls|, k requires 0 <= k < |calls| => Result(calls[k].id, calls[k].name, outputs[k]))
  }

  function SpliceCall(h: seq<Msg>, call: Call, output: string): seq<Msg> {
    var base := WithAssistant(h);
    SetCalls(base, base[|base| - 1].calls + [call]) + [Result(call.id, call.name, output)]
  }

  function SpliceBundle(h: seq<Msg>, calls: seq<Call>, outputs: seq<string>): seq<Msg>
    requires |calls| == |outputs|
  {
    SetCalls(WithAssistant(h), calls) + ResultsFor(calls, outputs)
  }

  method Append(history0: seq<Message>, m: Msg, ghost h: seq<Msg>) returns (history: seq<Message>)
    requires Shows(history0, h)
    ensures Shows(history, h + [m])
  {
    var message := new Message(m);
    history := history0 + [message];
  }

  method EndWithAssistant(history0: seq<Message>, ghost h: seq<Msg>) returns (history: seq<Message>)
    requires Shows(history0, h)
    ensures Shows(history, WithAssistant(h)) && history0 <= history
    ensures forall m :: m in history ==> m in history0 || fresh(m)
  {
    history := history0;
    if |history| == 0 || !history[|history| - 1].msg.Assistant? {
      var message := new Message(Assistant(None, []));
      history := history + [message];
    }
  }

  method SplicePendingCall(history0: seq<Message>, call: Call, output: string, ghost h: seq<Msg>)
    returns (history: seq<Message>, persisted: seq<Recorded>)
    requires Shows(history0, h)
    modifies history0
    ensures Shows(history, SpliceCall(h, call, output)) && persisted == [RTool(call, output)]
  {
    history := EndWithAssistant(history0, h);
    var last := history[|history| - 1];
    assert last in history;
    last.AddCall(call);
    var message := new Message(Result(call.id, call.name, output));
    history := history + [message];
    persisted := [RTool(call, output)];
  }

  /** The bundle's calls become the calls of the last assistant message. */
  method AttachCalls(history0: seq<Message>, calls: seq<Call>, ghost h: seq<Msg>) returns (history: seq<Message>)
    requires Shows(history0, h)
    modifies history0
    ensures Shows(history, SetCalls(WithAssistant(h), calls))
  {
    history := EndWithAssistant(history0, h);
    var last := history[|history| - 1];
    assert last in history;
    last.msg := last.msg.(calls := calls);
  }

  /** `ValueError` when items and results do not pair up; nothing is changed then. */
  datatype Splice = Mismatch | Spliced(history: seq<Message>, persisted: seq<Recorded>)

  method SplicePendingBundle(history0: seq<Message>, calls: seq<Call>, outputs: seq<string>, ghost h: seq<Msg>)
    returns (r: Splice)
    requires Shows(history0, h)
    modifies history0
    ensures r.Mismatch? <==> |calls| != |outputs|
    ensures r.Mismatch? ==> Shows(history0, h)
    ensures r.Spliced? ==> Shows(r.history, SpliceBundle(h, calls, outputs))
    ensures r.Spliced? ==> |r.persisted| == |calls| && forall k ::
      0 <= k < |calls| ==> r.persisted[k] == RTool(calls[k], outputs[k])
  {
    if |calls| != |outputs| {
      return Mismatch;
    }
    hide WithAssistant, SetCalls, ResultsFor;
    var history := AttachCalls(history0, calls, h);
    ghost var base := SetCalls(WithAssistant(h), calls);
    var persisted: seq<Recorded> := [];
    ghost var results := ResultsFor(calls, outputs);
    hide Shows;
    for i := 0 to |calls|
      invariant Shows(history, base + results[..i])
      invariant |persisted| == i && forall k :: 0 <= k < i ==> persisted[k] == RTool(calls[k], outputs[k])
    {
      history := Append(history, Result(calls[i].id, calls[i].name, outputs[i]), base + results[..i]);
      assert base + results[..i] + [results[i]] == base + results[..i + 1];
      persisted := persisted + [RTool(calls[i], outputs[i])];
    }
    assert results[..|calls|] == results;
    r := Spliced(history, persisted);
  }

  lemma {:induction false} LastHasNoCalls(h: seq<Msg>)
    requires Legal(h) && EndsAssistant(h)
    ensures h[|h| - 1].calls == []
  {
    assert AnsweredAt(h, |h| - 1);
  }

  lemma {:induction false} NotAmongResults(h: seq<Msg>, k: nat, n: nat)
    requires k < n < |h| && h[k].Assistant? && AnsweredAt(h, k) && !h[n].Result?
    ensures k + |h[k].calls| < n
  {
    var after, calls := h[k + 1..], h[k].calls;
    forall m | 0 <= m < |calls| ensures after[m].Result? {
      assert Answers(after[m], calls[m]);
    }
    assert after[n - k - 1] == h[n];
  }

  lemma {:induction false} FrontIsLegal(h: seq<Msg>, n: nat)
    requires Legal(h) && n < |h| && !h[n].Result?
    ensures Legal(h[..n])
  {
    var f := h[..n];
    hide Blank;
    forall k | 0 <= k < n && f[k].Assistant? ensures AnsweredAt(f, k) {
      NotAmongResults(h, k, n);
      assert f[k + 1..] == h[k + 1..][..n - k - 1];
    }
  }

  lemma {:induction false} HopIsLegal(content: Option<string>, calls: seq<Call>, outputs: seq<string>)
    requires |calls| == |outputs|
    ensures Legal([Assistant(content, calls)] + ResultsFor(calls, outputs)) <==> calls != [] || !NoText(content)
  {
    var h := [Assistant(content, calls)] + ResultsFor(calls, outputs);
    hide Blank;
    assert h[0].Assistant?;
    assert h[1..] == ResultsFor(calls, outputs);
    assert AnsweredAt(h, 0);
  }

  /** Resuming with a bundle keeps the history legal, and only an empty bundle can break it. */
  lemma {:induction false} SpliceBundleIsLegal(h: seq<Msg>, calls: seq<Call>, outputs: seq<string>)
    requires Legal(h) && |calls| == |outputs|
    ensures Legal(SpliceBundle(h, calls, outputs)) <==> calls != [] || EndsAssistant(h)
  {
    var base := WithAssistant(h);
    var n := |base| - 1;
    var hop := [base[n].(calls := calls)] + ResultsFor(calls, outputs);
    if EndsAssistant(h) {
      LastHasNoCalls(h);
      FrontIsLegal(h, n);
      assert !NoText(h[n].content);
    } else {
      assert base[..n] == h;
    }
    assert SpliceBundle(h, calls, outputs) == base[..n] + hop;
    HopIsLegal(base[n].content, calls, outputs);
    if calls != [] || EndsAssistant(h) {
      LegalConcat(base[..n], hop);
    } else {
      assert SpliceBundle(h, calls, outputs)[n] == Assistant(None, []);
    }
  }

  /** A resumed call goes behind the calls of the last message, if the model spoke last, and else opens a
      message of its own; a bundle replaces the calls. */
  lemma {:induction false} SplicesAre(h: seq<Msg>, call: Call, output: string, calls: seq<Call>, outputs: seq<string>)
    requires |calls| == |outputs|
    ensures
      if h != [] && h[|h| - 1].Assistant? then
        var front, last := h[..|h| - 1], h[|h| - 1];
        && SpliceCall(h, call, output) ==
             front + [Assistant(last.content, last.calls + [call]), Result(call.id, call.name, output)]
        && SpliceBundle(h, calls, outputs) == front + [Assistant(last.content, calls)] + ResultsFor(calls, outputs)
      else
        && SpliceCall(h, call, output) == h + [Assistant(None, [call]), Result(call.id, call.name, output)]
        && SpliceBundle(h, calls, outputs) == h + [Assistant(None, calls)] + ResultsFor(calls, outputs)
  {
    var base := WithAssistant(h);
    var front, last := base[..|base| - 1], base[|base| - 1];
    assert base == front + [last] && [] + [call] == [call];
    assert SetCalls(base, last.calls + [call]) == front + [Assistant(last.content, last.calls + [call])];
    assert SetCalls(base, calls) == front + [Assistant(last.content, calls)];
  }

  /** On a legal history one pending call is a bundle of one. */
  lemma {:induction false} SpliceCallIsLegal(h: seq<Msg>, call: Call, output: string)
    requires Legal(h)
    ensures SpliceCall(h, call, output) == SpliceBundle(h, [call], [output])
    ensures Legal(SpliceCall(h, call, output))
  {
    if EndsAssistant(h) { LastHasNoCalls(h); }
    SpliceBundleIsLegal(h, [call], [output]);
    assert [] + [call] == [call];
    hide Legal;
  }

  function Bundle(calls: seq<Call>, outputs: seq<string>): (asked: seq<Asked>)
    requires |calls| == |outputs|
    ensures |asked| == |calls| && forall k :: 0 <= k < |asked| ==> asked[k] == Asked(calls[k], Some(outputs[k]))
  {
    seq(|calls|, k requires 0 <= k < |calls| => Asked(calls[k], Some(outputs[k])))
  }

  predicate Usable(calls: seq<Call>, outputs: seq<string>) {
    && |calls| == |outputs|
    && (forall k :: 0 <= k < |calls| ==> calls[k].id != "" && calls[k].name != "" && calls[k].args != "")
    && (forall k :: 0 <= k < |outputs| ==> outputs[k] != "")
  }

  lemma {:induction false} BundleTurn(content: Option<string>, calls: seq<Call>, outputs: seq<string>, start: nat)
    requires Usable(calls, outputs) && calls != []
    ensures AllTools(RowsOf(Answered(Bundle(calls, outputs)), start))
    ensures Turn(content, RowsOf(Answered(Bundle(calls, outputs)), start)) ==
      [Assistant(content, calls)] + ResultsFor(calls, outputs)
  {
    var asked := Bundle(calls, outputs);
    SurvivorsSurvive(asked);
    AnsweredRows(asked, start);
    StandingTurn(content, RowsOf(Answered(asked), start), asked);
    assert SentCalls(asked) == calls;
    assert SentResults(asked) == ResultsFor(calls, outputs);
  }

  /** The history a resumed run continues with is the one every later run will rebuild, exactly
      when the paused assistant row has text, or has none at all and follows no other message
      of the assistant. */
  lemma {:induction false} SpliceMatchesRebuild(front: seq<Row>, sequence: nat, content: Option<string>,
                             calls: seq<Call>, outputs: seq<string>, start: nat)
    requires Usable(calls, outputs) && calls != []
    ensures
      var rows := front + [AssistantRow(sequence, content)];
      var more := RowsOf(Answered(Bundle(calls, outputs)), start);
      Rebuild(rows + more) == SpliceBundle(Rebuild(rows), calls, outputs) <==>
      !NoText(content) || (content == None && !EndsAssistant(Rebuild(front)))
  {
    var paused := AssistantRow(sequence, content);
    var rows, more := front + [paused], RowsOf(Answered(Bundle(calls, outputs)), start);
    hide Answered, Bundle, RowsOf, Rebuild, Turn, Kept, Blank, SpliceBundle, ResultsFor, EndsAssistant;
    BundleTurn(content, calls, outputs, start);
    BareTurn(content);
    PausedTurn(front, paused, []);
    PausedTurn(front, paused, more);
    assert rows + [] == rows;
    var h := Rebuild(front);
    assert Rebuild(rows) == if NoText(content) then h else h + [Assistant(content, [])];
    assert Rebuild(rows + more) == h + ([Assistant(content, calls)] + ResultsFor(calls, outputs));
    SpliceOnto(h, content, calls, outputs);
  }

  lemma {:induction false} BareTurn(content: Option<string>)
    ensures Turn(content, []) == if NoText(content) then [] else [Assistant(content, [])]
  {
  }

  lemma {:induction false} PausedTurn(front: seq<Row>, paused: Row, more: seq<Row>)
    requires paused.AssistantRow? && AllTools(more)
    ensures Rebuild(front + [paused] + more) == Rebuild(front) + Turn(paused.content, more)
  {
    var rows, turn := front + [paused] + more, [paused] + more;
    assert turn[1..] == more && turn + [] == turn && rows[|front|] == paused;
    assert rows[..|front|] == front && rows[|front|..] == turn;
    RebuildCut(rows, |front|);
    TurnFirst(turn, []);
    assert Rebuild([]) == [];
    hide Rebuild, Turn;
    assert Turn(paused.content, more) + [] == Turn(paused.content, more);
  }

  lemma {:induction false} SpliceShape(h: seq<Msg>, calls: seq<Call>, outputs: seq<string>)
    requires |calls| == |outputs|
    ensures EndsAssistant(h) ==>
      SpliceBundle(h, calls, outputs) == h[..|h| - 1] + ([h[|h| - 1].(calls := calls)] + ResultsFor(calls, outputs))
    ensures !EndsAssistant(h) ==>
      SpliceBundle(h, calls, outputs) == h + ([Assistant(None, calls)] + ResultsFor(calls, outputs))
  {
  }

  lemma {:induction false} SpliceOnto(h: seq<Msg>, content: Option<string>, calls: seq<Call>, outputs: seq<string>)
    requires |calls| == |outputs|
    ensures
      var base := if NoText(content) then h else h + [Assistant(content, [])];
      h + ([Assistant(content, calls)] + ResultsFor(calls, outputs)) == SpliceBundle(base, calls, outputs) <==>
      !NoText(content) || (content == None && !EndsAssistant(h))
  {
    var base := if NoText(content) then h else h + [Assistant(content, [])];
    var results := ResultsFor(calls, outputs);
    SpliceShape(base, calls, outputs);
    if !NoText(content) {
      assert base[..|base| - 1] == h && base[|base| - 1] == Assistant(content, []);
    } else if !EndsAssistant(h) {
      assert (h + ([Assistant(content, calls)] + results))[|h|] == Assistant(content, calls);
      assert (h + ([Assistant(None, calls)] + results))[|h|] == Assistant(None, calls);
    } else {
      assert |h + ([Assistant(content, calls)] + results)| == |SpliceBundle(base, calls, outputs)| + 1;
    }
    hide SpliceBundle, ResultsFor, Blank;
  }
}
