/** The incremental reader of `postSse`: text arrives in arbitrary cuts, frames end at an empty
    line, and the `data: ` lines of each frame are events. An event is its JSON text. */
module Sse {
  import opened Text

  const SEPARATOR := "\n\n"
  const DATA := "data: "

  predicate SeparatorAt(s: string, i: nat) { i + 1 < |s| && s[i] == '\n' && s[i + 1] == '\n' }

  /** `indexOf`: the first separator at or after `i`. */
  function FindSeparator(s: string, i: nat): (r: Option<nat>)
    requires i <= |s|
    ensures r.Some? ==> i <= r.value && SeparatorAt(s, r.value) && forall k: nat ::
      i <= k < r.value ==> !SeparatorAt(s, k)
    ensures r.None? ==> forall k: nat :: i <= k ==> !SeparatorAt(s, k)
    decreases |s| - i
  {
    if i == |s| then None
    else if SeparatorAt(s, i) then Some(i)
    else FindSeparator(s, i + 1)
  }

  ghost predicate Whole(buffer: string) { forall k: nat :: !SeparatorAt(buffer, k) }

  /** The complete frames at the front of a buffer, and what is left. */
  function Drain(buffer: string): (seq<string>, string)
    decreases |buffer|
  {
    var sep := FindSeparator(buffer, 0);
    if sep.None? then ([], buffer)
    else
      var (frames, rest) := Drain(buffer[sep.value + 2..]);
      ([buffer[..sep.value]] + frames, rest)
  }

  /** The text of some frames, each with its separator. */
  function Glue(frames: seq<string>): string {
    if frames == [] then [] else frames[0] + SEPARATOR + Glue(frames[1..])
  }

  /** A frame whose first separator is the one that ends it. */
  ghost predicate Frame(frame: string) { Whole(frame) && (frame == [] || frame[|frame| - 1] != '\n') }

  lemma {:induction false} FirstSeparator(frame: string, rest: string)
    requires Frame(frame)
    ensures FindSeparator(frame + SEPARATOR + rest, 0) == Some(|frame|)
  {
    var s := frame + SEPARATOR + rest;
    assert SeparatorAt(s, |frame|);
    forall k: nat | k < |frame| ensures !SeparatorAt(s, k) {
      assert !SeparatorAt(frame, k);
    }
  }

  lemma {:induction false} FirstFrame(buffer: string, k: nat)
    requires FindSeparator(buffer, 0) == Some(k)
    ensures Frame(buffer[..k]) && buffer == buffer[..k] + SEPARATOR + buffer[k + 2..]
  {
    var frame := buffer[..k];
    forall m: nat ensures !SeparatorAt(frame, m) {
      if m + 1 < k { assert !SeparatorAt(buffer, m); }
    }
    if k > 0 { assert !SeparatorAt(buffer, k - 1); }
  }

  lemma {:induction false} DrainOne(frame: string, tail: string)
    requires Frame(frame)
    ensures Drain(frame + SEPARATOR + tail) == ([frame] + Drain(tail).0, Drain(tail).1)
  {
    var s := frame + SEPARATOR + tail;
    FirstSeparator(frame, tail);
    assert s[..|frame|] == frame && s[|frame| + 2..] == tail;
  }

  /** Draining splits the text into frames and a rest in the one possible way. */
  lemma {:induction false} DrainSplits(buffer: string)
    ensures Glue(Drain(buffer).0) + Drain(buffer).1 == buffer
    ensures Whole(Drain(buffer).1) && forall i :: 0 <= i < |Drain(buffer).0| ==> Frame(Drain(buffer).0[i])
    decreases |buffer|
  {
    var sep := FindSeparator(buffer, 0);
    if sep.Some? {
      var frame, tail := buffer[..sep.value], buffer[sep.value + 2..];
      FirstFrame(buffer, sep.value);
      DrainSplits(tail);
      var frames, rest := Drain(tail).0, Drain(tail).1;
      DrainOne(frame, tail);
      hide Drain, Frame;
      assert ([frame] + frames)[1..] == frames;
      Assoc(frame + SEPARATOR, Glue(frames), rest);
    }
  }

  lemma {:induction false} OnlySplit(frames: seq<string>, rest: string)
    requires Whole(rest) && forall i :: 0 <= i < |frames| ==> Frame(frames[i])
    ensures Drain(Glue(frames) + rest) == (frames, rest)
    decreases |frames|
  {
    if frames == [] {
      assert Glue(frames) + rest == rest;
    } else {
      OnlySplit(frames[1..], rest);
      Assoc(frames[0] + SEPARATOR, Glue(frames[1..]), rest);
      DrainOne(frames[0], Glue(frames[1..]) + rest);
      Uncons(frames);
    }
  }

  /** A text that arrives in two pieces is drained as if it had arrived at once. */
  lemma {:induction false} DrainInPieces(x: string, y: string)
    ensures Drain(x + y) == (Drain(x).0 + Drain(Drain(x).1 + y).0, Drain(Drain(x).1 + y).1)
    decreases |x|
  {
    var sep := FindSeparator(x, 0);
    if sep.Some? {
      var frame, tail := x[..sep.value], x[sep.value + 2..];
      FirstFrame(x, sep.value);
      DrainInPieces(tail, y);
      DrainOne(frame, tail);
      DrainOne(frame, tail + y);
      Assoc(frame + SEPARATOR, tail, y);
      hide Drain;
      Assoc([frame], Drain(tail).0, Drain(Drain(tail).1 + y).0);
    } else {
      assert Drain(x) == ([], x);
      assert [] + Drain(x + y).0 == Drain(x + y).0;
    }
  }

  // ----- events -----

  /** The lines of a frame, split at every line feed. */
  function Lines(s: string): seq<string>
    decreases |s|
  {
    LinesFrom(s, 0, 0)
  }

  function LinesFrom(s: string, start: nat, i: nat): seq<string>
    requires start <= i <= |s|
    decreases |s| - i
  {
    if i == |s| then [s[start..]]
    else if s[i] == '\n' then [s[start..i]] + LinesFrom(s, i + 1, i + 1)
    else LinesFrom(s, start, i + 1)
  }

  predicate IsData(line: string) { DATA <= line }

  function DataOf(lines: seq<string>): seq<string> {
    if lines == [] then []
    else (if IsData(lines[0]) then [lines[0][|DATA|..]] else []) + DataOf(lines[1..])
  }

  function Events(frames: seq<string>): seq<string> {
    if frames == [] then [] else DataOf(Lines(frames[0])) + Events(frames[1..])
  }

  lemma {:induction false} EventsConcat(a: seq<string>, b: seq<string>)
    ensures Events(a + b) == Events(a) + Events(b)
  {
    if a == [] {
      assert a + b == b;
    } else {
      assert (a + b)[1..] == a[1..] + b;
      EventsConcat(a[1..], b);
      Assoc(DataOf(Lines(a[0])), Events(a[1..]), Events(b));
    }
  }

  // ----- the reader -----

  function Joined(cuts: seq<string>): string {
    if cuts == [] then [] else cuts[0] + Joined(cuts[1..])
  }

  /** Reads of the stream in their order, until the end: however the text is cut, the events are
      those of the whole text, and between reads the buffer never holds a complete frame. */
  method PostSse(chunks: seq<string>) returns (events: seq<string>, buffer: string)
    ensures events == Events(Drain(Joined(chunks)).0) && buffer == Drain(Joined(chunks)).1
    ensures Whole(buffer)
  {
    events, buffer := [], "";
    ghost var frames: seq<string> := [];
    assert chunks[0..] == chunks && [] + Joined(chunks) == Joined(chunks);
    assert Drain("") == ([], "") && "" + Joined(chunks) == Joined(chunks);
    assert [] + Drain(Joined(chunks)).0 == Drain(Joined(chunks)).0;
    var i := 0;
    ghost var total := Drain(Joined(chunks));
    while i < |chunks|
      invariant 0 <= i <= |chunks| && Whole(buffer)
      invariant events == Events(frames)
      invariant (frames + Drain(buffer + Joined(chunks[i..])).0, Drain(buffer + Joined(chunks[i..])).1) == total
    {
      ghost var later := Joined(chunks[i + 1..]);
      assert chunks[i..][1..] == chunks[i + 1..];
      assert buffer + Joined(chunks[i..]) == buffer + chunks[i] + later;
      buffer := buffer + chunks[i];
      DrainInPieces(buffer, later);
      ghost var parts := Drain(buffer);
      ghost var ahead := Drain(parts.1 + later);
      Assoc(frames, parts.0, ahead.0);
      EventsConcat(frames, parts.0);
      var more;
      more, buffer := DrainBuffer(buffer);
      events := events + more;
      frames := frames + parts.0;
      i := i + 1;
    }
    assert buffer + Joined(chunks[i..]) == buffer;
    assert frames + [] == frames;
  }

  /** The inner loop: one frame after the other is cut off the buffer and delivered. */
  method DrainBuffer(buffer0: string) returns (events: seq<string>, buffer: string)
    ensures events == Events(Drain(buffer0).0) && buffer == Drain(buffer0).1 && Whole(buffer)
  {
    events, buffer := [], buffer0;
    ghost var total := Drain(buffer0);
    var sep := FindSeparator(buffer, 0);
    while sep.Some?
      invariant sep == FindSeparator(buffer, 0)
      invariant events + Events(Drain(buffer).0) == Events(total.0) && Drain(buffer).1 == total.1
      decreases |buffer|
    {
      var frame := buffer[..sep.value];
      ghost var rest := Drain(buffer[sep.value + 2..]);
      assert ([frame] + rest.0)[1..] == rest.0;
      Assoc(events, DataOf(Lines(frame)), Events(rest.0));
      events := events + DataOf(Lines(frame));
      buffer := buffer[sep.value + 2..];
      sep := FindSeparator(buffer, 0);
    }
  }

  // ----- round trip with the server -----

  /** What the server writes for its events. */
  function Stream(payloads: seq<string>): string {
    if payloads == [] then [] else DATA + payloads[0] + SEPARATOR + Stream(payloads[1..])
  }

  predicate OneLine(s: string) { forall k :: 0 <= k < |s| ==> s[k] != '\n' }

  lemma {:induction false} OneLineIs(s: string, start: nat, i: nat)
    requires start <= i <= |s| && OneLine(s)
    ensures LinesFrom(s, start, i) == [s[start..]]
    decreases |s| - i
  {
    if i < |s| { OneLineIs(s, start, i + 1); }
  }

  function FramesOf(payloads: seq<string>): seq<string> {
    seq(|payloads|, k requires 0 <= k < |payloads| => DATA + payloads[k])
  }

  lemma {:induction false} StreamIsGlued(payloads: seq<string>)
    requires forall k :: 0 <= k < |payloads| ==> OneLine(payloads[k])
    ensures Stream(payloads) == Glue(FramesOf(payloads)) && Events(FramesOf(payloads)) == payloads
    decreases |payloads|
  {
    if payloads != [] {
      var frames := FramesOf(payloads);
      assert frames[1..] == FramesOf(payloads[1..]);
      StreamIsGlued(payloads[1..]);
      var line := DATA + payloads[0];
      OneLineIs(line, 0, 0);
      assert line[0..] == line && line[|DATA|..] == payloads[0];
      var one: seq<string> := [line];
      assert one[1..] == [];
      assert DataOf(one) == [payloads[0]];
      assert payloads == [payloads[0]] + payloads[1..];
    }
  }

  /** However the network cuts the stream, the client delivers exactly the server's events. */
  lemma {:induction false} StreamRoundTrip(payloads: seq<string>, chunks: seq<string>)
    requires forall k :: 0 <= k < |payloads| ==> OneLine(payloads[k])
    requires Joined(chunks) == Stream(payloads)
    ensures Events(Drain(Joined(chunks)).0) == payloads && Drain(Joined(chunks)).1 == ""
  {
    StreamIsGlued(payloads);
    var frames := FramesOf(payloads);
    forall i | 0 <= i < |frames| ensures Frame(frames[i]) {
      DataLineIsFrame(payloads[i]);
    }
    hide Frame, Glue, Events, Stream, Joined;
    OnlySplit(frames, "");
    assert Glue(frames) + "" == Glue(frames);
  }

  lemma {:induction false} DataLineIsFrame(payload: string)
    requires OneLine(payload)
    ensures Frame(DATA + payload)
  {
    var line := DATA + payload;
    assert forall k :: 0 <= k < |line| ==> line[k] == if k < |DATA| then DATA[k] else payload[k - |DATA|];
    assert OneLine(line);
  }

  // ----- frames of several lines -----

  /** `at` are the places of the data lines, and the payloads what they carry. */
  predicate ArePayloads(lines: seq<string>, payloads: seq<string>, at: seq<nat>) {
    && |at| == |payloads| && (forall i :: 0 <= i < |at| ==> Carries(lines, at[i], payloads[i]))
    && (forall i, j :: 0 <= i < j < |at| ==> at[i] < at[j])
    && forall k: nat :: k < |lines| && IsData(lines[k]) ==> k in at
  }

  predicate Carries(lines: seq<string>, k: nat, payload: string) { k < |lines| && lines[k] == DATA + payload }

  function Moved(at: seq<nat>): (r: seq<nat>)
    ensures |r| == |at| && forall i :: 0 <= i < |at| ==> r[i] == at[i] + 1
  {
    seq(|at|, i requires 0 <= i < |at| => at[i] + 1)
  }

  lemma {:induction false} LaterPayloads(line: string, lines: seq<string>, payloads: seq<string>, at: seq<nat>)
    requires ArePayloads(lines, payloads, at) && !IsData(line)
    ensures ArePayloads([line] + lines, payloads, Moved(at))
  {
    hide IsData;
    var all, moved := [line] + lines, Moved(at);
    forall i | 0 <= i < |at| ensures Carries(all, moved[i], payloads[i]) { assert Carries(lines, at[i], payloads[i]); }
    forall k: nat | k < |all| && IsData(all[k]) ensures k in moved {
      assert all[k] == lines[k - 1];
      var i :| 0 <= i < |at| && at[i] == k - 1;
      assert moved[i] == k;
    }
  }

  lemma {:induction false} FirstPayload(payload: string, lines: seq<string>, payloads: seq<string>, at: seq<nat>)
    requires ArePayloads([""] + lines, payloads, Moved(at))
    ensures ArePayloads([DATA + payload] + lines, [payload] + payloads, [0] + Moved(at))
  {
    hide IsData;
    var was, all, ps, r := [""] + lines, [DATA + payload] + lines, [payload] + payloads, [0] + Moved(at);
    forall i | 0 <= i < |r| ensures Carries(all, r[i], ps[i]) {
      if i > 0 { assert Carries(was, Moved(at)[i - 1], payloads[i - 1]); }
    }
    forall k: nat | k < |all| && IsData(all[k]) ensures k in r {
      if k > 0 { assert IsData(was[k]) && k in Moved(at); }
    }
  }

  /** Every data line of a frame is an event, in order. */
  lemma {:induction false} PayloadsAre(lines: seq<string>) returns (at: seq<nat>)
    ensures ArePayloads(lines, DataOf(lines), at)
    decreases |lines|
  {
    if lines == [] {
      at := [];
    } else {
      var later := PayloadsAre(lines[1..]);
      var rest := DataOf(lines[1..]);
      LaterPayloads(if IsData(lines[0]) then "" else lines[0], lines[1..], rest, later);
      if IsData(lines[0]) { FirstPayload(lines[0][|DATA|..], lines[1..], rest, later); }
      hide ArePayloads;
      assert lines == [lines[0]] + lines[1..] && [] + rest == rest;
      assert IsData(lines[0]) ==> lines[0] == DATA + lines[0][|DATA|..];
      at := if IsData(lines[0]) then [0] + Moved(later) else Moved(later);
    }
  }

  lemma {:induction false} LinesShift(a: string, b: string, start: nat, i: nat)
    requires start <= i <= |b|
    ensures LinesFrom(a + b, |a| + start, |a| + i) == LinesFrom(b, start, i)
    decreases |b| - i
  {
    assert (a + b)[|a| + start..] == b[start..];
    if i < |b| {
      assert (a + b)[|a| + i] == b[i] && (a + b)[|a| + start..|a| + i] == b[start..i];
      LinesShift(a, b, if b[i] == '\n' then i + 1 else start, i + 1);
    }
  }

  lemma {:induction false} LineEnds(line: string, tail: string, i: nat)
    requires OneLine(line) && i <= |line|
    ensures LinesFrom(line + "\n" + tail, 0, i) == [line] + Lines(tail)
    decreases |line| - i
  {
    var s := line + "\n" + tail;
    if i == |line| {
      assert s[i] == '\n' && s[0..i] == line;
      LinesShift(line + "\n", tail, 0, 0);
    } else {
      assert s[i] == line[i];
      LineEnds(line, tail, i + 1);
    }
  }

  /** The lines of a frame are the ones it was made of. */
  lemma {:induction false} LinesOfJoin(lines: seq<string>)
    requires lines != [] && forall k :: 0 <= k < |lines| ==> OneLine(lines[k])
    ensures Lines(Join("\n", lines)) == lines
    decreases |lines|
  {
    if |lines| == 1 {
      OneLineIs(lines[0], 0, 0);
      assert lines[0][0..] == lines[0];
    } else {
      JoinHead("\n", lines);
      LineEnds(lines[0], Join("\n", lines[1..]), 0);
      LinesOfJoin(lines[1..]);
      assert lines == [lines[0]] + lines[1..];
    }
  }

  /** Lines with something in them make a frame. */
  predicate FullLines(lines: seq<string>) {
    lines != [] && forall k :: 0 <= k < |lines| ==> lines[k] != [] && OneLine(lines[k])
  }

  lemma {:induction false} LinesMakeFrame(lines: seq<string>)
    requires FullLines(lines)
    ensures Frame(Join("\n", lines)) && Join("\n", lines) != [] && Join("\n", lines)[0] != '\n'
    decreases |lines|
  {
    var text := Join("\n", lines);
    if |lines| == 1 {
      assert text == lines[0];
    } else {
      JoinHead("\n", lines);
      LinesMakeFrame(lines[1..]);
      var first, rest := lines[0], Join("\n", lines[1..]);
      assert text == first + "\n" + rest;
      forall k: nat ensures !SeparatorAt(text, k) {
        if k + 1 < |text| {
          assert k < |first| ==> text[k] == first[k];
          assert k > |first| ==> text[k] == rest[k - |first| - 1] && text[k + 1] == rest[k - |first|];
          assert k > |first| ==> !SeparatorAt(rest, k - |first| - 1);
        }
      }
    }
  }

  function Texts(frames: seq<seq<string>>): (texts: seq<string>)
    ensures |texts| == |frames| && forall k :: 0 <= k < |frames| ==> texts[k] == Join("\n", frames[k])
  {
    seq(|frames|, k requires 0 <= k < |frames| => Join("\n", frames[k]))
  }

  function AllLines(frames: seq<seq<string>>): seq<string> {
    if frames == [] then [] else frames[0] + AllLines(frames[1..])
  }

  lemma {:induction false} DataConcat(a: seq<string>, b: seq<string>)
    ensures DataOf(a + b) == DataOf(a) + DataOf(b)
    decreases |a|
  {
    if a == [] {
      assert a + b == b;
    } else {
      hide IsData;
      assert (a + b)[1..] == a[1..] + b;
      DataConcat(a[1..], b);
      var first := if IsData(a[0]) then [a[0][|DATA|..]] else [];
      Assoc(first, DataOf(a[1..]), DataOf(b));
    }
  }

  lemma {:induction false} EventsOfTexts(frames: seq<seq<string>>)
    requires forall k :: 0 <= k < |frames| ==> FullLines(frames[k])
    ensures Events(Texts(frames)) == DataOf(AllLines(frames))
    decreases |frames|
  {
    hide Join, Lines, DataOf;
    if frames == [] {
      NoData();
    } else {
      assert Texts(frames)[1..] == Texts(frames[1..]);
      LinesOfJoin(frames[0]);
      EventsOfTexts(frames[1..]);
      DataConcat(frames[0], AllLines(frames[1..]));
    }
  }

  lemma {:induction false} NoData()
    ensures DataOf([]) == []
  {
  }

  /** However the network cuts a stream of such frames, the events are the payloads of all their data
      lines, in order. */
  lemma {:induction false} FramesRoundTrip(frames: seq<seq<string>>, chunks: seq<string>) returns (at: seq<nat>)
    requires forall k :: 0 <= k < |frames| ==> FullLines(frames[k])
    requires Joined(chunks) == Glue(Texts(frames))
    ensures Drain(Joined(chunks)).1 == "" && ArePayloads(AllLines(frames), Events(Drain(Joined(chunks)).0), at)
  {
    hide Frame, Glue, Events, Joined, Join, DataOf, ArePayloads;
    forall k | 0 <= k < |frames| ensures Frame(Texts(frames)[k]) { LinesMakeFrame(frames[k]); }
    OnlySplit(Texts(frames), "");
    assert Glue(Texts(frames)) + "" == Glue(Texts(frames));
    EventsOfTexts(frames);
    at := PayloadsAre(AllLines(frames));
  }
}
