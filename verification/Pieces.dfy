/** Blocks to pieces (`_split_para`, `_split_table`, `_tail_at_boundary`): the units the
    packer puts into chunks. */
module Pieces {
  import opened Text
  import opened Lines
  import opened Blocks

  /** Where a piece comes from. The program keeps only `breakable`; the rest of the role is
      there to say which pieces may exceed the size limit. */
  datatype Role = TitleLine | Sentences | WholeTable | Rows(count: nat) | WholeFence | Carry

  /** The first `repeated` characters of `text` occur in an earlier piece too: a repeated
      table header, or all of an overlap carry. */
  datatype Piece = Piece(
    text: string, start: nat, end: nat, path: string, page: Option<nat>, role: Role, repeated: nat)
  {
    predicate Breakable() { role == TitleLine || role == Sentences || role == Carry }
    /** The part of the text that is new. */
    function Own(): string { if repeated <= |text| then text[repeated..] else [] }
  }

  function OwnInk(pieces: seq<Piece>): string {
    if pieces == [] then [] else OwnInk(pieces[..|pieces| - 1]) + Ink(pieces[|pieces| - 1].Own())
  }

  lemma {:induction false} OwnInkConcat(a: seq<Piece>, b: seq<Piece>)
    ensures OwnInk(a + b) == OwnInk(a) + OwnInk(b)
  {
    hide Piece.Own, Ink;
    if b == [] {
      assert a + b == a;
    } else {
      assert (a + b)[..|a + b| - 1] == a + b[..|b| - 1];
      OwnInkConcat(a, b[..|b| - 1]);
    }
  }

  lemma {:induction false} OwnInkOfOne(p: Piece)
    ensures OwnInk([p]) == Ink(p.Own())
  {
    assert [p][..0] == [];
  }

  // ----- what every piece satisfies -----

  /** A piece may exceed the limit only if it is a heading line, a code fence, a whole table
      or a single table row under its header. */
  predicate Unsplittable(p: Piece) {
    p.role == TitleLine || p.role == WholeFence || p.role == WholeTable || p.role == Rows(1)
  }

  /** Breakable text starts and ends with ink and spans exactly the lines it claims. */
  predicate PieceOk(p: Piece, max: nat) {
    && p.start <= p.end
    && (|p.text| <= max || Unsplittable(p))
    && (p.Breakable() ==> Trimmed(p.text) && p.end == p.start + Newlines(p.text))
    && (p.role.Rows? || p.repeated == if p.role == Carry then |p.text| else 0)
  }

  predicate Ordered(pieces: seq<Piece>) {
    forall i, j :: 0 <= i < j < |pieces| ==> pieces[i].end <= pieces[j].start
  }

  predicate Covers(pieces: seq<Piece>, line: nat) {
    exists k :: 0 <= k < |pieces| && pieces[k].start <= line <= pieces[k].end
  }

  /** What the pieces hold anew comes from the lines they claim: `above` tells how much ink lies
      above a line, and `base` how much there is before the pieces. */
  predicate Anchored(above: nat -> nat, pieces: seq<Piece>, base: nat) {
    forall k :: 0 <= k < |pieces| ==>
      above(pieces[k].start) <= base + |OwnInk(pieces[..k])| &&
      base + |OwnInk(pieces[..k + 1])| <= above(pieces[k].end + 1)
  }

  lemma {:induction false} AnchoredOne(above: nat -> nat, p: Piece, base: nat)
    requires above(p.start) <= base && base + |Ink(p.Own())| <= above(p.end + 1)
    ensures Anchored(above, [p], base)
  {
    OwnInkOfOne(p);
    assert [p][..0] == [] && [p][..1] == [p];
  }

  lemma {:induction false} AnchoredConcat(above: nat -> nat, a: seq<Piece>, b: seq<Piece>, base: nat)
    requires Anchored(above, a, base) && Anchored(above, b, base + |OwnInk(a)|)
    ensures Anchored(above, a + b, base)
  {
    hide OwnInk;
    forall k | 0 <= k < |a + b|
      ensures above((a + b)[k].start) <= base + |OwnInk((a + b)[..k])|
      ensures base + |OwnInk((a + b)[..k + 1])| <= above((a + b)[k].end + 1)
    {
      if k < |a| {
        assert (a + b)[..k] == a[..k] && (a + b)[..k + 1] == a[..k + 1];
      } else {
        var j := k - |a|;
        assert (a + b)[..k] == a + b[..j] && (a + b)[..k + 1] == a + b[..j + 1] && (a + b)[k] == b[j];
        OwnInkConcat(a, b[..j]);
        OwnInkConcat(a, b[..j + 1]);
      }
    }
  }

  /** How much ink of the block lies above a line. */
  function InkAbove(b: Block, line: nat): nat {
    |InkLines(b.lines[..Min(|b.lines|, Max(0, line - b.start))])|
  }

  function InkIn(b: Block): nat -> nat { (line: nat) => InkAbove(b, line) }

  lemma {:induction false} InkInAt(b: Block, n: nat)
    requires n <= |b.lines|
    ensures InkIn(b)(b.start + n) == |InkLines(b.lines[..n])|
  {
    assert InkIn(b)(b.start + n) == InkAbove(b, b.start + n);
  }

  lemma {:induction false} InkInEnds(b: Block)
    requires |b.lines| == b.end - b.start + 1
    ensures InkIn(b)(b.start) == 0 && InkIn(b)(b.end + 1) == |InkLines(b.lines)|
  {
    InkInAt(b, 0);
    InkInAt(b, |b.lines|);
    assert b.lines[..|b.lines|] == b.lines && b.lines[..0] == [];
  }

  /** `pieces` are a faithful cut of block `b`: same path and page, within its lines and in
      their order, each line in some piece, the ink of the block exactly once, and in each piece
      ink of its own lines only. */
  predicate CutOf(b: Block, pieces: seq<Piece>, max: nat) {
    && (forall k :: 0 <= k < |pieces| ==>
          && PieceOk(pieces[k], max) && pieces[k].role != Carry && (pieces[k].role == TitleLine <==> b.kind == Title)
          && pieces[k].path == b.path && pieces[k].page == b.page
          && b.start <= pieces[k].start && pieces[k].end <= b.end)
    && Ordered(pieces)
    && (forall line :: b.start <= line <= b.end ==> Covers(pieces, line))
    && OwnInk(pieces) == InkLines(b.lines) && Anchored(InkIn(b), pieces, 0)
  }

  lemma {:induction false} CutOfOne(b: Block, p: Piece, max: nat)
    requires PieceOk(p, max) && p.role != Carry && (p.role == TitleLine <==> b.kind == Title)
    requires p.path == b.path && p.page == b.page && p.start == b.start && p.end == b.end
    requires Ink(p.Own()) == InkLines(b.lines) && |b.lines| == b.end - b.start + 1
    ensures CutOf(b, [p], max)
  {
    InkInEnds(b);
    AnchoredOne(InkIn(b), p, 0);
    OwnInkOfOne(p);
    forall line | b.start <= line <= b.end ensures Covers([p], line) {
      assert [p][0] == p;
    }
  }

  // ----- paragraphs -----

  /** A stretch of a text with its outer white space trimmed away. */
  datatype Span = Span(s: nat, e: nat)

  function Trim(text: string, pos: nat, end: nat): (r: Span)
    requires pos <= end <= |text|
  {
    var raw := text[pos..end];
    var lead := |raw| - |LStrip(raw)|;
    Span(pos + lead, pos + lead + |Strip(raw)|)
  }

  lemma {:induction false} SliceOfSlice(text: string, pos: nat, end: nat, lead: nat, len: nat)
    requires pos <= end <= |text| && lead + len <= end - pos
    ensures text[pos..end][lead..lead + len] == text[pos + lead..pos + lead + len]
  {
    var u, v := text[pos..end][lead..lead + len], text[pos + lead..pos + lead + len];
    forall k | 0 <= k < len ensures u[k] == v[k] {
      assert text[pos..end][lead + k] == text[pos + lead + k];
    }
  }

  lemma {:induction false} TrimFacts(text: string, pos: nat, end: nat)
    requires pos <= end <= |text|
    ensures var r := Trim(text, pos, end);
            && pos <= r.s <= r.e <= end && text[r.s..r.e] == Strip(text[pos..end])
            && Ink(text[r.s..r.e]) == Ink(text[pos..end]) && (r.s < r.e ==> Trimmed(text[r.s..r.e]))
            && forall k :: pos <= k < end && !IsSpace(text[k]) ==> r.s <= k < r.e
  {
    hide IsSpace, Ink;
    var raw := text[pos..end];
    var lead := |raw| - |LStrip(raw)|;
    var r := Trim(text, pos, end);
    StripFacts(raw);
    var len := |Strip(raw)|;
    assert r == Span(pos + lead, pos + lead + len);
    SliceOfSlice(text, pos, end, lead, len);
    TrimKeepsInk(raw, lead, len);
    forall k | pos <= k < end && !IsSpace(text[k]) ensures r.s <= k < r.e {
      assert raw[k - pos] == text[k];
    }
  }

  lemma {:induction false} TrimKeepsInk(raw: string, lead: nat, n: nat)
    requires lead + n <= |raw| && Ink(raw[lead..lead + n]) == Ink(raw)
    ensures forall k :: 0 <= k < |raw| && !IsSpace(raw[k]) ==> lead <= k < lead + n
  {
    assert raw == raw[..lead] + raw[lead..lead + n] + raw[lead + n..];
    InkConcat(raw[..lead] + raw[lead..lead + n], raw[lead + n..]);
    InkConcat(raw[..lead], raw[lead..lead + n]);
    assert |Ink(raw[..lead])| + |Ink(raw[lead + n..])| == 0;
    forall k | 0 <= k < |raw| && !(lead <= k < lead + n) ensures IsSpace(raw[k]) {
      if k < lead {
        InkIsEmpty(raw[..lead], k);
      } else {
        InkIsEmpty(raw[lead + n..], k - lead - n);
      }
    }
  }

  /** Position right after the last boundary among the first `n` characters of `w`, or 0. */
  function LastBoundary(w: string, n: nat): (cut: nat)
    requires n <= |w|
    ensures cut <= n
  {
    if n == 0 then 0 else if IsBoundary(w, n - 1) then n else LastBoundary(w, n - 1)
  }

  /** Where the window that starts at `pos` is cut: at its last boundary, else hard. */
  function CutAfter(text: string, pos: nat, eff: nat): (end: nat)
    requires pos < |text| && eff > 0
    ensures pos < end <= |text| && end <= pos + eff
  {
    if |text| - pos <= eff then |text|
    else
      var cut := LastBoundary(text[pos..pos + eff], eff);
      pos + if cut > 0 then cut else eff
  }

  function StripAll(lines: seq<string>): (r: seq<string>)
    ensures |r| == |lines| && forall k :: 0 <= k < |r| ==> r[k] == Strip(lines[k])
  {
    if lines == [] then [] else StripAll(lines[..|lines| - 1]) + [Strip(lines[|lines| - 1])]
  }

  function SpanPiece(b: Block, text: string, t: Span): Piece
    requires t.s < t.e <= |text|
  {
    Piece(text[t.s..t.e], b.start + Newlines(text[..t.s]), b.start + Newlines(text[..t.e - 1]),
          b.path, b.page, Sentences, 0)
  }

  /** The pieces of the paragraph text from `pos` on. */
  function ParaPieces(b: Block, text: string, eff: nat, pos: nat): seq<Piece>
    requires pos <= |text| && eff > 0
    decreases |text| - pos
  {
    if pos == |text| then []
    else
      var end := CutAfter(text, pos, eff);
      var t := Trim(text, pos, end);
      (if t.s < t.e then [SpanPiece(b, text, t)] else []) + ParaPieces(b, text, eff, end)
  }

  function WindowSize(max: nat, overlap: nat): (eff: nat)
    requires max > 0
    ensures 0 < eff <= max
  {
    Max(Max(max - overlap - 2, max / 4), 1)
  }

  function ParaText(b: Block): string { Join(NEWLINE, StripAll(b.lines)) }

  function SplitParaSpec(b: Block, max: nat, overlap: nat): seq<Piece>
    requires max > 0
  {
    var text := ParaText(b);
    if |text| <= max then [Piece(text, b.start, b.end, b.path, b.page, Sentences, 0)]
    else ParaPieces(b, text, WindowSize(max, overlap), 0)
  }

  /** `_char_lines`: the line of every character. */
  method CharLines(text: string, firstLine: nat) returns (out: seq<nat>)
    ensures |out| == |text|
    ensures forall k :: 0 <= k < |text| ==> out[k] == firstLine + Newlines(text[..k])
  {
    out := [];
    var ln := firstLine;
    for k := 0 to |text|
      invariant |out| == k && ln == firstLine + Newlines(text[..k])
      invariant forall m :: 0 <= m < k ==> out[m] == firstLine + Newlines(text[..m])
    {
      out := out + [ln];
      assert text[..k + 1][..k] == text[..k];
      if text[k] == '\n' {
        ln := ln + 1;
      }
    }
    assert text[..|text|] == text;
  }

  /** The loop over all boundary matches of a window: the last one wins. */
  method FindCut(text: string, pos: nat, eff: nat) returns (end: nat)
    requires pos < |text| && eff > 0
    ensures pos < end <= |text| && end == CutAfter(text, pos, eff)
  {
    if |text| - pos <= eff {
      return |text|;
    }
    var w := text[pos..pos + eff];
    var cut := 0;
    for k := 0 to |w|
      invariant cut == LastBoundary(w, k)
    {
      if IsBoundary(w, k) {
        cut := k + 1;
      }
    }
    end := pos + if cut > 0 then cut else eff;
  }

  /** `_split_para`. */
  method SplitPara(b: Block, max: nat, overlap: nat) returns (pieces: seq<Piece>)
    requires max > 0
    ensures pieces == SplitParaSpec(b, max, overlap)
  {
    var text := ParaText(b);
    if |text| <= max {
      return [Piece(text, b.start, b.end, b.path, b.page, Sentences, 0)];
    }
    pieces := SplitText(b, text, WindowSize(max, overlap));
  }

  lemma {:induction false} ParaUnfold(b: Block, text: string, eff: nat, pos: nat)
    requires pos < |text| && eff > 0
    ensures var end := CutAfter(text, pos, eff);
            var t := Trim(text, pos, end);
            && t.s <= t.e <= |text|
            && ParaPieces(b, text, eff, pos) ==
               (if t.s < t.e then [SpanPiece(b, text, t)] else []) + ParaPieces(b, text, eff, end)
  {
    TrimFacts(text, pos, CutAfter(text, pos, eff));
  }

  /** One turn of the window loop: the piece cut at `pos`, if any, and the next position. */
  method NextPiece(b: Block, text: string, eff: nat, lineOf: seq<nat>, pos: nat) returns (found: seq<Piece>, end: nat)
    requires pos < |text| == |lineOf| && eff > 0
    requires forall k :: 0 <= k < |text| ==> lineOf[k] == b.start + Newlines(text[..k])
    ensures pos < end <= |text| && ParaPieces(b, text, eff, pos) == found + ParaPieces(b, text, eff, end)
  {
    hide Newlines, Trim, CutAfter, ParaPieces;
    end := FindCut(text, pos, eff);
    var t := Trim(text, pos, end);
    ParaUnfold(b, text, eff, pos);
    found := [];
    if t.s < t.e {
      found := [Piece(text[t.s..t.e], lineOf[t.s], lineOf[t.e - 1], b.path, b.page, Sentences, 0)];
      assert found[0] == SpanPiece(b, text, t);
    }
  }

  /** The window loop of `_split_para`. */
  method SplitText(b: Block, text: string, eff: nat) returns (pieces: seq<Piece>)
    requires eff > 0
    ensures pieces == ParaPieces(b, text, eff, 0)
  {
    var lineOf := CharLines(text, b.start);
    pieces := [];
    var pos := 0;
    assert ParaPieces(b, text, eff, |text|) == [];
    hide Newlines, ParaPieces;
    while pos < |text|
      invariant pos <= |text|
      invariant ParaPieces(b, text, eff, 0) == pieces + ParaPieces(b, text, eff, pos)
    {
      var found, end := NextPiece(b, text, eff, lineOf, pos);
      Assoc(pieces, found, ParaPieces(b, text, eff, end));
      pieces, pos := pieces + found, end;
    }
  }

  lemma {:induction false} NewlinesUpTo(text: string, i: nat, j: nat)
    requires i <= j <= |text|
    ensures Newlines(text[..j]) == Newlines(text[..i]) + Newlines(text[i..j])
  {
    assert text[..j] == text[..i] + text[i..j];
    NewlinesConcat(text[..i], text[i..j]);
  }

  lemma {:induction false} SpanPieceOk(b: Block, text: string, t: Span, max: nat)
    requires t.s < t.e <= |text| && Trimmed(text[t.s..t.e]) && t.e - t.s <= max
    ensures PieceOk(SpanPiece(b, text, t), max)
  {
    NewlinesUpTo(text, t.s, t.e - 1);
    var seg := text[t.s..t.e];
    assert seg[..|seg| - 1] == text[t.s..t.e - 1];
    assert !IsSpace('\n') || seg[|seg| - 1] != '\n';
  }

  /** A piece cut out of the paragraph `b` at or after line `from`. */
  predicate FromPara(b: Block, p: Piece, from: nat, max: nat) {
    && PieceOk(p, max) && p.role == Sentences && p.path == b.path && p.page == b.page
    && from <= p.start <= p.end <= b.end
  }

  /** The pieces from `pos` on: perhaps one piece for the window, then the rest. */
  lemma {:induction false} ParaStep(b: Block, text: string, eff: nat, pos: nat, max: nat)
    requires pos < |text| && 0 < eff <= max && b.end == b.start + Newlines(text)
    ensures var end := CutAfter(text, pos, eff);
            var t := Trim(text, pos, end);
            && pos <= t.s <= t.e <= end
            && ParaPieces(b, text, eff, pos) ==
               (if t.s < t.e then [SpanPiece(b, text, t)] else []) + ParaPieces(b, text, eff, end)
            && Newlines(text[..pos]) <= Newlines(text[..end])
            && (t.s < t.e ==>
                 && FromPara(b, SpanPiece(b, text, t), b.start + Newlines(text[..pos]), max)
                 && b.start + Newlines(text[..end]) >= SpanPiece(b, text, t).end)
  {
    hide IsSpace, Ink, Newlines, CutAfter, LastBoundary, Trim, Strip, LStrip, ParaText, IsBoundary;
    var end := CutAfter(text, pos, eff);
    var t := Trim(text, pos, end);
    TrimFacts(text, pos, end);
    NewlinesUpTo(text, pos, end);
    if t.s < t.e {
      SpanPieceOk(b, text, t, max);
      NewlinesUpTo(text, pos, t.s);
      NewlinesUpTo(text, t.e - 1, end);
      NewlinesUpTo(text, end, |text|);
      assert text[..|text|] == text;
    }
  }

  lemma {:induction false} ParaPiecesOk(b: Block, text: string, eff: nat, pos: nat, max: nat)
    requires pos <= |text| && 0 < eff <= max && b.end == b.start + Newlines(text)
    ensures var ps := ParaPieces(b, text, eff, pos);
            && (forall k :: 0 <= k < |ps| ==> FromPara(b, ps[k], b.start + Newlines(text[..pos]), max))
            && Ordered(ps)
    decreases |text| - pos
  {
    hide Newlines, PieceOk, CutAfter, Trim, SpanPiece;
    if pos < |text| {
      ParaStep(b, text, eff, pos, max);
      var end := CutAfter(text, pos, eff);
      var t := Trim(text, pos, end);
      var first := if t.s < t.e then [SpanPiece(b, text, t)] else [];
      var rest := ParaPieces(b, text, eff, end);
      ParaPiecesOk(b, text, eff, end, max);
      forall k | 0 <= k < |first + rest|
        ensures FromPara(b, (first + rest)[k], b.start + Newlines(text[..pos]), max)
      {
        if k >= |first| {
          assert FromPara(b, rest[k - |first|], b.start + Newlines(text[..end]), max);
        }
      }
    }
  }

  lemma {:induction false} ParaPiecesInk(b: Block, text: string, eff: nat, pos: nat)
    requires pos <= |text| && 0 < eff
    ensures OwnInk(ParaPieces(b, text, eff, pos)) == Ink(text[pos..])
    decreases |text| - pos
  {
    hide IsSpace, Ink, Newlines;
    if pos < |text| {
      var end := CutAfter(text, pos, eff);
      var t := Trim(text, pos, end);
      var rest := ParaPieces(b, text, eff, end);
      TrimFacts(text, pos, end);
      ParaPiecesInk(b, text, eff, end);
      InkSplit(text, pos, end);
      if t.s < t.e {
        var p := SpanPiece(b, text, t);
        OwnInkConcat([p], rest);
        OwnInkOfOne(p);
        assert p.Own() == p.text == text[t.s..t.e];
      } else {
        assert text[t.s..t.e] == [];
        InkOfSpaces([]);
        assert [] + rest == rest;
      }
    } else {
      InkOfSpaces(text[pos..]);
    }
  }

  /** Every visible character from `pos` on lies in a piece that covers its line. */
  lemma {:induction false} SpanCovers(b: Block, text: string, t: Span, k: nat)
    requires t.s <= k < t.e <= |text|
    ensures SpanPiece(b, text, t).start <= b.start + Newlines(text[..k]) <= SpanPiece(b, text, t).end
  {
    hide Newlines;
    NewlinesUpTo(text, t.s, k);
    NewlinesUpTo(text, k, t.e - 1);
  }

  lemma {:induction false} ParaPiecesCover(b: Block, text: string, eff: nat, pos: nat, k: nat)
    requires pos <= k < |text| && 0 < eff && !IsSpace(text[k])
    ensures Covers(ParaPieces(b, text, eff, pos), b.start + Newlines(text[..k]))
    decreases |text| - pos
  {
    hide IsSpace, Ink, Newlines;
    var end := CutAfter(text, pos, eff);
    var t := Trim(text, pos, end);
    var first := if t.s < t.e then [SpanPiece(b, text, t)] else [];
    var rest := ParaPieces(b, text, eff, end);
    var line := b.start + Newlines(text[..k]);
    TrimFacts(text, pos, end);
    assert ParaPieces(b, text, eff, pos) == first + rest;
    hide ParaPieces, Trim, CutAfter;
    if k < end {
      SpanCovers(b, text, t, k);
      assert (first + rest)[0] == SpanPiece(b, text, t);
    } else {
      ParaPiecesCover(b, text, eff, end, k);
      CoversAfter(first, rest, line);
    }
  }

  lemma {:induction false} CoversAfter(first: seq<Piece>, rest: seq<Piece>, line: nat)
    requires Covers(rest, line)
    ensures Covers(first + rest, line)
  {
    var m :| 0 <= m < |rest| && rest[m].start <= line <= rest[m].end;
    assert (first + rest)[|first| + m] == rest[m];
  }

  /** In a joined text, line `m` starts at a character with exactly `m` newlines before it. */
  lemma {:induction false} LineStart(lines: seq<string>, m: nat) returns (k: nat)
    requires AllBreakless(lines) && m < |lines| && lines[m] != []
    ensures k < |Join(NEWLINE, lines)| && Join(NEWLINE, lines)[k] == lines[m][0]
    ensures Newlines(Join(NEWLINE, lines)[..k]) == m
  {
    var text := Join(NEWLINE, lines);
    var n := |lines| - 1;
    if n == 0 {
      k := 0;
    } else if m < n {
      k := LineStart(lines[..n], m);
      assert text[..k] == Join(NEWLINE, lines[..n])[..k];
    } else {
      var front := Join(NEWLINE, lines[..n]);
      k := |front| + 1;
      assert text == front + NEWLINE + lines[n];
      assert text[..k] == front + NEWLINE;
      NewlinesConcat(front, NEWLINE);
      NewlinesOfJoin(lines[..n]);
      assert NEWLINE[..0] == [];
    }
  }

  /** In a joined text, the ink up to a character is all the ink of the lines before its line and
      no more than the ink of its line besides. */
  lemma {:induction false} InkByLine(lines: seq<string>, j: nat)
    requires AllBreakless(lines) && lines != [] && j <= |Join(NEWLINE, lines)|
    ensures
      var start := Join(NEWLINE, lines)[..j];
      var n := Newlines(start);
      n < |lines| && |InkLines(lines[..n])| <= |Ink(start)| <= |InkLines(lines[..n + 1])|
  {
    hide IsSpace, Breakless, Ink, Newlines;
    var text, m := Join(NEWLINE, lines), |lines| - 1;
    if m > 0 && j <= |Join(NEWLINE, lines[..m])| {
      InkByLine(lines[..m], j);
      var n := Newlines(text[..j]);
      assert text[..j] == Join(NEWLINE, lines[..m])[..j];
      assert lines[..m][..n] == lines[..n] && lines[..m][..n + 1] == lines[..n + 1];
    } else {
      var before := if m == 0 then [] else Join(NEWLINE, lines[..m]) + NEWLINE;
      assert text == before + lines[m];
      LastLineInk(lines, before, j - |before|);
      assert text[..j] == before + lines[m][..j - |before|];
    }
  }

  lemma {:induction false} LastLineInk(lines: seq<string>, before: string, i: nat)
    requires AllBreakless(lines) && lines != [] && i <= |lines[|lines| - 1]|
    requires before == if |lines| == 1 then [] else Join(NEWLINE, lines[..|lines| - 1]) + NEWLINE
    ensures
      var m := |lines| - 1;
      var start := before + lines[m][..i];
      Newlines(start) == m && |InkLines(lines[..m])| <= |Ink(start)| <= |InkLines(lines[..m + 1])|
  {
    var m := |lines| - 1;
    var line := lines[m];
    NewlinesOfBreakless(line[..i]);
    FrontLines(lines[..m]);
    hide IsSpace, Ink, Newlines, InkLines, Join, Breakless;
    NewlinesConcat(before, line[..i]);
    InkConcat(before, line[..i]);
    assert line == line[..i] + line[i..];
    InkConcat(line[..i], line[i..]);
    assert lines[..m + 1] == lines[..m] + [line];
    InkLinesConcat(lines[..m], [line]);
    InkLinesOfOne(line);
  }

  /** All the lines before a line, joined up to its start. */
  lemma {:induction false} FrontLines(lines: seq<string>)
    requires AllBreakless(lines)
    ensures
      var before := if lines == [] then [] else Join(NEWLINE, lines) + NEWLINE;
      Newlines(before) == |lines| && Ink(before) == InkLines(lines)
  {
    if lines != [] {
      NewlinesOfJoin(lines);
      NewlinesConcat(Join(NEWLINE, lines), NEWLINE);
      assert NEWLINE[..0] == [];
      InkOfJoin(NEWLINE, lines);
      InkConcat(Join(NEWLINE, lines), NEWLINE);
      InkOfSpaces(NEWLINE);
    } else {
      InkOfSpaces([]);
    }
  }

  lemma {:induction false} StripAllInk(lines: seq<string>)
    ensures InkLines(StripAll(lines)) == InkLines(lines)
  {
    if lines != [] {
      var n := |lines| - 1;
      StripAllInk(lines[..n]);
      StripFacts(lines[n]);
      assert StripAll(lines)[..n] == StripAll(lines[..n]);
    }
  }

  /** The lines of a paragraph block: no line breaks, no blank line. */
  predicate ParaLines(b: Block) {
    && b.kind == Para && b.lines != [] && b.end == b.start + |b.lines| - 1
    && AllBreakless(b.lines) && forall k :: 0 <= k < |b.lines| ==> !Blank(b.lines[k])
  }

  lemma {:induction false} JoinTrimmed(lines: seq<string>)
    requires lines != [] && forall k :: 0 <= k < |lines| ==> Trimmed(lines[k])
    ensures Trimmed(Join(NEWLINE, lines))
  {
    if |lines| > 1 {
      JoinTrimmed(lines[..|lines| - 1]);
    }
  }

  lemma {:induction false} ParaTextFacts(b: Block)
    requires ParaLines(b)
    ensures AllBreakless(StripAll(b.lines)) && Trimmed(ParaText(b))
    ensures b.end == b.start + Newlines(ParaText(b)) && Ink(ParaText(b)) == InkLines(b.lines)
  {
    var lines := StripAll(b.lines);
    forall k | 0 <= k < |lines| ensures Breakless(lines[k]) && Trimmed(lines[k]) {
      StripBreakless(b.lines[k]);
      StripFacts(b.lines[k]);
    }
    JoinTrimmed(lines);
    NewlinesOfJoin(lines);
    InkOfJoin(NEWLINE, lines);
    StripAllInk(b.lines);
  }

  lemma {:induction false} ParaCovered(b: Block, eff: nat, line: nat)
    requires ParaLines(b) && 0 < eff && b.start <= line <= b.end
    ensures Covers(ParaPieces(b, ParaText(b), eff, 0), line)
  {
    hide IsSpace, Ink, Newlines, LStrip, RStrip, ParaPieces, Join, Breakless;
    ParaTextFacts(b);
    var lines := StripAll(b.lines);
    var m := line - b.start;
    assert lines[m] == Strip(b.lines[m]) && lines[m] != [];
    StripFacts(b.lines[m]);
    var k := LineStart(lines, m);
    ParaPiecesCover(b, ParaText(b), eff, 0, k);
  }

  /** The ink of the paragraph above one of its lines. */
  lemma {:induction false} ParaInkIn(b: Block, n: nat)
    requires n <= |b.lines|
    ensures InkIn(b)(b.start + n) == |InkLines(StripAll(b.lines)[..n])|
  {
    StripAllInk(b.lines[..n]);
    InkInAt(b, n);
    assert StripAll(b.lines)[..n] == StripAll(b.lines[..n]);
  }

  lemma {:induction false} NewlinesToEnd(text: string, e: nat)
    requires 0 < e <= |text| && !IsSpace(text[e - 1])
    ensures Newlines(text[..e]) == Newlines(text[..e - 1])
  {
    assert text[..e][..e - 1] == text[..e - 1];
  }

  lemma {:induction false} InkAtLine(b: Block, j: nat)
    requires ParaLines(b) && j <= |ParaText(b)|
    ensures
      var start := ParaText(b)[..j];
      InkIn(b)(b.start + Newlines(start)) <= |Ink(start)| <= InkIn(b)(b.start + Newlines(start) + 1)
  {
    ParaTextFacts(b);
    hide IsSpace, Ink, Newlines, Join, InkIn, InkLines, ParaLines, AllBreakless;
    var lines := StripAll(b.lines);
    hide StripAll;
    InkByLine(lines, j);
    var n := Newlines(ParaText(b)[..j]);
    ParaInkIn(b, n);
    ParaInkIn(b, n + 1);
  }

  lemma {:induction false} SpanAnchored(b: Block, t: Span)
    requires ParaLines(b) && t.s < t.e <= |ParaText(b)| && !IsSpace(ParaText(b)[t.e - 1])
    ensures InkIn(b)(SpanPiece(b, ParaText(b), t).start) <= |Ink(ParaText(b)[..t.s])|
    ensures |Ink(ParaText(b)[..t.e])| <= InkIn(b)(SpanPiece(b, ParaText(b), t).end + 1)
  {
    hide IsSpace, Ink, InkIn, ParaLines, ParaText;
    NewlinesToEnd(ParaText(b), t.e);
    hide Newlines;
    InkAtLine(b, t.s);
    InkAtLine(b, t.e);
  }

  /** Trimmed spans start and end with ink, and skip none. */
  lemma {:induction false} TrimEnds(text: string, pos: nat, end: nat)
    requires pos <= end <= |text|
    ensures
      var t := Trim(text, pos, end);
      && pos <= t.s <= t.e <= end && Ink(text[pos..end]) == Ink(text[t.s..t.e])
      && Ink(text[..end]) == Ink(text[..pos]) + Ink(text[t.s..t.e])
      && (t.s < t.e ==>
            !IsSpace(text[t.e - 1]) && Ink(text[..t.s]) == Ink(text[..pos]) && Ink(text[..t.e]) == Ink(text[..end]))
  {
    hide IsSpace, Ink, Trim;
    var t := Trim(text, pos, end);
    TrimFacts(text, pos, end);
    assert text[..end] == text[..pos] + text[pos..end];
    InkConcat(text[..pos], text[pos..end]);
    if t.s < t.e {
      assert text[t.s..t.e][t.e - t.s - 1] == text[t.e - 1];
      InkUpTo(text, pos, t.s);
      InkUpTo(text, t.s, t.e);
      InkUpTo(text, t.e, end);
      assert |Ink(text[pos..t.s])| + |Ink(text[t.e..end])| == 0;
      assert Ink(text[..t.s]) == Ink(text[..pos]) + [];
      assert Ink(text[..end]) == Ink(text[..t.e]) + [];
    }
  }

  lemma {:induction false} InkUpTo(text: string, i: nat, j: nat)
    requires i <= j <= |text|
    ensures Ink(text[..j]) == Ink(text[..i]) + Ink(text[i..j])
  {
    assert text[..j] == text[..i] + text[i..j];
    InkConcat(text[..i], text[i..j]);
  }

  lemma {:induction false} ParaPiecesAnchored(b: Block, eff: nat, pos: nat)
    requires ParaLines(b) && pos <= |ParaText(b)| && 0 < eff
    ensures Anchored(InkIn(b), ParaPieces(b, ParaText(b), eff, pos), |Ink(ParaText(b)[..pos])|)
    decreases |ParaText(b)| - pos
  {
    hide IsSpace, Ink, Newlines, ParaText, InkIn, Trim, CutAfter, Anchored, ParaPieces, SpanPiece;
    var text := ParaText(b);
    if pos < |text| {
      var end := CutAfter(text, pos, eff);
      var t := Trim(text, pos, end);
      var rest := ParaPieces(b, text, eff, end);
      ParaUnfold(b, text, eff, pos);
      TrimEnds(text, pos, end);
      ParaPiecesAnchored(b, eff, end);
      if t.s < t.e {
        SpanAnchored(b, t);
        var p := SpanPiece(b, text, t);
        assert p.Own() == text[t.s..t.e] by { SpanOwn(b, text, t); }
        AnchoredOne(InkIn(b), p, |Ink(text[..pos])|);
        OwnInkOfOne(p);
        AnchoredConcat(InkIn(b), [p], rest, |Ink(text[..pos])|);
      } else {
        assert text[t.s..t.e] == [] && [] + rest == rest;
        InkOfSpaces([]);
      }
    } else {
      NoneAnchored(b, text, eff, |Ink(text)|);
      assert text[..pos] == text;
    }
  }

  lemma {:induction false} SpanOwn(b: Block, text: string, t: Span)
    requires t.s < t.e <= |text|
    ensures SpanPiece(b, text, t).Own() == text[t.s..t.e]
  {
  }

  lemma {:induction false} NoneAnchored(b: Block, text: string, eff: nat, base: nat)
    requires 0 < eff
    ensures Anchored(InkIn(b), ParaPieces(b, text, eff, |text|), base)
  {
  }

  lemma {:induction false} ParaPiecesCut(b: Block, eff: nat, max: nat)
    requires ParaLines(b) && 0 < eff <= max
    ensures CutOf(b, ParaPieces(b, ParaText(b), eff, 0), max)
  {
    hide IsSpace, Ink, Newlines, PieceOk, Anchored, InkIn, ParaPieces, Covers, Join, StripAll;
    var text := ParaText(b);
    ParaTextFacts(b);
    hide ParaText;
    ParaPiecesOk(b, text, eff, 0, max);
    ParaPiecesInk(b, text, eff, 0);
    ParaPiecesAnchored(b, eff, 0);
    InkOfSpaces([]);
    assert text[0..] == text && text[..0] == [];
    forall line | b.start <= line <= b.end ensures Covers(ParaPieces(b, text, eff, 0), line) {
      ParaCovered(b, eff, line);
    }
  }

  /** Cutting a paragraph is faithful. */
  lemma {:induction false} SplitParaIsCut(b: Block, max: nat, overlap: nat)
    requires max > 0 && ParaLines(b)
    ensures CutOf(b, SplitParaSpec(b, max, overlap), max)
  {
    hide IsSpace, Ink, Newlines, ParaText;
    var text := ParaText(b);
    ParaTextFacts(b);
    if |text| <= max {
      CutOfOne(b, Piece(text, b.start, b.end, b.path, b.page, Sentences, 0), max);
    } else {
      ParaPiecesCut(b, WindowSize(max, overlap), max);
    }
  }

  // ----- where a paragraph is cut -----

  /** A boundary lies right before position `d` of the window of `eff` characters at `c`. */
  predicate EndsWell(text: string, eff: nat, c: nat, d: nat)
    requires c < d <= c + eff <= |text|
  {
    IsBoundary(text[c..c + eff], d - c - 1)
  }

  /** The cut after `c`: the end of the text if the window reaches it, else right after the last
      boundary of the window, else behind the whole window. */
  predicate IsNextCut(text: string, eff: nat, c: nat, d: nat) {
    && c < d <= |text|
    && if |text| - c <= eff then d == |text|
       else
         && d <= c + eff && (forall e :: d < e <= c + eff ==> !EndsWell(text, eff, c, e))
         && (EndsWell(text, eff, c, d) ||
           (d == c + eff && forall e :: c < e <= c + eff ==> !EndsWell(text, eff, c, e)))
  }

  predicate AreCuts(text: string, eff: nat, pos: nat, cuts: seq<nat>) {
    && cuts != [] && cuts[0] == pos && cuts[|cuts| - 1] == |text|
    && forall i :: 0 <= i < |cuts| - 1 ==> IsNextCut(text, eff, cuts[i], cuts[i + 1])
  }

  predicate Ascending(text: string, cuts: seq<nat>) {
    forall i, j :: 0 <= i <= j < |cuts| ==> cuts[i] <= cuts[j] <= |text|
  }

  /** What lies between the cuts, trimmed, blank stretches left out. */
  function Between(text: string, cuts: seq<nat>): seq<string>
    requires Ascending(text, cuts)
    decreases |cuts|
  {
    if |cuts| < 2 then []
    else
      var part := Strip(text[cuts[0]..cuts[1]]);
      (if part == [] then [] else [part]) + Between(text, cuts[1..])
  }

  /** The larger of what overlap and separator leave of the limit and a quarter of it, at least 1. */
  predicate IsWindow(eff: nat, max: nat, overlap: nat) {
    && eff >= max - overlap - 2 && eff >= max / 4 && eff >= 1
    && (eff == max - overlap - 2 || eff == max / 4 || eff == 1)
  }

  /** There is one way to cut. */
  lemma {:induction false} CutsAreUnique(text: string, eff: nat, pos: nat, a: seq<nat>, b: seq<nat>)
    requires AreCuts(text, eff, pos, a) && AreCuts(text, eff, pos, b)
    ensures a == b
    decreases |a|
  {
    if |a| == 1 || |b| == 1 {
      assert |b| > 1 ==> IsNextCut(text, eff, b[0], b[1]);
      assert |a| > 1 ==> IsNextCut(text, eff, a[0], a[1]);
      LaterCuts(text, eff, pos, a);
      LaterCuts(text, eff, pos, b);
    } else {
      OneNextCut(text, eff, pos, a[1], b[1]);
      CutsAreUnique(text, eff, a[1], a[1..], b[1..]);
      assert a == [pos] + a[1..] && b == [pos] + b[1..];
    }
  }

  lemma {:induction false} LaterCuts(text: string, eff: nat, pos: nat, cuts: seq<nat>)
    requires AreCuts(text, eff, pos, cuts)
    ensures pos <= |text| && (pos == |text| <==> |cuts| == 1)
    decreases |cuts|
  {
    if |cuts| > 1 {
      assert IsNextCut(text, eff, cuts[0], cuts[1]);
      LaterCuts(text, eff, cuts[1], cuts[1..]);
    }
  }

  lemma {:induction false} OneNextCut(text: string, eff: nat, c: nat, d: nat, e: nat)
    requires IsNextCut(text, eff, c, d) && IsNextCut(text, eff, c, e)
    ensures d == e
  {
    if |text| - c > eff { assert EndsWell(text, eff, c, d) == EndsWell(text, eff, c, e); }
  }

  lemma {:induction false} LastBoundaryEnds(w: string, n: nat)
    requires n <= |w|
    ensures LastBoundary(w, n) > 0 ==> IsBoundary(w, LastBoundary(w, n) - 1)
  {
    if n > 0 && !IsBoundary(w, n - 1) { LastBoundaryEnds(w, n - 1); }
  }

  lemma {:induction false} NoLaterBoundary(w: string, n: nat, k: nat)
    requires n <= |w| && LastBoundary(w, n) <= k < n
    ensures !IsBoundary(w, k)
  {
    if k < n - 1 && !IsBoundary(w, n - 1) { NoLaterBoundary(w, n - 1, k); }
  }

  lemma {:induction false} CutAfterIs(text: string, pos: nat, eff: nat)
    requires pos < |text| && eff > 0
    ensures IsNextCut(text, eff, pos, CutAfter(text, pos, eff))
  {
    hide IsBoundary;
    if |text| - pos > eff {
      var w, end := text[pos..pos + eff], CutAfter(text, pos, eff);
      LastBoundaryEnds(w, eff);
      forall e | end < e <= pos + eff ensures !EndsWell(text, eff, pos, e) {
        NoLaterBoundary(w, eff, e - pos - 1);
      }
      if LastBoundary(w, eff) == 0 {
        forall e | pos < e <= pos + eff ensures !EndsWell(text, eff, pos, e) { NoLaterBoundary(w, eff, e - pos - 1); }
      }
    }
  }

  /** One more cut in front. */
  lemma {:induction false} CutsCons(text: string, eff: nat, pos: nat, end: nat, rest: seq<nat>)
    requires AreCuts(text, eff, end, rest) && Ascending(text, rest) && IsNextCut(text, eff, pos, end)
    ensures AreCuts(text, eff, pos, [pos] + rest) && Ascending(text, [pos] + rest)
    ensures
      var part := Strip(text[pos..end]);
      Between(text, [pos] + rest) == (if part == [] then [] else [part]) + Between(text, rest)
  {
    hide Strip, EndsWell;
    var cuts := [pos] + rest;
    assert cuts[1..] == rest && cuts[1] == end;
    forall i | 0 <= i < |cuts| - 1 ensures IsNextCut(text, eff, cuts[i], cuts[i + 1]) {
      if i > 0 { assert IsNextCut(text, eff, rest[i - 1], rest[i]); }
    }
  }

  /** The pieces of a paragraph from a position on are what lies between its cuts. */
  lemma {:induction false} ParaPiecesBetween(b: Block, text: string, eff: nat, pos: nat) returns (cuts: seq<nat>)
    requires pos <= |text| && eff > 0
    ensures AreCuts(text, eff, pos, cuts) && Ascending(text, cuts)
    ensures
      var ps, parts := ParaPieces(b, text, eff, pos), Between(text, cuts);
      |ps| == |parts| && forall k :: 0 <= k < |ps| ==> ps[k].text == parts[k]
    decreases |text| - pos
  {
    hide Newlines, Strip, CutAfter, Trim, IsNextCut, AreCuts, EndsWell, ParaPieces, Between, IsSpace, Ink, Trimmed;
    if pos == |text| {
      cuts := [pos];
      NoCuts(b, text, eff);
    } else {
      var end := CutAfter(text, pos, eff);
      CutAfterIs(text, pos, eff);
      ParaUnfold(b, text, eff, pos);
      TrimFacts(text, pos, end);
      var rest := ParaPiecesBetween(b, text, eff, end);
      cuts := [pos] + rest;
      CutsCons(text, eff, pos, end, rest);
      var t := Trim(text, pos, end);
      assert |text[t.s..t.e]| == t.e - t.s;
    }
  }

  lemma {:induction false} NoCuts(b: Block, text: string, eff: nat)
    requires eff > 0
    ensures AreCuts(text, eff, |text|, [|text|]) && Ascending(text, [|text|])
    ensures ParaPieces(b, text, eff, |text|) == [] && Between(text, [|text|]) == []
  {
  }

  /** `_split_para`: a paragraph that fits is one piece; else its pieces are exactly what lies
      between the cuts of its text, which are unique. */
  lemma {:induction false} ParagraphIsCutAt(b: Block, max: nat, overlap: nat) returns (eff: nat, cuts: seq<nat>)
    requires max > 0
    ensures
      var text := Join(NEWLINE, StripAll(b.lines));
      var ps := SplitParaSpec(b, max, overlap);
      if |text| <= max then |ps| == 1 && ps[0].text == text
      else
        && IsWindow(eff, max, overlap) && AreCuts(text, eff, 0, cuts) && Ascending(text, cuts)
        && |ps| == |Between(text, cuts)| && forall k :: 0 <= k < |ps| ==> ps[k].text == Between(text, cuts)[k]
  {
    eff, cuts := WindowSize(max, overlap), [];
    if |ParaText(b)| > max { cuts := ParaPiecesBetween(b, ParaText(b), eff, 0); }
    hide ParaPieces, IsNextCut, Between, Join, StripAll;
  }

  // ----- tables -----

  /** Length of the rows, each with its line break. */
  function RowsLen(rows: seq<string>): nat {
    if rows == [] then 0 else RowsLen(rows[..|rows| - 1]) + |rows[|rows| - 1]| + 1
  }

  lemma {:induction false} JoinLength(rows: seq<string>)
    requires rows != []
    ensures |Join(NEWLINE, rows)| + 1 == RowsLen(rows)
  {
    if |rows| > 1 {
      JoinLength(rows[..|rows| - 1]);
    } else {
      assert rows[..0] == [];
    }
  }

  lemma {:induction false} RowsLenConcat(a: seq<string>, b: seq<string>)
    ensures RowsLen(a + b) == RowsLen(a) + RowsLen(b)
  {
    if b == [] {
      assert a + b == a;
    } else {
      assert (a + b)[..|a + b| - 1] == a + b[..|b| - 1];
      RowsLenConcat(a, b[..|b| - 1]);
    }
  }

  /** The header row and its separator, when the table has one. */
  function HeaderOf(lines: seq<string>): (h: seq<string>)
    ensures |h| <= |lines| && h == lines[..|h|]
  {
    if |lines| >= 2 && IsTableSeparator(lines[1]) then lines[..2] else []
  }

  /** A run of table rows: line indices `lo` up to `hi`. */
  datatype Group = Group(lo: nat, hi: nat)

  /** Greedy row groups; `[lo, idx)` is the group being filled and `len` its length. */
  function RowGroups(lines: seq<string>, headerLen: nat, max: nat, lo: nat, idx: nat, len: nat): seq<Group>
    requires lo <= idx <= |lines|
    decreases |lines| - idx
  {
    if idx == |lines| then if lo < idx then [Group(lo, idx)] else []
    else
      var rowLen := |lines[idx]| + 1;
      if lo < idx && len + rowLen > max
      then [Group(lo, idx)] + RowGroups(lines, headerLen, max, idx, idx + 1, headerLen + rowLen)
      else RowGroups(lines, headerLen, max, lo, idx + 1, len + rowLen)
  }

  /** The piece of one group; every group but the first repeats the header. */
  function GroupPiece(b: Block, header: seq<string>, g: Group, first: bool): Piece
    requires g.lo < g.hi <= |b.lines|
  {
    Piece(Join(NEWLINE, header + b.lines[g.lo..g.hi]),
          if first then b.start else b.start + g.lo, b.start + g.hi - 1,
          b.path, b.page, Rows(g.hi - g.lo), if first then 0 else RowsLen(header))
  }

  predicate InLines(groups: seq<Group>, n: nat) {
    forall k :: 0 <= k < |groups| ==> groups[k].lo < groups[k].hi <= n
  }

  function GroupPieces(b: Block, header: seq<string>, groups: seq<Group>, k: nat): seq<Piece>
    requires k <= |groups| && InLines(groups, |b.lines|)
    decreases |groups| - k
  {
    if k == |groups| then []
    else [GroupPiece(b, header, groups[k], k == 0)] + GroupPieces(b, header, groups, k + 1)
  }

  function WholePiece(b: Block, role: Role): Piece {
    Piece(Join(NEWLINE, b.lines), b.start, b.end, b.path, b.page, role, 0)
  }

  function TableGroups(lines: seq<string>, max: nat): (groups: seq<Group>)
  {
    var header := HeaderOf(lines);
    RowGroups(lines, RowsLen(header), max, |header|, |header|, RowsLen(header))
  }

  /** `wholeTables` is `table_mode="whole"`. */
  function SplitTableSpec(b: Block, max: nat, wholeTables: bool): seq<Piece> {
    var header := HeaderOf(b.lines);
    TableGroupsTile(b.lines, max);
    if wholeTables || |Join(NEWLINE, b.lines)| <= max || |header| == |b.lines|
    then [WholePiece(b, WholeTable)]
    else GroupPieces(b, header, TableGroups(b.lines, max), 0)
  }

  /** `groups` partition the lines from `lo` on, in order; each fits or is a single row, and takes
      every row that fits. */
  predicate Tile(lines: seq<string>, headerLen: nat, max: nat, groups: seq<Group>, k: nat, lo: nat)
    requires k <= |groups|
    decreases |groups| - k
  {
    if k == |groups| then lo == |lines|
    else
      var g := groups[k];
      && g.lo == lo < g.hi <= |lines|
      && (headerLen + RowsLen(lines[lo..g.hi]) <= max || g.hi == lo + 1)
      && (g.hi < |lines| ==> headerLen + RowsLen(lines[lo..g.hi + 1]) > max)
      && Tile(lines, headerLen, max, groups, k + 1, g.hi)
  }

  lemma {:induction false} TileCons(lines: seq<string>, headerLen: nat, max: nat,
                                    g: Group, groups: seq<Group>, k: nat, lo: nat)
    requires k <= |groups| && Tile(lines, headerLen, max, groups, k, lo)
    ensures Tile(lines, headerLen, max, [g] + groups, k + 1, lo)
    decreases |groups| - k
  {
    hide RowsLen;
    if k < |groups| {
      TileCons(lines, headerLen, max, g, groups, k + 1, groups[k].hi);
    }
  }

  lemma {:induction false} RowsLenStep(lines: seq<string>, lo: nat, idx: nat)
    requires lo <= idx < |lines|
    ensures RowsLen(lines[lo..idx + 1]) == RowsLen(lines[lo..idx]) + |lines[idx]| + 1
  {
    assert lines[lo..idx + 1][..idx - lo] == lines[lo..idx];
  }

  lemma {:induction false} RowGroupsTile(lines: seq<string>, headerLen: nat, max: nat, lo: nat, idx: nat, len: nat)
    requires lo <= idx <= |lines| && len == headerLen + RowsLen(lines[lo..idx])
    requires len <= max || idx <= lo + 1
    ensures Tile(lines, headerLen, max, RowGroups(lines, headerLen, max, lo, idx, len), 0, lo)
    decreases |lines| - idx
  {
    hide RowsLen, Tile;
    if idx < |lines| {
      RowsLenStep(lines, lo, idx);
      var rowLen := |lines[idx]| + 1;
      if lo < idx && len + rowLen > max {
        var rest := RowGroups(lines, headerLen, max, idx, idx + 1, headerLen + rowLen);
        FirstRow(lines, idx);
        RowGroupsTile(lines, headerLen, max, idx, idx + 1, headerLen + rowLen);
        FirstGroup(lines, headerLen, max, Group(lo, idx), rest);
      } else {
        RowGroupsTile(lines, headerLen, max, lo, idx + 1, len + rowLen);
      }
    } else {
      assert lines[lo..idx] == lines[lo..];
      LastGroup(lines, headerLen, max, lo);
    }
  }

  lemma {:induction false} FirstRow(lines: seq<string>, idx: nat)
    requires idx < |lines|
    ensures RowsLen(lines[idx..idx + 1]) == |lines[idx]| + 1
  {
    RowsLenStep(lines, idx, idx);
    assert lines[idx..idx] == [];
  }

  lemma {:induction false} FirstGroup(lines: seq<string>, headerLen: nat, max: nat, g: Group, rest: seq<Group>)
    requires g.lo < g.hi < |lines| && (headerLen + RowsLen(lines[g.lo..g.hi]) <= max || g.hi == g.lo + 1)
    requires headerLen + RowsLen(lines[g.lo..g.hi + 1]) > max && Tile(lines, headerLen, max, rest, 0, g.hi)
    ensures Tile(lines, headerLen, max, [g] + rest, 0, g.lo)
  {
    hide RowsLen;
    TileCons(lines, headerLen, max, g, rest, 0, g.hi);
  }

  lemma {:induction false} LastGroup(lines: seq<string>, headerLen: nat, max: nat, lo: nat)
    requires lo <= |lines|
    requires headerLen + RowsLen(lines[lo..]) <= max || |lines| <= lo + 1
    ensures
      var groups := if lo < |lines| then [Group(lo, |lines|)] else [];
      Tile(lines, headerLen, max, groups, 0, lo)
  {
    assert lines[lo..|lines|] == lines[lo..];
    hide RowsLen;
  }

  lemma {:induction false} TileBounds(lines: seq<string>, headerLen: nat, max: nat, groups: seq<Group>, k: nat, lo: nat)
    requires k <= |groups| && Tile(lines, headerLen, max, groups, k, lo)
    ensures forall m :: k <= m < |groups| ==> groups[m].lo < groups[m].hi <= |lines|
    decreases |groups| - k
  {
    hide RowsLen;
    if k < |groups| {
      TileBounds(lines, headerLen, max, groups, k + 1, groups[k].hi);
    }
  }

  lemma {:induction false} TableGroupsTile(lines: seq<string>, max: nat)
    ensures var groups, header := TableGroups(lines, max), HeaderOf(lines);
            Tile(lines, RowsLen(header), max, groups, 0, |header|) && InLines(groups, |lines|)
  {
    var header := HeaderOf(lines);
    assert RowsLen(lines[|header|..|header|]) == 0;
    RowGroupsTile(lines, RowsLen(header), max, |header|, |header|, RowsLen(header));
    TileBounds(lines, RowsLen(header), max, TableGroups(lines, max), 0, |header|);
  }

  /** `_split_table`: fill row groups, then write each under the header. */
  method SplitTable(b: Block, max: nat, wholeTables: bool) returns (pieces: seq<Piece>)
    ensures pieces == SplitTableSpec(b, max, wholeTables)
  {
    hide RowsLen, Tile, Join, GroupPiece;
    var header := HeaderOf(b.lines);
    TableGroupsTile(b.lines, max);
    if wholeTables || |Join(NEWLINE, b.lines)| <= max || |header| == |b.lines| {
      return [WholePiece(b, WholeTable)];
    }
    var groups := FillGroups(b.lines, RowsLen(header), max, |header|);
    pieces := [];
    for k := 0 to |groups|
      invariant pieces + GroupPieces(b, header, groups, k) == GroupPieces(b, header, groups, 0)
    {
      pieces := pieces + [GroupPiece(b, header, groups[k], k == 0)];
    }
  }

  method FillGroups(lines: seq<string>, headerLen: nat, max: nat, first: nat) returns (groups: seq<Group>)
    requires first <= |lines|
    ensures groups == RowGroups(lines, headerLen, max, first, first, headerLen)
  {
    groups := [];
    var lo: nat, len: nat := first, headerLen;
    for idx := first to |lines|
      invariant lo <= idx
      invariant groups + RowGroups(lines, headerLen, max, lo, idx, len) ==
                RowGroups(lines, headerLen, max, first, first, headerLen)
    {
      var rowLen := |lines[idx]| + 1;
      if lo < idx && len + rowLen > max {
        groups := groups + [Group(lo, idx)];
        lo, len := idx, headerLen;
      }
      len := len + rowLen;
    }
    if lo < |lines| {
      groups := groups + [Group(lo, |lines|)];
    }
  }

  predicate TableLines(b: Block) {
    b.kind == Table && b.lines != [] && b.end == b.start + |b.lines| - 1
  }

  lemma {:induction false} GroupPieceOwn(b: Block, header: seq<string>, g: Group, first: bool)
    requires g.lo < g.hi <= |b.lines|
    ensures |GroupPiece(b, header, g, first).text| + 1 == RowsLen(header) + RowsLen(b.lines[g.lo..g.hi])
    ensures GroupPiece(b, header, g, first).Own() ==
            Join(NEWLINE, if first then header + b.lines[g.lo..g.hi] else b.lines[g.lo..g.hi])
  {
    var rows := b.lines[g.lo..g.hi];
    var p := GroupPiece(b, header, g, first);
    JoinLength(header + rows);
    RowsLenConcat(header, rows);
    assert RowsLen([]) == 0;
    JoinLength(rows);
    hide RowsLen, Join;
    if first {
      assert p.Own() == p.text;
    } else if header == [] {
      assert header + rows == rows;
      assert p.Own() == p.text;
    } else {
      JoinLength(header);
      JoinConcat(NEWLINE, header, rows);
      assert p.text == Join(NEWLINE, header) + NEWLINE + Join(NEWLINE, rows);
    }
  }

  lemma {:induction false} GroupPieceOk(b: Block, header: seq<string>, g: Group, first: bool, max: nat)
    requires g.lo < g.hi <= |b.lines|
    requires RowsLen(header) + RowsLen(b.lines[g.lo..g.hi]) <= max || g.hi == g.lo + 1
    ensures PieceOk(GroupPiece(b, header, g, first), max)
  {
    hide RowsLen, Join;
    GroupPieceOwn(b, header, g, first);
  }

  lemma {:induction false} GroupPieceInk(b: Block, header: seq<string>, g: Group, first: bool)
    requires g.lo < g.hi <= |b.lines|
    ensures Ink(GroupPiece(b, header, g, first).Own()) ==
            (if first then InkLines(header) else []) + InkLines(b.lines[g.lo..g.hi])
  {
    assert AllSpace(NEWLINE);
    hide Ink, IsSpace, RowsLen, Join, GroupPiece, Piece.Own;
    var rows := b.lines[g.lo..g.hi];
    GroupPieceOwn(b, header, g, first);
    InkOfJoin(NEWLINE, if first then header + rows else rows);
    InkLinesConcat(header, rows);
  }

  /** What a piece of a table repeats is the header and nothing else. */
  predicate RepeatsHeader(b: Block, p: Piece) {
    var header := HeaderOf(b.lines);
    p.repeated > 0 ==>
      header != [] && Join(NEWLINE, header) + NEWLINE <= p.text && p.repeated == |Join(NEWLINE, header)| + 1
  }

  lemma {:induction false} GroupPieceRepeats(b: Block, g: Group, first: bool)
    requires g.lo < g.hi <= |b.lines|
    ensures RepeatsHeader(b, GroupPiece(b, HeaderOf(b.lines), g, first))
  {
    var header, rows := HeaderOf(b.lines), b.lines[g.lo..g.hi];
    assert RowsLen([]) == 0;
    if header != [] {
      JoinLength(header);
      hide RowsLen, Join, HeaderOf;
      JoinConcat(NEWLINE, header, rows);
      assert Join(NEWLINE, header + rows) == (Join(NEWLINE, header) + NEWLINE) + Join(NEWLINE, rows);
    }
  }

  lemma {:induction false} GroupPiecesRepeat(b: Block, groups: seq<Group>, k: nat, q: Piece)
    requires k <= |groups| && InLines(groups, |b.lines|) && q in GroupPieces(b, HeaderOf(b.lines), groups, k)
    ensures RepeatsHeader(b, q)
    decreases |groups| - k
  {
    hide RepeatsHeader, GroupPiece, HeaderOf;
    GroupPieceRepeats(b, groups[k], k == 0);
    if q != GroupPiece(b, HeaderOf(b.lines), groups[k], k == 0) {
      GroupPiecesRepeat(b, groups, k + 1, q);
    }
  }

  /** The first piece of a table repeats nothing, the later ones its header. */
  lemma {:induction false} TableRepeatsHeader(b: Block, max: nat, wholeTables: bool, k: nat)
    requires k < |SplitTableSpec(b, max, wholeTables)|
    ensures
      var q := SplitTableSpec(b, max, wholeTables)[k];
      RepeatsHeader(b, q) && (q.repeated > 0 <==> k > 0 && HeaderOf(b.lines) != [])
  {
    var header, groups := HeaderOf(b.lines), TableGroups(b.lines, max);
    TableGroupsTile(b.lines, max);
    var ps := SplitTableSpec(b, max, wholeTables);
    hide RepeatsHeader, TableGroups, Join;
    if ps == [WholePiece(b, WholeTable)] {
      WholeRepeatsNothing(b, WholeTable);
    } else {
      GroupPiecesRepeat(b, groups, 0, ps[k]);
      GroupPieceAt(b, header, groups, 0, k);
      if header != [] { JoinLength(header); }
    }
  }

  lemma {:induction false} WholeRepeatsNothing(b: Block, role: Role)
    ensures RepeatsHeader(b, WholePiece(b, role)) && WholePiece(b, role).repeated == 0
  {
  }

  lemma {:induction false} GroupPieceAt(b: Block, header: seq<string>, groups: seq<Group>, from: nat, k: nat)
    requires from <= |groups| && InLines(groups, |b.lines|) && k < |GroupPieces(b, header, groups, from)|
    ensures from + k < |groups|
    ensures GroupPieces(b, header, groups, from)[k] == GroupPiece(b, header, groups[from + k], from + k == 0)
    decreases |groups| - from
  {
    hide GroupPiece;
    if k > 0 { GroupPieceAt(b, header, groups, from + 1, k - 1); }
  }

  /** A piece written for a group of table rows. */
  predicate FromTable(b: Block, p: Piece, from: nat, max: nat) {
    && PieceOk(p, max) && p.role.Rows? && p.path == b.path && p.page == b.page
    && from <= p.start <= p.end <= b.end
  }

  /** The pieces of the groups from `k` on hold lines `lo` and up (all lines if `k == 0`). */
  predicate GroupsCut(b: Block, header: seq<string>, groups: seq<Group>, k: nat, lo: nat, max: nat)
    requires k <= |groups| && InLines(groups, |b.lines|) && lo <= |b.lines|
  {
    var ps, first := GroupPieces(b, header, groups, k), if k == 0 then 0 else lo;
    && (forall m :: 0 <= m < |ps| ==> FromTable(b, ps[m], b.start + first, max))
    && Ordered(ps)
    && (forall line :: b.start + first <= line <= b.end ==> Covers(ps, line))
    && OwnInk(ps) == InkLines(b.lines[first..]) && Anchored(InkIn(b), ps, |InkLines(b.lines[..first])|)
  }

  lemma {:induction false} GroupPiecesCut(b: Block, header: seq<string>, groups: seq<Group>, k: nat, lo: nat, max: nat)
    requires k <= |groups| && InLines(groups, |b.lines|) && TableLines(b)
    requires |header| <= lo <= |b.lines| && header == b.lines[..|header|] && (k == 0 ==> lo == |header| < |b.lines|)
    requires Tile(b.lines, RowsLen(header), max, groups, k, lo)
    ensures GroupsCut(b, header, groups, k, lo, max)
    decreases |groups| - k
  {
    hide RowsLen, GroupsCut, GroupPieces, GroupPiece, PieceOk;
    if k == |groups| {
      NoGroupsCut(b, header, groups, k, max);
    } else {
      GroupPiecesCut(b, header, groups, k + 1, groups[k].hi, max);
      GroupPieceOk(b, header, groups[k], k == 0, max);
      GroupCutCons(b, header, groups, k, lo, max);
    }
  }

  lemma {:induction false} NoGroupsCut(b: Block, header: seq<string>, groups: seq<Group>, k: nat, max: nat)
    requires 0 < k == |groups| && InLines(groups, |b.lines|) && TableLines(b)
    ensures GroupsCut(b, header, groups, k, |b.lines|, max)
  {
    assert b.lines[|b.lines|..] == [];
    assert GroupPieces(b, header, groups, k) == [];
  }

  lemma {:induction false} GroupCutCons(b: Block, header: seq<string>, groups: seq<Group>, k: nat, lo: nat, max: nat)
    requires k < |groups| && InLines(groups, |b.lines|) && TableLines(b) && lo == groups[k].lo
    requires |header| <= lo && header == b.lines[..|header|] && (k == 0 ==> lo == |header|)
    requires PieceOk(GroupPiece(b, header, groups[k], k == 0), max)
    requires GroupsCut(b, header, groups, k + 1, groups[k].hi, max)
    ensures GroupsCut(b, header, groups, k, lo, max)
  {
    hide RowsLen, PieceOk, Piece.Own, OwnInk, InkLines, Join, Anchored, InkIn;
    var g := groups[k];
    var p, rest := GroupPiece(b, header, g, k == 0), GroupPieces(b, header, groups, k + 1);
    GroupPieceInk(b, header, g, k == 0);
    GroupInk(b.lines, |header|, k == 0, lo, g.hi, p, rest);
    TableCons(b, p, rest, b.start + g.hi, max);
    GroupAnchored(b, |header|, k == 0, lo, g.hi, p, rest);
  }

  lemma {:induction false} NoInk(lines: seq<string>)
    ensures InkLines(lines[..0]) == []
  {
  }

  lemma {:induction false} GroupAnchored(b: Block, h: nat, first: bool, lo: nat, hi: nat, p: Piece, rest: seq<Piece>)
    requires h <= lo < hi <= |b.lines| && (first ==> lo == h)
    requires Ink(p.Own()) == (if first then InkLines(b.lines[..h]) else []) + InkLines(b.lines[lo..hi])
    requires p.start == b.start + (if first then 0 else lo) && p.end + 1 == b.start + hi
    requires Anchored(InkIn(b), rest, |InkLines(b.lines[..hi])|)
    ensures Anchored(InkIn(b), [p] + rest, |InkLines(b.lines[..if first then 0 else lo])|)
  {
    hide Ink, Piece.Own, OwnInk, InkLines, Anchored;
    var base := |InkLines(b.lines[..if first then 0 else lo])|;
    assert b.lines[..hi] == b.lines[..lo] + b.lines[lo..hi];
    InkLinesConcat(b.lines[..lo], b.lines[lo..hi]);
    InkInAt(b, if first then 0 else lo);
    InkInAt(b, hi);
    assert |InkLines(b.lines[..0])| == 0 by { NoInk(b.lines); }
    OwnInkOfOne(p);
    AnchoredOne(InkIn(b), p, base);
    AnchoredConcat(InkIn(b), [p], rest, base);
  }

  lemma {:induction false} TableCons(b: Block, p: Piece, rest: seq<Piece>, from: nat, max: nat)
    requires FromTable(b, p, p.start, max) && p.end + 1 == from && Ordered(rest)
    requires forall m :: 0 <= m < |rest| ==> FromTable(b, rest[m], from, max)
    requires forall line :: from <= line <= b.end ==> Covers(rest, line)
    ensures Ordered([p] + rest)
    ensures forall m :: 0 <= m < |[p] + rest| ==> FromTable(b, ([p] + rest)[m], p.start, max)
    ensures forall line :: p.start <= line <= b.end ==> Covers([p] + rest, line)
  {
    hide PieceOk;
    forall m | 0 <= m < |[p] + rest| ensures FromTable(b, ([p] + rest)[m], p.start, max) {
      if m > 0 { assert FromTable(b, rest[m - 1], from, max); }
    }
    forall line | p.start <= line <= b.end ensures Covers([p] + rest, line) {
      if line <= p.end {
        assert ([p] + rest)[0] == p;
      } else {
        CoversAfter([p], rest, line);
      }
    }
  }

  /** Ink of a group's piece followed by the pieces of the later groups. */
  lemma {:induction false} GroupInk(lines: seq<string>, h: nat, first: bool, lo: nat, hi: nat, p: Piece,
          rest: seq<Piece>)
    requires h <= lo < hi <= |lines| && (first ==> lo == h)
    requires Ink(p.Own()) == (if first then InkLines(lines[..h]) else []) + InkLines(lines[lo..hi])
    requires OwnInk(rest) == InkLines(lines[hi..])
    ensures OwnInk([p] + rest) == InkLines(lines[if first then 0 else lo..])
  {
    hide Ink, Piece.Own, OwnInk, InkLines;
    OwnInkConcat([p], rest);
    OwnInkOfOne(p);
    assert lines[lo..] == lines[lo..hi] + lines[hi..];
    InkLinesConcat(lines[lo..hi], lines[hi..]);
    if first {
      assert lines[0..] == lines[..h] + lines[lo..];
      InkLinesConcat(lines[..h], lines[lo..]);
    }
  }

  lemma {:induction false} WholePieceInk(b: Block, role: Role)
    ensures Ink(WholePiece(b, role).Own()) == InkLines(b.lines)
  {
    InkOfJoin(NEWLINE, b.lines);
  }

  lemma {:induction false} WholeTableIsCut(b: Block, max: nat)
    requires TableLines(b)
    ensures CutOf(b, [WholePiece(b, WholeTable)], max)
  {
    hide Ink, Join;
    WholePieceInk(b, WholeTable);
    CutOfOne(b, WholePiece(b, WholeTable), max);
  }

  /** Cutting a table is faithful. */
  lemma {:induction false} SplitTableIsCut(b: Block, max: nat, wholeTables: bool)
    requires TableLines(b)
    ensures CutOf(b, SplitTableSpec(b, max, wholeTables), max)
  {
    hide RowsLen, Ink, IsSpace, Join, Anchored, InkIn, InkLines, OwnInk, PieceOk, Covers, HeaderOf, RowGroups;
    NoInk(b.lines);
    var header := HeaderOf(b.lines);
    TableGroupsTile(b.lines, max);
    if wholeTables || |Join(NEWLINE, b.lines)| <= max || |header| == |b.lines| {
      WholeTableIsCut(b, max);
    } else {
      GroupPiecesCut(b, header, TableGroups(b.lines, max), 0, |header|, max);
      assert b.lines[0..] == b.lines && b.lines[..0] == [];
    }
  }

  /** Greedy groups are unique. */
  lemma {:induction false} TilesAreUnique(lines: seq<string>, headerLen: nat, max: nat, a: seq<Group>, b: seq<Group>,
          k: nat, lo: nat)
    requires k <= |a| && k <= |b| && Tile(lines, headerLen, max, a, k, lo) && Tile(lines, headerLen, max, b, k, lo)
    ensures a[k..] == b[k..]
    decreases |a| - k
  {
    if k == |a| || k == |b| {
      TileBounds(lines, headerLen, max, a, k, lo);
      TileBounds(lines, headerLen, max, b, k, lo);
    } else {
      if a[k].hi < b[k].hi { RowsLenGrows(lines, lo, a[k].hi + 1, b[k].hi); }
      if b[k].hi < a[k].hi { RowsLenGrows(lines, lo, b[k].hi + 1, a[k].hi); }
      hide RowsLen;
      assert a[k] == b[k];
      TilesAreUnique(lines, headerLen, max, a, b, k + 1, a[k].hi);
      assert a[k..] == [a[k]] + a[k + 1..] && b[k..] == [b[k]] + b[k + 1..];
    }
  }

  lemma {:induction false} RowsLenGrows(lines: seq<string>, lo: nat, i: nat, j: nat)
    requires lo <= i <= j <= |lines|
    ensures RowsLen(lines[lo..i]) <= RowsLen(lines[lo..j])
  {
    assert lines[lo..j] == lines[lo..i] + lines[i..j];
    RowsLenConcat(lines[lo..i], lines[i..j]);
    hide RowsLen;
  }

  /** The piece that the rows `g.lo` up to `g.hi` make under the header. */
  predicate HoldsRows(b: Block, h: nat, p: Piece, g: Group, first: bool)
    requires h <= |b.lines| && g.lo < g.hi <= |b.lines|
  {
    && p.text == Join(NEWLINE, b.lines[..h] + b.lines[g.lo..g.hi])
    && p.start == (if first then b.start else b.start + g.lo) && p.end == b.start + g.hi - 1 && !p.Breakable()
  }

  /** `_split_table`: a table stays whole if it must, fits or is all header; else each greedy group of
      rows is written under the header. */
  lemma {:induction false} TableIsSplitAt(b: Block, max: nat, wholeTables: bool) returns (groups: seq<Group>)
    ensures
      var whole, ps := Join(NEWLINE, b.lines), SplitTableSpec(b, max, wholeTables);
      var h := if |b.lines| >= 2 && IsTableSeparator(b.lines[1]) then 2 else 0;
      if wholeTables || |whole| <= max || |b.lines| == h
      then |ps| == 1 && ps[0].text == whole && ps[0].start == b.start && ps[0].end == b.end && !ps[0].Breakable()
      else
        && Tile(b.lines, RowsLen(b.lines[..h]), max, groups, 0, h) && InLines(groups, |b.lines|)
        && |ps| == |groups| && forall k :: 0 <= k < |ps| ==> HoldsRows(b, h, ps[k], groups[k], k == 0)
  {
    hide RowsLen, Tile, Join;
    groups := TableGroups(b.lines, max);
    TableGroupsTile(b.lines, max);
    var header := HeaderOf(b.lines);
    var ps := GroupPieces(b, header, groups, 0);
    GroupPiecesCount(b, header, groups, 0);
    forall k | 0 <= k < |ps| ensures ps[k] == GroupPiece(b, header, groups[k], k == 0) {
      GroupPieceAt(b, header, groups, 0, k);
    }
    hide TableGroups;
  }

  lemma {:induction false} GroupPiecesCount(b: Block, header: seq<string>, groups: seq<Group>, k: nat)
    requires k <= |groups| && InLines(groups, |b.lines|)
    ensures |GroupPieces(b, header, groups, k)| == |groups| - k
    decreases |groups| - k
  {
    if k < |groups| { GroupPiecesCount(b, header, groups, k + 1); }
  }

  // ----- headings and fences -----

  lemma {:induction false} WholeFenceIsCut(b: Block, max: nat)
    requires b.kind == Code && b.start <= b.end && |b.lines| == b.end - b.start + 1
    ensures CutOf(b, [WholePiece(b, WholeFence)], max)
  {
    WholePieceInk(b, WholeFence);
    CutOfOne(b, WholePiece(b, WholeFence), max);
  }

  lemma {:induction false} TitleIsCut(b: Block, max: nat)
    requires b.kind == Title && b.start == b.end && |b.lines| == 1 && Trimmed(b.lines[0]) && Breakless(b.lines[0])
    ensures CutOf(b, [WholePiece(b, TitleLine)], max)
  {
    NewlinesOfBreakless(b.lines[0]);
    WholePieceInk(b, TitleLine);
    CutOfOne(b, WholePiece(b, TitleLine), max);
  }

  // ----- overlap -----

  function FirstBoundary(w: string, k: nat): Option<nat>
    requires k <= |w|
    decreases |w| - k
  {
    if k == |w| then None else if IsBoundary(w, k) then Some(k) else FirstBoundary(w, k + 1)
  }

  /** The text carried over: all of it if it fits, else what follows the first boundary of
      its last `limit` characters. */
  function TailText(text: string, limit: nat): string {
    if |text| <= limit then Strip(text)
    else
      var w := text[|text| - limit..];
      match FirstBoundary(w, 0)
      case None => []
      case Some(k) => if k < |w| then Strip(w[k + 1..]) else []
  }

  /** `_tail_at_boundary`. */
  function TailAtBoundary(p: Piece, limit: int): Option<Piece> {
    if limit <= 0 || !p.Breakable() then None
    else
      var tail := TailText(p.text, limit);
      if tail == [] then None
      else Some(Piece(tail, Max(p.start, p.end - Newlines(tail)), p.end, p.path, p.page, Carry, |tail|))
  }

  predicate IsSuffix(t: string, s: string) {
    |t| <= |s| && t == s[|s| - |t|..]
  }

  lemma {:induction false} RStripTrimmed(s: string)
    requires s == [] || !IsSpace(s[|s| - 1])
    ensures RStrip(s) == s
  {
  }

  /** Stripping the end of a trimmed text gives an end of it. */
  lemma {:induction false} StripOfSuffix(text: string, j: nat)
    requires Trimmed(text) && j <= |text|
    ensures IsSuffix(Strip(text[j..]), text) && |Strip(text[j..])| <= |text| - j
    ensures Strip(text[j..]) != [] ==> Trimmed(Strip(text[j..]))
  {
    hide Ink, IsSpace;
    var s := text[j..];
    LStripFacts(s);
    StripFacts(s);
    var l := LStrip(s);
    assert l != [] ==> l[|l| - 1] == text[|text| - 1];
    RStripTrimmed(l);
  }

  lemma {:induction false} FirstBoundaryBound(w: string, k: nat)
    requires k <= |w|
    ensures FirstBoundary(w, k).Some? ==> FirstBoundary(w, k).value < |w|
    decreases |w| - k
  {
    if k < |w| && !IsBoundary(w, k) { FirstBoundaryBound(w, k + 1); }
  }

  lemma {:induction false} TailTextFacts(text: string, limit: nat)
    requires Trimmed(text)
    ensures var tail := TailText(text, limit);
            |tail| <= limit && IsSuffix(tail, text) && (tail != [] ==> Trimmed(tail))
  {
    hide Ink, IsSpace, Strip;
    if |text| <= limit {
      StripOfSuffix(text, 0);
      assert text[0..] == text;
    } else {
      var w := text[|text| - limit..];
      FirstBoundaryBound(w, 0);
      if FirstBoundary(w, 0).Some? {
        var k := FirstBoundary(w, 0).value;
        StripOfSuffix(text, |text| - limit + k + 1);
        assert text[|text| - limit + k + 1..] == w[k + 1..];
      }
    }
  }

  /** What is carried over is an end of the piece, within the limit, and its line anchors
      are exact: the maximum in the code never has to correct them. */
  lemma {:induction false} TailFacts(p: Piece, limit: int, max: nat)
    requires PieceOk(p, max) && TailAtBoundary(p, limit).Some?
    ensures var c := TailAtBoundary(p, limit).value;
            && |c.text| <= limit && IsSuffix(c.text, p.text) && c.role == Carry
            && c.path == p.path && c.page == p.page
            && p.start <= c.start == p.end - Newlines(c.text) && c.end == p.end
            && (|c.text| <= max ==> PieceOk(c, max))
  {
    hide Ink, IsSpace, TailText, Newlines;
    TailTextFacts(p.text, limit);
    var cut := |p.text| - |TailText(p.text, limit)|;
    NewlinesUpTo(p.text, cut, |p.text|);
    assert p.text[..|p.text|] == p.text;
  }

  /** The end of a text that an overlap of at most `limit` takes: all of it if it fits, else what
      follows the first boundary of its last `limit` characters; nothing if there is none. */
  ghost predicate IsTail(text: string, limit: int, t: string) {
    if limit <= 0 then t == []
    else if |text| <= limit then t == Strip(text)
    else
      var w := text[|text| - limit..];
      || (t == [] && forall k :: 0 <= k < |w| ==> !IsBoundary(w, k))
      || exists k :: 0 <= k < |w| && IsBoundary(w, k) && (forall j :: 0 <= j < k ==> !IsBoundary(w, j)) &&
           t == Strip(w[k + 1..])
  }

  lemma {:induction false} FirstBoundaryIs(w: string, k: nat)
    requires k <= |w|
    ensures
      match FirstBoundary(w, k)
      case None => forall j :: k <= j < |w| ==> !IsBoundary(w, j)
      case Some(m) => k <= m < |w| && IsBoundary(w, m) && forall j :: k <= j < m ==> !IsBoundary(w, j)
    decreases |w| - k
  {
    if k < |w| && !IsBoundary(w, k) { FirstBoundaryIs(w, k + 1); }
    hide IsBoundary;
  }

  /** `_tail_at_boundary`: text that can be broken leaves its tail, anything else nothing. */
  lemma {:induction false} TailIsTaken(p: Piece, limit: int)
    ensures
      var carry := TailAtBoundary(p, limit);
      var tail := if carry.Some? then carry.value.text else [];
      && (carry.Some? ==> tail != [] && carry.value.role == Carry)
      && if p.Breakable() then IsTail(p.text, limit, tail) else carry.None?
  {
    hide Strip, IsBoundary;
    if limit > 0 && |p.text| > limit { FirstBoundaryIs(p.text[|p.text| - limit..], 0); }
    StripOfNothing();
  }

  lemma {:induction false} StripOfNothing()
    ensures Strip([]) == []
  {
  }
}
