/** `chunk_markdown` as a whole: the program over mutable `out` and `buf`, the function it
    computes, and what its chunks guarantee for every text. */
module Chunker {
  import opened Text
  import opened Lines
  import opened Blocks
  import opened Pieces
  import opened Packing

  datatype Chunk = Chunk(content: string, headingPath: string, start: nat, end: nat, page: Option<nat>)

  datatype Error = BadMaxChars | BadOverlap
  datatype Result<+T> = Ok(value: T) | Err(error: Error)

  function ToChunk(g: seq<Piece>): Chunk
    requires g != []
  {
    Chunk(Content(g), g[0].path, MinStart(g), MaxEnd(g), g[0].page)
  }

  function ToChunks(groups: seq<seq<Piece>>): seq<Chunk>
    requires forall k :: 0 <= k < |groups| ==> groups[k] != []
  {
    if groups == [] then [] else ToChunks(groups[..|groups| - 1]) + [ToChunk(groups[|groups| - 1])]
  }

  datatype Params = Params(max: nat, overlap: nat, wholeTables: bool)

  predicate Valid(p: Params) { p.overlap < p.max }

  const EMPTY := Packer([], [])

  /** The groups of pieces behind the chunks of a document. */
  function Groups(doc: seq<Line>, p: Params): seq<seq<Piece>>
    requires Valid(p)
  {
    Flush(AddBlocks(EMPTY, Parse(doc), p.max, p.overlap, p.wholeTables)).out
  }

  // ----- documents -----

  predicate WellRead(doc: seq<Line>) {
    forall k :: 0 <= k < |doc| ==>
      && Breakless(doc[k].text) && doc[k].bare == Strip(doc[k].text)
      && (doc[k].mark == Empty <==> Blank(doc[k].text))
  }

  lemma {:induction false} ReadIsWellRead(lines: seq<string>)
    requires AllBreakless(lines)
    ensures WellRead(Read(lines))
  {
    hide Classify, FenceBar, Strip;
  }

  lemma {:induction false} WellReadFacts(doc: seq<Line>)
    requires WellRead(doc)
    ensures InkOfBare(doc) && MarksBlanks(doc)
    ensures forall k :: 0 <= k < |doc| ==> Breakless(doc[k].bare) && (doc[k].mark != Empty ==> Trimmed(doc[k].bare))
  {
    hide Ink, Breakless, Trimmed;
    forall k | 0 <= k < |doc|
      ensures Ink(doc[k].bare) == Ink(doc[k].text) && (doc[k].mark == Empty <==> Ink(doc[k].text) == [])
      ensures Breakless(doc[k].bare) && (doc[k].mark != Empty ==> Trimmed(doc[k].bare))
    {
      StripFacts(doc[k].text);
      StripBreakless(doc[k].text);
    }
  }

  /** Every block is cut into pieces faithfully. */
  lemma {:induction false} PiecesOfIsCut(doc: seq<Line>, b: Block, p: Params)
    requires WellRead(doc) && BlockFits(doc, b) && Valid(p)
    ensures CutOf(b, PiecesOf(b, p.max, p.overlap, p.wholeTables), p.max)
  {
    WellReadFacts(doc);
    BlockShape(doc, b);
    hide BlockFits, Breakless, Trimmed, CutOf, WholePiece, ParaLines, TableLines, Blank;
    match b.kind {
      case Title => TitleIsCut(b, p.max);
      case Para => SplitParaIsCut(b, p.max, p.overlap);
      case Table => SplitTableIsCut(b, p.max, p.wholeTables);
      case Code => WholeFenceIsCut(b, p.max);
    }
  }

  lemma {:induction false} BlockShape(doc: seq<Line>, b: Block)
    requires WellRead(doc) && BlockFits(doc, b)
    requires forall k :: 0 <= k < |doc| ==> Breakless(doc[k].bare) && (doc[k].mark != Empty ==> Trimmed(doc[k].bare))
    ensures b.start <= b.end && |b.lines| == b.end - b.start + 1
    ensures b.kind == Title ==>
              b.start == b.end && |b.lines| == 1 && Trimmed(b.lines[0]) && Breakless(b.lines[0])
    ensures b.kind == Para ==> ParaLines(b)
    ensures b.kind == Table ==> TableLines(b)
  {
    hide Breakless, Trimmed, Strip;
  }

  // ----- folding over pieces and blocks -----

  /** Pieces of one block, ready to be packed after line `at`. */
  predicate Feed(doc: seq<Line>, pieces: seq<Piece>, at: nat, max: nat) {
    && Ordered(pieces)
    && forall k :: 0 <= k < |pieces| ==>
         && PieceOk(pieces[k], max) && Placed(doc, pieces[k]) && at <= pieces[k].start
         && pieces[k].role != Carry && pieces[k].role != TitleLine && SameSection(doc, pieces[0], pieces[k])
  }

  lemma {:induction false} FeedTail(doc: seq<Line>, pieces: seq<Piece>, at: nat, max: nat)
    requires Feed(doc, pieces, at, max) && pieces != []
    ensures Feed(doc, pieces[1..], pieces[0].end, max)
    ensures |pieces| > 1 ==> SameSection(doc, pieces[0], pieces[1])
  {
    hide PieceOk, Placed, HeadsAbove;
  }

  lemma {:induction false} AddAllKeepsPacked(doc: seq<Line>, s: Packer, at: nat, pieces: seq<Piece>, p: Params)
    requires Valid(p) && Packed(doc, s, at, p.max, p.overlap) && Feed(doc, pieces, at, p.max)
    requires pieces != [] && s.buf != [] ==> SameSection(doc, s.buf[0], pieces[0])
    ensures var t := AddAll(s, pieces, p.max, p.overlap);
            && Packed(doc, t, if pieces == [] then at else Last(pieces).end, p.max, p.overlap)
            && (t.buf != [] && pieces != [] ==> SameSection(doc, t.buf[0], pieces[0]))
            && Stored(t) == Stored(s) + pieces
    decreases |pieces|
  {
    hide Packed, PieceOk, Placed, HeadsAbove, Stored, AddPiece;
    if pieces != [] {
      var q := pieces[0];
      AddPieceKeepsPacked(doc, s, at, q, p.max, p.overlap);
      AddPieceStores(s, q, p.max, p.overlap);
      FeedTail(doc, pieces, at, p.max);
      AddAllKeepsPacked(doc, AddPiece(s, q, p.max, p.overlap), q.end, pieces[1..], p);
      assert Stored(s) + pieces == Stored(s) + [q] + pieces[1..];
    }
  }

  lemma {:induction false} PackedLater(doc: seq<Line>, s: Packer, at: nat, later: nat, p: Params)
    requires Packed(doc, s, at, p.max, p.overlap) && at <= later
    ensures Packed(doc, s, later, p.max, p.overlap)
  {
    hide GroupOk, Follows;
  }

  /** A block in its place: uniform section and page, as `Laid` grants it. */
  predicate BlockPlaced(doc: seq<Line>, b: Block) {
    && 1 <= b.start <= b.end <= |doc|
    && b.path == PathAt(doc, b.start)
    && (forall line :: b.start <= line <= b.end ==> IsWith(doc, line, b.start, b.page))
  }

  lemma {:induction false} PlacedInBlock(doc: seq<Line>, b: Block, q: Piece)
    requires BlockPlaced(doc, b) && b.start <= q.start <= q.end <= b.end && q.path == b.path && q.page == b.page
    ensures Placed(doc, q) && HeadsAbove(doc, q.start) == HeadsAbove(doc, b.start)
  {
    hide HeadsAbove, PageAbove, OpenHeads;
    assert IsWith(doc, q.start, b.start, b.page);
    forall line | q.start <= line <= q.end ensures IsWith(doc, line, q.start, q.page) {
      assert IsWith(doc, line, b.start, b.page);
    }
  }

  lemma {:induction false} CutIsFeed(doc: seq<Line>, b: Block, pieces: seq<Piece>, at: nat, max: nat)
    requires BlockPlaced(doc, b) && CutOf(b, pieces, max) && at <= b.start
    ensures forall k :: 0 <= k < |pieces| ==> Placed(doc, pieces[k]) && pieces[k].end <= b.end
    ensures b.kind != Title ==> Feed(doc, pieces, at, max)
    ensures forall k :: 0 <= k < |pieces| ==> HeadsAbove(doc, pieces[k].start) == HeadsAbove(doc, b.start)
  {
    hide HeadsAbove, BlockPlaced, Placed, OwnInk, InkLines, Covers;
    assert 1 <= b.start <= b.end <= |doc| by { BlockBounds(doc, b); }
    forall k | 0 <= k < |pieces|
      ensures Placed(doc, pieces[k]) && PieceOk(pieces[k], max)
      ensures b.start <= pieces[k].start <= pieces[k].end <= b.end
      ensures HeadsAbove(doc, pieces[k].start) == HeadsAbove(doc, b.start)
    {
      assert PieceOk(pieces[k], max);
      PlacedInBlock(doc, b, pieces[k]);
    }
  }

  lemma {:induction false} BlockBounds(doc: seq<Line>, b: Block)
    requires BlockPlaced(doc, b)
    ensures 1 <= b.start <= b.end <= |doc|
  {
  }

  /** The buffer belongs to the section of line `n`. */
  predicate InSection(doc: seq<Line>, s: Packer, n: nat)
    requires n <= |doc|
  {
    s.buf != [] ==> s.buf[0].start <= |doc| && HeadsAbove(doc, s.buf[0].start) == HeadsAbove(doc, n)
  }

  lemma {:induction false} AddBlockKeepsPacked(doc: seq<Line>, s: Packer, at: nat, b: Block, p: Params)
    requires Valid(p) && Packed(doc, s, at, p.max, p.overlap) && at <= b.start
    requires BlockPlaced(doc, b) && CutOf(b, PiecesOf(b, p.max, p.overlap, p.wholeTables), p.max)
    requires b.kind != Title ==> InSection(doc, s, b.start)
    ensures var t := AddBlock(s, b, p.max, p.overlap, p.wholeTables);
            && Packed(doc, t, b.end, p.max, p.overlap) && InSection(doc, t, b.end)
            && Stored(t) == Stored(s) + PiecesOf(b, p.max, p.overlap, p.wholeTables)
  {
    var ps := PiecesOf(b, p.max, p.overlap, p.wholeTables);
    CutIsFeed(doc, b, ps, at, p.max);
    assert HeadsAbove(doc, b.end) == HeadsAbove(doc, b.start) by { assert IsWith(doc, b.end, b.start, b.page); }
    hide BlockPlaced, Placed, PieceOk, HeadsAbove, Packed, Stored, WholePiece, AddAll;
    if b.kind == Title {
      var q := WholePiece(b, TitleLine);
      assert ps == [q] && ps[0] == q && PieceOk(ps[0], p.max) && Placed(doc, ps[0]);
      AddTitleKeepsPacked(doc, s, at, q, p.max, p.overlap);
      AddTitleStores(s, q);
      PackedLater(doc, AddTitle(s, q), q.end, b.end, p);
    } else {
      hide PiecesOf;
      NoPiecesNoLines(b, ps, p.max);
      AddAllKeepsPacked(doc, s, at, ps, p);
      PackedLater(doc, AddAll(s, ps, p.max, p.overlap), Last(ps).end, b.end, p);
    }
  }

  lemma {:induction false} NoPiecesNoLines(b: Block, pieces: seq<Piece>, max: nat)
    requires CutOf(b, pieces, max) && b.start <= b.end
    ensures pieces != []
  {
    assert Covers(pieces, b.start);
  }

  function AllPieces(blocks: seq<Block>, p: Params): seq<Piece>
    requires Valid(p)
    decreases |blocks|
  {
    if blocks == [] then []
    else PiecesOf(blocks[0], p.max, p.overlap, p.wholeTables) + AllPieces(blocks[1..], p)
  }

  /** A line that must show up in some chunk. */
  predicate IsKept(doc: seq<Line>, k: nat)
    requires k < |doc|
  {
    doc[k].mark != Empty && !IsAnchorLine(doc, k)
  }

  /** How much ink lies above a line of the document, page anchors aside. */
  function InkAboveLine(doc: seq<Line>, line: nat): nat { |InkRange(doc, 0, Min(|doc|, Max(0, line - 1)))| }

  function InkOf(doc: seq<Line>): nat -> nat { (line: nat) => InkAboveLine(doc, line) }

  lemma {:induction false} InkOfAt(doc: seq<Line>, line: nat)
    requires 1 <= line <= |doc| + 1
    ensures InkOf(doc)(line) == |InkRange(doc, 0, line - 1)|
  {
    assert InkOf(doc)(line) == InkAboveLine(doc, line);
  }

  /** The pieces hold the ink of the lines from `i` on, each that of its own lines, and cover
      their kept lines. */
  predicate Faithful(doc: seq<Line>, i: nat, pieces: seq<Piece>)
    requires i <= |doc|
  {
    && OwnInk(pieces) == InkRange(doc, i, |doc|) && Anchored(InkOf(doc), pieces, |InkRange(doc, 0, i)|)
    && forall k :: i <= k < |doc| && IsKept(doc, k) ==> Covers(pieces, k + 1)
  }

  lemma {:induction false} BlockRange(doc: seq<Line>, i: nat, b: Block)
    requires WellRead(doc) && BlockFits(doc, b) && i < b.start && IsGap(doc, i, b.start - 1)
    requires FenceAt(doc, b.start - 1) == None
    ensures InkRange(doc, i, b.end) == InkLines(b.lines)
  {
    hide *;
    BlockFitsBounds(doc, b);
    FirstInkOf(doc, b, b.end - b.start + 1);
    assert b.lines[..|b.lines|] == b.lines;
    GapInkOf(doc, i, b.start - 1);
    InkRangeConcat(doc, i, b.start - 1, b.end);
    assert [] + InkLines(b.lines) == InkLines(b.lines);
  }

  lemma {:induction false} InkCons(doc: seq<Line>, i: nat, b: Block, pieces: seq<Piece>, rest: seq<Piece>)
    requires WellRead(doc) && BlockFits(doc, b) && i < b.start && IsGap(doc, i, b.start - 1)
    requires FenceAt(doc, b.start - 1) == None && OwnInk(pieces) == InkLines(b.lines)
    requires OwnInk(rest) == InkRange(doc, b.end, |doc|)
    ensures OwnInk(pieces + rest) == InkRange(doc, i, |doc|)
  {
    hide InkRange, OwnInk, InkLines, FenceAt, IsGap, WellRead;
    BlockRange(doc, i, b);
    InkRangeConcat(doc, i, b.end, |doc|);
    OwnInkConcat(pieces, rest);
  }

  lemma {:induction false} FirstInkOf(doc: seq<Line>, b: Block, n: nat)
    requires WellRead(doc) && BlockFits(doc, b) && FenceAt(doc, b.start - 1) == None && n <= b.end - b.start + 1
    ensures |b.lines| == b.end - b.start + 1
    ensures InkLines(b.lines[..n]) == InkRange(doc, b.start - 1, b.start - 1 + n)
  {
    hide *;
    WellReadFacts(doc);
    BlockInk(doc, b, n);
  }

  lemma {:induction false} GapInkOf(doc: seq<Line>, i: nat, j: nat)
    requires WellRead(doc) && i <= j <= |doc| && IsGap(doc, i, j)
    ensures InkRange(doc, i, j) == []
  {
    hide *;
    WellReadFacts(doc);
    GapInk(doc, i, j);
  }

  /** A line of a block, seen in the document. */
  lemma {:induction false} InkInDoc(doc: seq<Line>, b: Block, line: nat)
    requires WellRead(doc) && BlockFits(doc, b) && FenceAt(doc, b.start - 1) == None && b.start <= line <= b.end + 1
    ensures b.end <= |doc| && InkOf(doc)(line) == |InkRange(doc, 0, b.start - 1)| + InkIn(b)(line)
  {
    hide *;
    BlockFitsBounds(doc, b);
    FirstInkOf(doc, b, line - b.start);
    InkInAt(b, line - b.start);
    InkOfAt(doc, line);
    InkRangeConcat(doc, 0, b.start - 1, line - 1);
  }

  lemma {:induction false} CutBounds(b: Block, pieces: seq<Piece>, max: nat)
    requires CutOf(b, pieces, max)
    ensures OwnInk(pieces) == InkLines(b.lines) && Anchored(InkIn(b), pieces, 0)
    ensures forall k :: 0 <= k < |pieces| ==> b.start <= pieces[k].start <= pieces[k].end <= b.end
  {
    forall k | 0 <= k < |pieces| ensures pieces[k].start <= pieces[k].end { assert PieceOk(pieces[k], max); }
  }

  lemma {:induction false} AnchoredInDoc(doc: seq<Line>, b: Block, pieces: seq<Piece>, max: nat)
    requires WellRead(doc) && BlockFits(doc, b) && FenceAt(doc, b.start - 1) == None && CutOf(b, pieces, max)
    ensures b.end <= |doc| && Anchored(InkOf(doc), pieces, |InkRange(doc, 0, b.start - 1)|)
  {
    BlockFitsBounds(doc, b);
    CutBounds(b, pieces, max);
    hide InkRange, FenceAt, WellRead, BlockFits, InkIn, InkOf, OwnInk, InkLines, CutOf;
    forall line: nat | b.start <= line <= b.end + 1
      ensures InkOf(doc)(line) == |InkRange(doc, 0, b.start - 1)| + InkIn(b)(line)
    {
      InkInDoc(doc, b, line);
    }
  }

  lemma {:induction false} InkToBlock(doc: seq<Line>, i: nat, b: Block)
    requires WellRead(doc) && BlockFits(doc, b) && i < b.start && IsGap(doc, i, b.start - 1)
    requires FenceAt(doc, b.start - 1) == None && b.end <= |doc|
    ensures |InkRange(doc, 0, b.start - 1)| == |InkRange(doc, 0, i)|
    ensures |InkRange(doc, 0, b.end)| == |InkRange(doc, 0, i)| + |InkLines(b.lines)|
  {
    hide *;
    BlockFitsBounds(doc, b);
    GapInkOf(doc, i, b.start - 1);
    InkRangeConcat(doc, 0, i, b.start - 1);
    BlockRange(doc, i, b);
    InkRangeConcat(doc, 0, i, b.end);
  }

  lemma {:induction false} AnchoredCons(doc: seq<Line>, i: nat, b: Block, pieces: seq<Piece>, rest: seq<Piece>,
          max: nat)
    requires WellRead(doc) && BlockFits(doc, b) && i < b.start && IsGap(doc, i, b.start - 1)
    requires FenceAt(doc, b.start - 1) == None && CutOf(b, pieces, max) && b.end <= |doc|
    requires Anchored(InkOf(doc), rest, |InkRange(doc, 0, b.end)|)
    ensures Anchored(InkOf(doc), pieces + rest, |InkRange(doc, 0, i)|)
  {
    AnchoredInDoc(doc, b, pieces, max);
    CutBounds(b, pieces, max);
    hide InkRange, FenceAt, WellRead, BlockFits, InkOf, OwnInk, InkLines, Anchored, CutOf, IsGap;
    InkToBlock(doc, i, b);
    AnchoredConcat(InkOf(doc), pieces, rest, |InkRange(doc, 0, i)|);
  }

  lemma {:induction false} FaithfulCons(doc: seq<Line>, i: nat, b: Block, pieces: seq<Piece>, rest: seq<Piece>,
          max: nat)
    requires WellRead(doc) && BlockFits(doc, b) && i < b.start && IsGap(doc, i, b.start - 1)
    requires FenceAt(doc, b.start - 1) == None && CutOf(b, pieces, max) && Faithful(doc, b.end, rest)
    ensures Faithful(doc, i, pieces + rest)
  {
    hide InkRange, OwnInk, InkLines, FenceAt, Ink, Strip, Breakless, WellRead, BlockFits, PieceOk, Anchored, InkOf;
    BlockFitsBounds(doc, b);
    InkCons(doc, i, b, pieces, rest);
    AnchoredCons(doc, i, b, pieces, rest, max);
    forall k | i <= k < |doc| && IsKept(doc, k) ensures Covers(pieces + rest, k + 1) {
      if k < b.start - 1 {
        assert false;
      } else if k < b.end {
        CoversBefore(pieces, rest, k + 1);
      } else {
        CoversAfter(pieces, rest, k + 1);
      }
    }
  }

  lemma {:induction false} CoversBefore(first: seq<Piece>, rest: seq<Piece>, line: nat)
    requires Covers(first, line)
    ensures Covers(first + rest, line)
  {
    var m :| 0 <= m < |first| && first[m].start <= line <= first[m].end;
    assert (first + rest)[m] == first[m];
  }

  lemma {:induction false} GapFence(doc: seq<Line>, i: nat, b: Block)
    requires BlockFits(doc, b) && i < b.start && IsGap(doc, i, b.start - 1) && (i < |doc| ==> FenceAt(doc, i) == None)
    ensures FenceAt(doc, b.start - 1) == None
    ensures b.kind != Title ==> HeadsAbove(doc, b.start) == HeadsAbove(doc, i)
  {
    PlainRun(doc, i, b.start - 1);
    if b.kind != Title {
      HeadsRun(doc, i, b.start);
    }
  }

  lemma {:induction false} LaidBlock(doc: seq<Line>, i: nat, blocks: seq<Block>)
    requires i <= |doc| && Laid(doc, i, blocks) && blocks != []
    ensures var b := blocks[0];
            && i < b.start && BlockFits(doc, b) && BlockPlaced(doc, b) && FenceAt(doc, b.start - 1) == None
            && IsGap(doc, i, b.start - 1) && Laid(doc, b.end, blocks[1..])
            && (b.kind != Title ==> HeadsAbove(doc, b.start) == HeadsAbove(doc, i))
  {
    var b := blocks[0];
    hide HeadsAbove, PageAbove, PathAt, FenceAt, BlockFits;
    BlockFitsBounds(doc, b);
    GapFence(doc, i, b);
    BlockIsUniform(doc, b);
  }

  lemma {:induction false} BlockFitsBounds(doc: seq<Line>, b: Block)
    requires BlockFits(doc, b)
    ensures 1 <= b.start <= b.end <= |doc|
  {
  }

  /** Packing all blocks of a laid-out document. */
  lemma {:induction false} AddBlocksKeepsPacked(doc: seq<Line>, i: nat, blocks: seq<Block>, s: Packer, p: Params)
    requires Valid(p) && WellRead(doc) && i <= |doc| && Laid(doc, i, blocks)
    requires Packed(doc, s, i, p.max, p.overlap) && InSection(doc, s, i)
    ensures var t := AddBlocks(s, blocks, p.max, p.overlap, p.wholeTables);
            && Packed(doc, t, |doc|, p.max, p.overlap) && Stored(t) == Stored(s) + AllPieces(blocks, p)
    ensures Faithful(doc, i, AllPieces(blocks, p))
    decreases |blocks|
  {
    hide Laid, Packed, Stored, BlockFits, BlockPlaced, CutOf, PiecesOf, AddBlock, HeadsAbove, FenceAt,
         IsGap, Faithful, WellRead, Blank, InSection;
    if blocks == [] {
      NoBlocks(doc, i);
      PackedLater(doc, s, i, |doc|, p);
    } else {
      var b := blocks[0];
      var t := AddBlock(s, b, p.max, p.overlap, p.wholeTables);
      AddBlockStep(doc, i, blocks, s, p);
      AddBlocksKeepsPacked(doc, b.end, blocks[1..], t, p);
      LaidBlock(doc, i, blocks);
      FaithfulCons(doc, i, b, PiecesOf(b, p.max, p.overlap, p.wholeTables), AllPieces(blocks[1..], p), p.max);
    }
  }

  lemma {:induction false} AddBlockStep(doc: seq<Line>, i: nat, blocks: seq<Block>, s: Packer, p: Params)
    requires Valid(p) && WellRead(doc) && i <= |doc| && Laid(doc, i, blocks) && blocks != []
    requires Packed(doc, s, i, p.max, p.overlap) && InSection(doc, s, i)
    ensures var b := blocks[0];
            var t := AddBlock(s, b, p.max, p.overlap, p.wholeTables);
            && b.end <= |doc| && Laid(doc, b.end, blocks[1..]) &&
              CutOf(b, PiecesOf(b, p.max, p.overlap, p.wholeTables), p.max)
            && Packed(doc, t, b.end, p.max, p.overlap) && InSection(doc, t, b.end)
            && Stored(t) == Stored(s) + PiecesOf(b, p.max, p.overlap, p.wholeTables)
  {
    LaidBlock(doc, i, blocks);
    PiecesOfIsCut(doc, blocks[0], p);
    hide Laid, Packed, Stored, BlockFits, CutOf, PiecesOf, AddBlock, HeadsAbove, FenceAt, IsGap, WellRead;
    AddBlockKeepsPacked(doc, s, i, blocks[0], p);
  }

  lemma {:induction false} NoBlocks(doc: seq<Line>, i: nat)
    requires WellRead(doc) && i <= |doc| && Laid(doc, i, [])
    ensures Faithful(doc, i, [])
  {
    WellReadFacts(doc);
    GapInk(doc, i, |doc|);
  }

  // ----- the main results, for every document and all valid parameters -----

  lemma {:induction false} ParseIsLaid(doc: seq<Line>)
    ensures Laid(doc, 0, Parse(doc))
  {
    assert OpenHeads(HeadsAbove(doc, 0)) == [];
    ParseLaysOut(doc, 0, None);
  }

  lemma {:induction false} BlocksArePacked(doc: seq<Line>, p: Params)
    requires WellRead(doc) && Valid(p)
    ensures var s := AddBlocks(EMPTY, Parse(doc), p.max, p.overlap, p.wholeTables);
            && Packed(doc, s, |doc|, p.max, p.overlap) && Faithful(doc, 0, Stored(s))
            && Stored(s) == AllPieces(Parse(doc), p)
  {
    ParseIsLaid(doc);
    EmptyIsPacked(doc, p);
    hide Parse, Laid, Packed, Faithful, WellRead, Stored, InSection, AllPieces, AddBlocks;
    AddBlocksKeepsPacked(doc, 0, Parse(doc), EMPTY, p);
    assert [] + AllPieces(Parse(doc), p) == AllPieces(Parse(doc), p);
  }

  lemma {:induction false} GroupsArePacked(doc: seq<Line>, p: Params)
    requires WellRead(doc) && Valid(p)
    ensures var gs := Groups(doc, p);
            && (forall k :: 0 <= k < |gs| ==> GroupOk(doc, gs[k], p.max))
            && (forall k :: 0 < k < |gs| ==> Follows(gs[k - 1], gs[k], p.overlap))
            && NoFirstCarry(Packer(gs, []))
            && Faithful(doc, 0, AllFresh(gs)) && AllFresh(gs) == AllPieces(Parse(doc), p)
  {
    hide Parse, Faithful, WellRead, GroupOk, Follows, AddBlocks;
    BlocksArePacked(doc, p);
    var s := AddBlocks(EMPTY, Parse(doc), p.max, p.overlap, p.wholeTables);
    AllFreshPlusOne(s.out, s.buf);
    assert AllFresh(Flush(s).out) == Stored(s);
    FlushKeepsPacked(doc, s, |doc|, p.max, p.overlap);
    var gs := Groups(doc, p);
    forall k | 0 < k < |gs| ensures Follows(gs[k - 1], gs[k], p.overlap) {
      assert Follows(gs[k - 1], gs[(k - 1) + 1], p.overlap);
    }
  }

  lemma {:induction false} EmptyIsPacked(doc: seq<Line>, p: Params)
    ensures Packed(doc, EMPTY, 0, p.max, p.overlap) && Stored(EMPTY) == [] && InSection(doc, EMPTY, 0)
  {
  }

  function Flat(groups: seq<seq<Piece>>): seq<Piece> {
    if groups == [] then [] else Flat(groups[..|groups| - 1]) + groups[|groups| - 1]
  }

  lemma {:induction false} FreshInk(g: seq<Piece>, max: nat)
    requires forall k :: 0 <= k < |g| ==> PieceOk(g[k], max)
    ensures OwnInk(Fresh(g)) == OwnInk(g)
  {
    if g != [] {
      var n := |g| - 1;
      FreshInk(g[..n], max);
      assert PieceOk(g[n], max);
      OwnInkConcat(Fresh(g[..n]), [g[n]]);
      OwnInkOfOne(g[n]);
      if g[n].role == Carry {
        assert g[n].Own() == [];
        assert Fresh(g) == Fresh(g[..n]) + [] == Fresh(g[..n]);
      }
    }
  }

  lemma {:induction false} AllFreshInk(doc: seq<Line>, groups: seq<seq<Piece>>, max: nat)
    requires forall k :: 0 <= k < |groups| ==> GroupOk(doc, groups[k], max)
    ensures OwnInk(AllFresh(groups)) == OwnInk(Flat(groups))
  {
    hide OwnInk;
    if groups != [] {
      var n := |groups| - 1;
      AllFreshInk(doc, groups[..n], max);
      assert GroupOk(doc, groups[n], max);
      FreshInk(groups[n], max);
      hide GroupOk;
      OwnInkConcat(AllFresh(groups[..n]), Fresh(groups[n]));
      OwnInkConcat(Flat(groups[..n]), groups[n]);
    } else {
      assert AllFresh(groups) == Flat(groups);
    }
  }

  /** Conservation: without repeated table headers and overlap carries, the chunks hold, in
      order, exactly the visible characters of the text, page anchors outside fences aside. */
  lemma {:induction false} ChunksConserveInk(doc: seq<Line>, p: Params)
    requires WellRead(doc) && Valid(p)
    ensures OwnInk(Flat(Groups(doc, p))) == InkRange(doc, 0, |doc|)
  {
    hide Groups, InkRange, OwnInk, GroupOk, WellRead;
    GroupsArePacked(doc, p);
    AllFreshInk(doc, Groups(doc, p), p.max);
  }

  predicate IsInfix(t: string, s: string) {
    exists i, j :: 0 <= i <= j <= |s| && t == s[i..j]
  }

  /** The pieces of one chunk among those of all. */
  lemma {:induction false} AllFreshAround(groups: seq<seq<Piece>>, i: nat)
    returns (before: seq<Piece>, after: seq<Piece>)
    requires i < |groups|
    ensures AllFresh(groups) == before + Fresh(groups[i]) + after
  {
    var n := |groups| - 1;
    if i == n {
      before, after := AllFresh(groups[..n]), [];
    } else {
      before, after := AllFreshAround(groups[..n], i);
      after := after + Fresh(groups[n]);
    }
  }

  /** Anchors: what a chunk holds anew is one stretch of the ink of the very lines it names. */
  lemma {:induction false} ChunksHoldTheirLines(doc: seq<Line>, p: Params, i: nat)
    requires WellRead(doc) && Valid(p) && i < |Groups(doc, p)|
    ensures
      var g := Groups(doc, p)[i];
      g != [] && 1 <= MinStart(g) <= MaxEnd(g) <= |doc| &&
      IsInfix(OwnInk(g), InkRange(doc, MinStart(g) - 1, MaxEnd(g)))
  {
    hide Groups, WellRead, Ordered, SameSection, PieceOk, AllFresh, Fresh, OwnInk, InkRange, MinStart, MaxEnd, Len,
      AllPieces, NoFirstCarry, Follows, PathAt, IsWith, Covers, Parse;
    GroupsArePacked(doc, p);
    var gs := Groups(doc, p);
    var g := gs[i];
    GroupSpan(doc, g, p.max);
    assert Placed(doc, g[0]) && Placed(doc, g[|g| - 1]);
    FreshInk(g, p.max);
    var before, after := AllFreshAround(gs, i);
    FreshEnds(doc, g, p.max);
    NoInkAbove(doc);
    StretchOf(doc, before, Fresh(g), after, MinStart(g), MaxEnd(g));
  }

  lemma {:induction false} NoInkAbove(doc: seq<Line>)
    ensures InkRange(doc, 0, 0) == []
  {
  }

  /** The first fresh piece of a group starts within it, and the last one ends it. */
  lemma {:induction false} FreshEnds(doc: seq<Line>, g: seq<Piece>, max: nat)
    requires GroupOk(doc, g, max)
    ensures Fresh(g) != [] && MinStart(g) <= Fresh(g)[0].start <= MaxEnd(g) == Last(Fresh(g)).end
  {
    hide PieceOk, Placed, SameSection, Len, Ordered;
    GroupSpan(doc, g, max);
    assert Fresh(g)[0] in Fresh(g);
    FreshIsIn(g, Fresh(g)[0]);
  }

  lemma {:induction false} StretchOf(doc: seq<Line>, before: seq<Piece>, own: seq<Piece>, after: seq<Piece>, start: nat,
          end: nat)
    requires OwnInk(before + own + after) == InkRange(doc, 0, |doc|) && Anchored(InkOf(doc), before + own + after, 0)
    requires own != [] && 1 <= start <= own[0].start <= |doc| && start <= Last(own).end == end <= |doc|
    ensures IsInfix(OwnInk(own), InkRange(doc, start - 1, end))
  {
    hide OwnInk, InkRange, InkOf;
    var all, m, n := before + own + after, |before|, |before| + |own| - 1;
    assert all[..m] == before && all[m] == own[0] && all[..n + 1] == before + own && all[n] == Last(own);
    OwnInkConcat(before, own);
    OwnInkConcat(before + own, after);
    InkOfAt(doc, own[0].start);
    InkOfAt(doc, end + 1);
    InkRangeConcat(doc, 0, start - 1, own[0].start - 1);
    InkRangeConcat(doc, 0, start - 1, end);
    InkRangeConcat(doc, 0, end, |doc|);
    Middle(OwnInk(before), OwnInk(own), OwnInk(after), InkRange(doc, 0, start - 1), InkRange(doc, start - 1, end),
           InkRange(doc, end, |doc|));
  }

  /** A stretch within bounds lies in what is between them. */
  lemma {:induction false} Middle(a: string, b: string, c: string, x: string, y: string, z: string)
    requires a + b + c == x + y + z && |x| <= |a| && |a| + |b| <= |x| + |y|
    ensures IsInfix(b, y)
  {
    var i, j := |a| - |x|, |a| - |x| + |b|;
    var s := x + y + z;
    assert b == (a + b + c)[|a|..|a| + |b|];
    assert y[i..j] == s[|a|..|a| + |b|];
  }

  /** In a text without page anchors not a single visible character is lost. */
  lemma {:induction false} AnchorFreeTextIsConserved(markdown: string, doc: seq<Line>, p: Params)
    requires Valid(p) && doc == Read(SplitLines(markdown))
    requires forall k :: 0 <= k < |doc| ==> !IsAnchorLine(doc, k)
    ensures OwnInk(Flat(Groups(doc, p))) == Ink(markdown)
  {
    hide Groups, OwnInk, Ink, IsAnchorLine, Classify, FenceBar, Strip, Read, WellRead, SplitLines, InkRange;
    var lines := SplitLines(markdown);
    ReadIsWellRead(lines);
    ChunksConserveInk(doc, p);
    PlainInk(doc, 0, |doc|);
    SplitLinesInk(markdown);
    assert Texts(doc, 0, |doc|) == lines;
  }

  lemma {:induction false} FreshIsIn(g: seq<Piece>, q: Piece)
    requires q in Fresh(g)
    ensures q in g
  {
    if g != [] && q != Last(g) {
      FreshIsIn(g[..|g| - 1], q);
    }
  }

  lemma {:induction false} AllFreshIsIn(groups: seq<seq<Piece>>, q: Piece) returns (k: nat)
    requires q in AllFresh(groups)
    ensures k < |groups| && q in groups[k]
  {
    var n := |groups| - 1;
    if q in Fresh(groups[n]) {
      FreshIsIn(groups[n], q);
      k := n;
    } else {
      k := AllFreshIsIn(groups[..n], q);
    }
  }

  lemma {:induction false} GroupBounds(doc: seq<Line>, g: seq<Piece>, max: nat)
    requires g != [] && Ordered(g) && forall k :: 0 <= k < |g| ==> g[k].start <= g[k].end
    ensures MinStart(g) == g[0].start && MaxEnd(g) == Last(g).end
    ensures forall k :: 0 <= k < |g| ==> MinStart(g) <= g[k].start && g[k].end <= MaxEnd(g)
  {
    if |g| > 1 {
      var init := g[..|g| - 1];
      GroupBounds(doc, init, max);
      assert Last(init) == g[|g| - 2];
    }
  }

  lemma {:induction false} GroupSpan(doc: seq<Line>, g: seq<Piece>, max: nat)
    requires GroupOk(doc, g, max)
    ensures g != [] && MinStart(g) == g[0].start <= Last(g).start <= MaxEnd(g) == Last(g).end
    ensures forall k :: 0 <= k < |g| ==> MinStart(g) <= g[k].start <= g[k].end <= MaxEnd(g)
  {
    hide Len;
    forall k | 0 <= k < |g| ensures g[k].start <= g[k].end {
      assert PieceOk(g[k], max);
    }
    GroupBounds(doc, g, max);
    assert g[0].start <= g[0].end && g[|g| - 1].start <= g[|g| - 1].end;
  }

  predicate InSomeGroup(groups: seq<seq<Piece>>, line: nat) {
    exists k :: 0 <= k < |groups| && groups[k] != [] && MinStart(groups[k]) <= line <= MaxEnd(groups[k])
  }

  /** Coverage: every line that is neither blank nor a page anchor lies in the line range of
      some chunk. */
  lemma {:induction false} ChunksCoverLines(doc: seq<Line>, p: Params, k: nat)
    requires WellRead(doc) && Valid(p) && k < |doc| && IsKept(doc, k)
    ensures InSomeGroup(Groups(doc, p), k + 1)
  {
    hide Groups, InkRange, OwnInk, GroupOk, WellRead, IsKept, Follows;
    var gs := Groups(doc, p);
    GroupsArePacked(doc, p);
    var stored := AllFresh(gs);
    assert Covers(stored, k + 1);
    var m :| 0 <= m < |stored| && stored[m].start <= k + 1 <= stored[m].end;
    var n := AllFreshIsIn(gs, stored[m]);
    GroupSpan(doc, gs[n], p.max);
  }

  /** Order: neither the first nor the last line ever decreases along the chunks. */
  lemma {:induction false} ChunksInOrder(doc: seq<Line>, p: Params, i: nat, j: nat)
    requires WellRead(doc) && Valid(p) && i <= j < |Groups(doc, p)|
    ensures var gs := Groups(doc, p);
            gs[i] != [] && gs[j] != [] &&
            MinStart(gs[i]) <= MinStart(gs[j]) && MaxEnd(gs[i]) <= MaxEnd(gs[j])
  {
    hide Groups, GroupOk, WellRead, Faithful, MinStart, MaxEnd, NoFirstCarry, AllFresh, AllPieces, Parse, IsSuffix;
    var gs := Groups(doc, p);
    GroupsArePacked(doc, p);
    GroupSpan(doc, gs[j], p.max);
    if i < j {
      ChunksInOrder(doc, p, i, j - 1);
      GroupSpan(doc, gs[j - 1], p.max);
      assert Follows(gs[j - 1], gs[j], p.overlap);
    }
  }

  lemma {:induction false} FreshHas(g: seq<Piece>, k: nat)
    requires k < |g| && g[k].role != Carry
    ensures g[k] in Fresh(g)
  {
    if k < |g| - 1 {
      FreshHas(g[..|g| - 1], k);
    }
  }

  lemma {:induction false} AllFreshHas(groups: seq<seq<Piece>>, i: nat, q: Piece)
    requires i < |groups| && q in Fresh(groups[i])
    ensures q in AllFresh(groups)
  {
    if i < |groups| - 1 {
      AllFreshHas(groups[..|groups| - 1], i, q);
    }
  }

  lemma {:induction false} PieceHasBlock(blocks: seq<Block>, p: Params, q: Piece) returns (b: Block)
    requires Valid(p) && q in AllPieces(blocks, p)
    ensures b in blocks && q in PiecesOf(b, p.max, p.overlap, p.wholeTables)
    decreases |blocks|
  {
    hide PiecesOf;
    if q in PiecesOf(blocks[0], p.max, p.overlap, p.wholeTables) {
      b := blocks[0];
    } else {
      b := PieceHasBlock(blocks[1..], p, q);
    }
  }

  /** Every chunk over the limit is one heading line, code fence, table, or table row. */
  lemma {:induction false} OversizeChunksAreWhole(doc: seq<Line>, p: Params, i: nat) returns (b: Block)
    requires WellRead(doc) && Valid(p) && i < |Groups(doc, p)| && |Content(Groups(doc, p)[i])| > p.max
    ensures b in Parse(doc) && Groups(doc, p)[i] != [] && IsWholeUnit(b, Groups(doc, p)[i][0])
  {
    hide Groups, Parse, WellRead, Faithful, Content, IsWholeUnit, PiecesOf;
    GroupsArePacked(doc, p);
    ChunksAreBounded(doc, p, i);
    var g := Groups(doc, p)[i];
    FreshHas(g, 0);
    AllFreshHas(Groups(doc, p), i, g[0]);
    b := PieceHasBlock(Parse(doc), p, g[0]);
    UnsplittableIsWhole(b, p.max, p.overlap, p.wholeTables, g[0]);
  }

  /** Size: a chunk is within the limit, carried overlap included, unless it is a single
      unsplittable piece. A carry is an end of the previous chunk, at most `overlap` long. */
  lemma {:induction false} ChunksAreBounded(doc: seq<Line>, p: Params, i: nat)
    requires WellRead(doc) && Valid(p) && i < |Groups(doc, p)|
    ensures var g := Groups(doc, p)[i];
            && g != [] && (|Content(g)| <= p.max || (|g| == 1 && Unsplittable(g[0])))
            && (forall k :: 1 <= k < |g| ==> g[k].role != Carry)
            && (g[0].role == Carry ==>
                  && i > 0 && |g| >= 2 && |g[0].text| <= p.overlap
                  && var prev := Groups(doc, p)[i - 1]; prev != [] && IsSuffix(g[0].text, Last(prev).text))
  {
    hide Groups, WellRead, Faithful, Ordered, Placed, SameSection, PieceOk;
    GroupsArePacked(doc, p);
    var g := Groups(doc, p)[i];
    ContentLength(g);
    assert GroupOk(doc, g, p.max);
    assert i > 0 ==> Follows(Groups(doc, p)[i - 1], g, p.overlap);
  }

  lemma {:induction false} HeadsGrow(doc: seq<Line>, i: nat, j: nat)
    requires i <= j <= |doc|
    ensures |HeadsAbove(doc, i)| <= |HeadsAbove(doc, j)|
    ensures |HeadsAbove(doc, i)| == |HeadsAbove(doc, j)| ==>
              forall k :: i <= k < j ==> !IsHeadingLine(doc, k) && HeadsAbove(doc, k + 1) == HeadsAbove(doc, i)
  {
    if i < j {
      HeadsGrow(doc, i, j - 1);
    }
  }

  /** Section integrity: no heading lies inside a chunk after its first line, so all its
      lines have one path: the chunk's. Its page is that of its first line. */
  lemma {:induction false} ChunksKeepSections(doc: seq<Line>, p: Params, i: nat)
    requires WellRead(doc) && Valid(p) && i < |Groups(doc, p)|
    ensures var g := Groups(doc, p)[i];
            && g != [] && 1 <= MinStart(g) <= MaxEnd(g) <= |doc|
            && ToChunk(g).headingPath == PathAt(doc, MinStart(g))
            && ToChunk(g).page == PageAbove(doc, MinStart(g) - 1)
            && forall line :: MinStart(g) < line <= MaxEnd(g) ==>
                 !IsHeadingLine(doc, line - 1) && PathAt(doc, line) == ToChunk(g).headingPath
  {
    hide Groups, WellRead, Faithful, HeadsAbove, PageAbove, OpenHeads, IsHeadingLine, MinStart, MaxEnd, Len;
    GroupsArePacked(doc, p);
    var g := Groups(doc, p)[i];
    GroupSpan(doc, g, p.max);
    var first, last := g[0], g[|g| - 1];
    assert Placed(doc, first) && Placed(doc, last) && SameSection(doc, last, first);
    assert IsWith(doc, last.end, last.start, last.page) && IsWith(doc, first.start, first.start, first.page);
    HeadsGrow(doc, first.start, last.end);
    forall line | first.start < line <= last.end
      ensures !IsHeadingLine(doc, line - 1) && HeadsAbove(doc, line) == HeadsAbove(doc, first.start)
    {
      var k := line - 1;
      assert !IsHeadingLine(doc, k) && HeadsAbove(doc, k + 1) == HeadsAbove(doc, first.start);
    }
  }

  /** Only the first piece of a chunk can be a heading line. */
  lemma {:induction false} HeadingsStartChunks(doc: seq<Line>, p: Params, i: nat, k: nat)
    requires WellRead(doc) && Valid(p) && i < |Groups(doc, p)| && k < |Groups(doc, p)[i]|
    ensures Groups(doc, p)[i][k].role == TitleLine ==> k == 0
  {
    hide Groups, WellRead, Faithful;
    GroupsArePacked(doc, p);
    assert GroupOk(doc, Groups(doc, p)[i], p.max);
  }

  // ----- the program -----

  lemma {:induction false} ToChunksPlusOne(groups: seq<seq<Piece>>, g: seq<Piece>)
    requires g != [] && forall k :: 0 <= k < |groups| ==> groups[k] != []
    ensures ToChunks(groups + [g]) == ToChunks(groups) + [ToChunk(g)]
  {
    assert (groups + [g])[..|groups|] == groups;
  }

  /** The state `chunk_markdown` shares with its nested functions: `out` and `buf`. */
  class Builder {
    const max: nat
    const overlap: nat
    var out: seq<Chunk>
    var buf: seq<Piece>
    /** The pieces behind each chunk of `out`. */
    ghost var groups: seq<seq<Piece>>

    ghost predicate Consistent()
      reads this
    {
      (forall k :: 0 <= k < |groups| ==> groups[k] != []) && out == ToChunks(groups)
    }

    ghost function State(): Packer
      reads this
    {
      Packer(groups, buf)
    }

    constructor (max: nat, overlap: nat)
      ensures this.max == max && this.overlap == overlap && Consistent() && State() == EMPTY
    {
      this.max, this.overlap := max, overlap;
      out, buf, groups := [], [], [];
    }

    /** `cur_len`. */
    method CurLen() returns (n: nat)
      ensures n == Len(buf)
    {
      n := 0;
      for k := 0 to |buf|
        invariant n == Len(buf[..k])
      {
        assert buf[..k + 1] == buf[..k] + [buf[k]];
        LenPlusOne(buf[..k], buf[k]);
        n := n + (if k > 0 then |SEP| else 0) + |buf[k].text|;
      }
      assert buf[..|buf|] == buf;
    }

    /** The nested `flush`: empties the buffer into a chunk and returns what to carry over. */
    method FlushBuffer(carryNext: bool) returns (carry: Option<Piece>)
      requires Consistent()
      modifies this
      ensures Consistent() && State() == Flush(old(State()))
      ensures carry == if old(buf) == [] || !carryNext then None else TailAtBoundary(Last(old(buf)), overlap)
    {
      if buf == [] {
        return None;
      }
      ToChunksPlusOne(groups, buf);
      out := out + [ToChunk(buf)];
      groups := groups + [buf];
      carry := if carryNext then TailAtBoundary(Last(buf), overlap) else None;
      buf := [];
    }

    method MakeRoomFor(piece: Piece)
      requires Consistent()
      modifies this
      ensures Consistent() && State() == MakeRoom(old(State()), piece, max, overlap)
    {
      hide TailAtBoundary, Len;
      var len := CurLen();
      if buf != [] && len + |SEP| + |piece.text| > max {
        var carry := FlushBuffer(piece.Breakable());
        if carry.Some? {
          var budget := max - |piece.text| - |SEP|;
          if |carry.value.text| > budget {
            carry := TailAtBoundary(carry.value, budget);
          }
          if carry.Some? {
            buf := buf + [carry.value];
          }
        }
      }
    }

    /** The body of the loop over the pieces of a block. */
    method AddOne(piece: Piece)
      requires Consistent()
      modifies this
      ensures Consistent() && State() == AddPiece(old(State()), piece, max, overlap)
    {
      hide MakeRoom;
      MakeRoomFor(piece);
      buf := buf + [piece];
      if |piece.text| > max {
        var _ := FlushBuffer(false);
      }
    }

    method CutBody(b: Block, wholeTables: bool) returns (pieces: seq<Piece>)
      requires max > 0 && b.kind != Title
      ensures pieces == PiecesOf(b, max, overlap, wholeTables)
    {
      match b.kind {
        case Para => pieces := SplitPara(b, max, overlap);
        case Table => pieces := SplitTable(b, max, wholeTables);
        case Code => pieces := [WholePiece(b, WholeFence)];
      }
    }

    /** The body of the loop over the blocks. */
    method Add(b: Block, wholeTables: bool)
      requires Consistent() && max > 0
      modifies this
      ensures Consistent() && State() == AddBlock(old(State()), b, max, overlap, wholeTables)
    {
      if b.kind == Title {
        var _ := FlushBuffer(false);
        buf := buf + [WholePiece(b, TitleLine)];
        return;
      }
      var pieces := CutBody(b, wholeTables);
      hide PiecesOf, AddPiece;
      for k := 0 to |pieces|
        invariant Consistent()
        invariant AddAll(State(), pieces[k..], max, overlap) == AddAll(old(State()), pieces, max, overlap)
      {
        assert pieces[k..][0] == pieces[k] && pieces[k..][1..] == pieces[k + 1..];
        AddOne(pieces[k]);
      }
    }
  }

  function ChunksOf(markdown: string, p: Params): (chunks: seq<Chunk>)
    requires Valid(p)
  {
    var doc := Read(SplitLines(markdown));
    GroupsAreNonEmpty(SplitLines(markdown), p);
    ToChunks(Groups(doc, p))
  }

  lemma {:induction false} GroupsAreNonEmpty(lines: seq<string>, p: Params)
    requires Valid(p) && AllBreakless(lines)
    ensures forall k :: 0 <= k < |Groups(Read(lines), p)| ==> Groups(Read(lines), p)[k] != []
  {
    hide Groups, Read, WellRead, Faithful;
    ReadIsWellRead(lines);
    GroupsArePacked(Read(lines), p);
  }

  /** `chunk_markdown`. */
  method ChunkMarkdown(markdown: string, maxChars: int, overlap: int, wholeTables: bool) returns (r: Result<seq<Chunk>>)
    ensures maxChars <= 0 ==> r == Err(BadMaxChars)
    ensures maxChars > 0 && !(0 <= overlap < maxChars) ==> r == Err(BadOverlap)
    ensures 0 <= overlap < maxChars ==> r == Ok(ChunksOf(markdown, Params(maxChars, overlap, wholeTables)))
  {
    if maxChars <= 0 {
      return Err(BadMaxChars);
    }
    if overlap < 0 || overlap >= maxChars {
      return Err(BadOverlap);
    }
    var builder := new Builder(maxChars, overlap);
    var blocks := ParseBlocks(Read(SplitLines(markdown)));
    for k := 0 to |blocks|
      invariant builder.Consistent() && builder.max == maxChars && builder.overlap == overlap
      invariant AddBlocks(builder.State(), blocks[k..], maxChars, overlap, wholeTables) ==
                AddBlocks(EMPTY, blocks, maxChars, overlap, wholeTables)
    {
      assert blocks[k..][0] == blocks[k] && blocks[k..][1..] == blocks[k + 1..];
      builder.Add(blocks[k], wholeTables);
    }
    var _ := builder.FlushBuffer(false);
    r := Ok(builder.out);
  }
}
