/** The packer is greedy: it ends a chunk only where it must, takes the overlap whenever there is one,
    and a chunk's text is that of its pieces. */
module Greedy {
  import opened Text
  import opened Lines
  import opened Blocks
  import opened Pieces
  import opened Packing
  import opened Chunker

  /** The first piece of a chunk that is not carried over. */
  function FirstNew(h: seq<Piece>): Piece
    requires h != []
  {
    if h[0].role == Carry && |h| > 1 then h[1] else h[0]
  }

  function CarryText(h: seq<Piece>): string
    requires h != []
  {
    if h[0].role == Carry then h[0].text else []
  }

  /** What is carried in front of `p`: the tail of the text before it, or of that tail what still
      fits together with `p`; nothing if either cannot be broken. */
  ghost predicate IsOverlap(prev: Piece, p: Piece, max: nat, overlap: nat, t: string) {
    var room := max - |p.text| - |SEP|;
    if !prev.Breakable() || !p.Breakable() then t == []
    else exists tail :: IsTail(prev.text, overlap, tail) && if |tail| <= room then t == tail else IsTail(tail, room, t)
  }

  /** `h` is opened after `g` because a heading comes or because its first new piece does not fit;
      after a heading there is no overlap, else all there is. */
  ghost predicate OpensAfter(g: seq<Piece>, h: seq<Piece>, max: nat, overlap: nat) {
    && g != [] && h != []
    && if FirstNew(h).role == TitleLine then h[0].role == TitleLine
       else Len(g) + |SEP| + |FirstNew(h).text| > max && IsOverlap(Last(g), FirstNew(h), max, overlap, CarryText(h))
  }

  /** Every chunk so far was opened like that; an empty buffer follows an unsplittable piece. */
  ghost predicate IsGreedy(s: Packer, max: nat, overlap: nat) {
    && (forall k :: 0 <= k < |s.out| - 1 ==> OpensAfter(s.out[k], s.out[k + 1], max, overlap))
    && (s.out != [] && s.buf != [] ==> OpensAfter(s.out[|s.out| - 1], s.buf, max, overlap))
    && (s.out != [] && s.buf == [] ==>
      var g := s.out[|s.out| - 1]; g != [] && |Last(g).text| > max && !Last(g).Breakable())
    && (s.buf != [] ==> Last(s.buf).role != Carry)
  }

  /** A piece that the packer is given. */
  predicate Given(p: Piece, max: nat) {
    p.role != Carry && p.role != TitleLine && (|p.text| > max ==> !p.Breakable())
  }

  lemma {:induction false} CarryIsOverlap(prev: Piece, p: Piece, max: nat, overlap: nat)
    ensures
      var cs := CarryInto(prev, p, max, overlap);
      && |cs| <= 1 && (cs != [] ==> cs[0].role == Carry)
      && IsOverlap(prev, p, max, overlap, if cs == [] then [] else cs[0].text)
  {
    hide TailAtBoundary, IsTail;
    TailIsTaken(prev, overlap);
    if TailAtBoundary(prev, overlap).Some? {
      TailIsTaken(TailAtBoundary(prev, overlap).value, max - |p.text| - |SEP|);
    } else if prev.Breakable() {
      NoTail(max - |p.text| - |SEP|);
    }
  }

  lemma {:induction false} NoTail(room: int)
    ensures IsTail([], room, [])
  {
    StripOfNothing();
  }

  lemma {:induction false} LastIsShorter(g: seq<Piece>)
    requires g != []
    ensures |Last(g).text| <= Len(g)
  {
  }

  /** The chunk that takes the piece: the open one, or one opened after it. */
  lemma {:induction false} RoomIsGreedy(s: Packer, p: Piece, max: nat, overlap: nat)
    requires IsGreedy(s, max, overlap) && Given(p, max)
    ensures var r := MakeRoom(s, p, max, overlap); IsGreedy(Packer(r.out, r.buf + [p]), max, overlap)
  {
    var r := MakeRoom(s, p, max, overlap);
    var h := r.buf + [p];
    hide Len, CarryInto, IsOverlap, MakeRoom;
    MakeRoomIs(s, p, max, overlap);
    if r == s {
      if s.buf != [] {
        assert h[0] == s.buf[0] && (|s.buf| > 1 ==> h[1] == s.buf[1]);
      } else if s.out != [] {
        var g := s.out[|s.out| - 1];
        LastIsShorter(g);
        NoOverlapAfter(Last(g), p, max, overlap);
        assert h == [p];
      }
    } else {
      CarryIsOverlap(Last(s.buf), p, max, overlap);
      assert r.out[..|s.out|] == s.out;
      assert OpensAfter(s.buf, h, max, overlap);
      forall k | 0 <= k < |r.out| - 1 ensures OpensAfter(r.out[k], r.out[k + 1], max, overlap) {
        if k == |s.out| - 1 { assert r.out[k + 1] == s.buf; }
      }
    }
  }

  lemma {:induction false} MakeRoomIs(s: Packer, p: Piece, max: nat, overlap: nat)
    ensures
      var r := MakeRoom(s, p, max, overlap);
      if s.buf != [] && Len(s.buf) + |SEP| + |p.text| > max
      then r == Packer(s.out + [s.buf], CarryInto(Last(s.buf), p, max, overlap)) else r == s
  {
  }

  lemma {:induction false} NoOverlapAfter(prev: Piece, p: Piece, max: nat, overlap: nat)
    requires !prev.Breakable()
    ensures IsOverlap(prev, p, max, overlap, [])
  {
  }

  lemma {:induction false} AddPieceIsGreedy(s: Packer, p: Piece, max: nat, overlap: nat)
    requires IsGreedy(s, max, overlap) && Given(p, max)
    ensures IsGreedy(AddPiece(s, p, max, overlap), max, overlap)
  {
    RoomIsGreedy(s, p, max, overlap);
    var r := MakeRoom(s, p, max, overlap);
    var all := r.out + [r.buf + [p]];
    hide MakeRoom, OpensAfter;
    forall k | 0 <= k < |all| - 1 ensures OpensAfter(all[k], all[k + 1], max, overlap) {
      if k < |r.out| - 1 { assert all[k] == r.out[k] && all[k + 1] == r.out[k + 1]; }
    }
  }

  lemma {:induction false} AddTitleIsGreedy(s: Packer, p: Piece, max: nat, overlap: nat)
    requires IsGreedy(s, max, overlap) && p.role == TitleLine
    ensures IsGreedy(AddTitle(s, p), max, overlap)
  {
    hide Len, IsOverlap;
    var f := Flush(s);
    forall k | 0 <= k < |f.out| - 1 ensures OpensAfter(f.out[k], f.out[k + 1], max, overlap) {
      if k < |s.out| - 1 { assert f.out[k] == s.out[k] && f.out[k + 1] == s.out[k + 1]; }
    }
  }

  lemma {:induction false} AddAllIsGreedy(s: Packer, pieces: seq<Piece>, max: nat, overlap: nat)
    requires IsGreedy(s, max, overlap) && forall k :: 0 <= k < |pieces| ==> Given(pieces[k], max)
    ensures IsGreedy(AddAll(s, pieces, max, overlap), max, overlap)
    decreases |pieces|
  {
    if pieces != [] {
      hide IsGreedy, AddPiece;
      AddPieceIsGreedy(s, pieces[0], max, overlap);
      AddAllIsGreedy(AddPiece(s, pieces[0], max, overlap), pieces[1..], max, overlap);
    }
  }

  lemma {:induction false} CutIsGiven(b: Block, pieces: seq<Piece>, max: nat, k: nat)
    requires CutOf(b, pieces, max) && b.kind != Title && k < |pieces|
    ensures Given(pieces[k], max)
  {
    assert PieceOk(pieces[k], max);
    hide Anchored, OwnInk, InkLines, Covers;
  }

  lemma {:induction false} AddBlockIsGreedy(s: Packer, b: Block, p: Params)
    requires Valid(p) && IsGreedy(s, p.max, p.overlap)
    requires CutOf(b, PiecesOf(b, p.max, p.overlap, p.wholeTables), p.max)
    ensures IsGreedy(AddBlock(s, b, p.max, p.overlap, p.wholeTables), p.max, p.overlap)
  {
    hide IsGreedy, CutOf, AddTitle, AddAll;
    if b.kind == Title {
      AddTitleIsGreedy(s, WholePiece(b, TitleLine), p.max, p.overlap);
    } else {
      hide PiecesOf, Given;
      var pieces := PiecesOf(b, p.max, p.overlap, p.wholeTables);
      forall k | 0 <= k < |pieces| ensures Given(pieces[k], p.max) { CutIsGiven(b, pieces, p.max, k); }
      AddAllIsGreedy(s, pieces, p.max, p.overlap);
    }
  }

  lemma {:induction false} AddBlocksIsGreedy(doc: seq<Line>, i: nat, blocks: seq<Block>, s: Packer, p: Params)
    requires Valid(p) && WellRead(doc) && i <= |doc| && Laid(doc, i, blocks) && IsGreedy(s, p.max, p.overlap)
    ensures IsGreedy(AddBlocks(s, blocks, p.max, p.overlap, p.wholeTables), p.max, p.overlap)
    decreases |blocks|
  {
    hide Laid, IsGreedy, CutOf, PiecesOf, AddBlock, WellRead, BlockFits, BlockPlaced, IsGap, FenceAt, HeadsAbove;
    if blocks != [] {
      LaidBlock(doc, i, blocks);
      PiecesOfIsCut(doc, blocks[0], p);
      AddBlockIsGreedy(s, blocks[0], p);
      BlockFitsBounds(doc, blocks[0]);
      AddBlocksIsGreedy(doc, blocks[0].end, blocks[1..], AddBlock(s, blocks[0], p.max, p.overlap, p.wholeTables), p);
    }
  }

  lemma {:induction false} EmptyIsGreedy(max: nat, overlap: nat)
    ensures IsGreedy(EMPTY, max, overlap)
  {
  }

  /** Each chunk ends only before a heading or before a piece that no longer fits, and the next one
      starts with all the overlap there is. */
  lemma {:induction false} ChunksAreGreedy(doc: seq<Line>, p: Params, i: nat)
    requires WellRead(doc) && Valid(p) && i + 1 < |Groups(doc, p)|
    ensures OpensAfter(Groups(doc, p)[i], Groups(doc, p)[i + 1], p.max, p.overlap)
  {
    ParseIsLaid(doc);
    EmptyIsGreedy(p.max, p.overlap);
    hide Parse, Laid, WellRead, AddBlocks, OpensAfter;
    AddBlocksIsGreedy(doc, 0, Parse(doc), EMPTY, p);
    var s := AddBlocks(EMPTY, Parse(doc), p.max, p.overlap, p.wholeTables);
    if i + 1 == |s.out| { assert Flush(s).out[i + 1] == s.buf; }
  }

  /** A piece cut from a paragraph, or a shorter one, always gets its whole overlap, if the overlap and the
      separator take at most three quarters of a chunk. */
  lemma {:induction false} OverlapFits(prev: Piece, p: Piece, max: nat, overlap: nat)
    requires max > 0 && 4 * (overlap + 2) <= 3 * max && |p.text| <= WindowSize(max, overlap)
    requires prev.Breakable() && p.Breakable()
    ensures
      var cs := CarryInto(prev, p, max, overlap);
      IsTail(prev.text, overlap, if cs == [] then [] else cs[0].text)
  {
    TailIsTaken(prev, overlap);
    hide IsTail, FirstBoundary, Strip;
    assert overlap > 0 ==> |TailText(prev.text, overlap)| <= overlap;
  }

  // ----- the text of a chunk -----

  /** The ink of the pieces in order, carries and repeated headers included. */
  function TextInk(g: seq<Piece>): string {
    if g == [] then [] else TextInk(g[..|g| - 1]) + Ink(g[|g| - 1].text)
  }

  lemma {:induction false} TextInkIs(g: seq<Piece>)
    ensures InkLines(PieceTexts(g)) == TextInk(g)
  {
    hide Ink;
    if g != [] {
      var n := |g| - 1;
      TextInkIs(g[..n]);
      assert PieceTexts(g)[..|PieceTexts(g)| - 1] == PieceTexts(g[..n]);
    }
  }

  lemma {:induction false} ContentStep(g: seq<Piece>)
    requires g != []
    ensures Content(g) == (if |g| == 1 then [] else Content(g[..|g| - 1]) + "\n\n") + Last(g).text
  {
    ContentLength(g);
    hide Len;
    var n := |g| - 1;
    assert PieceTexts(g) == PieceTexts(g[..n]) + [Last(g).text];
    assert PieceTexts(g)[..n] == PieceTexts(g[..n]);
  }

  /** The content of a chunk is the texts of its pieces in order, two line feeds apart. */
  lemma {:induction false} ContentIs(g: seq<Piece>)
    requires g != []
    ensures ToChunk(g).content == (if |g| == 1 then [] else ToChunk(g[..|g| - 1]).content + "\n\n") + Last(g).text
    ensures Ink(ToChunk(g).content) == TextInk(g)
  {
    hide Ink, MinStart, MaxEnd, PieceTexts, Content, InkLines;
    ContentStep(g);
    ContentInk(g);
  }

  lemma {:induction false} ContentInk(g: seq<Piece>)
    ensures Ink(Content(g)) == TextInk(g)
  {
    InkOfJoin(SEP, PieceTexts(g));
    TextInkIs(g);
  }
}
