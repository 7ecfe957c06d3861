/** The greedy packer of `chunk_markdown`: pieces are appended to a buffer; a piece that
    does not fit flushes the buffer as a chunk and may carry an overlap into the next. */
module Packing {
  import opened Text
  import opened Lines
  import opened Blocks
  import opened Pieces

  const SEP := "\n\n"

  function Last(g: seq<Piece>): Piece
    requires g != []
  {
    g[|g| - 1]
  }

  /** Length of the pieces joined by the separator (`cur_len`). */
  function Len(g: seq<Piece>): nat {
    if g == [] then 0
    else if |g| == 1 then |g[0].text|
    else Len(g[..|g| - 1]) + |SEP| + |Last(g).text|
  }

  function PieceTexts(g: seq<Piece>): seq<string> {
    if g == [] then [] else PieceTexts(g[..|g| - 1]) + [Last(g).text]
  }

  function Content(g: seq<Piece>): string { Join(SEP, PieceTexts(g)) }

  lemma {:induction false} ContentLength(g: seq<Piece>)
    ensures |Content(g)| == Len(g) && |PieceTexts(g)| == |g|
  {
    if g != [] {
      var init := g[..|g| - 1];
      ContentLength(init);
      assert PieceTexts(g)[..|g| - 1] == PieceTexts(init);
    }
  }

  function MinStart(g: seq<Piece>): nat
    requires g != []
  {
    if |g| == 1 then g[0].start else Min(MinStart(g[..|g| - 1]), Last(g).start)
  }

  function MaxEnd(g: seq<Piece>): nat
    requires g != []
  {
    if |g| == 1 then g[0].end else Max(MaxEnd(g[..|g| - 1]), Last(g).end)
  }

  // ----- the packer as a function -----

  /** Groups of pieces already flushed, and the buffer. */
  datatype Packer = Packer(out: seq<seq<Piece>>, buf: seq<Piece>)

  function Flush(s: Packer): Packer {
    if s.buf == [] then s else Packer(s.out + [s.buf], [])
  }

  /** The overlap that `prev` leaves for a chunk that starts with `p`, cut to what fits. */
  function CarryInto(prev: Piece, p: Piece, max: nat, overlap: nat): seq<Piece> {
    if !p.Breakable() then []
    else match TailAtBoundary(prev, overlap)
      case None => []
      case Some(c) =>
        var budget := max - |p.text| - |SEP|;
        if |c.text| <= budget then [c]
        else match TailAtBoundary(c, budget)
          case None => []
          case Some(d) => [d]
  }

  /** The packer with room for `p`: flushed, with a carry, if `p` does not fit. */
  function MakeRoom(s: Packer, p: Piece, max: nat, overlap: nat): Packer {
    if s.buf != [] && Len(s.buf) + |SEP| + |p.text| > max
    then Packer(s.out + [s.buf], CarryInto(Last(s.buf), p, max, overlap)) else s
  }

  function AddPiece(s: Packer, p: Piece, max: nat, overlap: nat): Packer {
    var r := MakeRoom(s, p, max, overlap);
    var added := Packer(r.out, r.buf + [p]);
    if |p.text| > max then Flush(added) else added
  }

  function AddAll(s: Packer, pieces: seq<Piece>, max: nat, overlap: nat): Packer
    decreases |pieces|
  {
    if pieces == [] then s else AddAll(AddPiece(s, pieces[0], max, overlap), pieces[1..], max, overlap)
  }

  function AddTitle(s: Packer, p: Piece): Packer { Packer(Flush(s).out, [p]) }

  function PiecesOf(b: Block, max: nat, overlap: nat, wholeTables: bool): seq<Piece>
    requires max > 0
  {
    match b.kind
    case Title => [WholePiece(b, TitleLine)]
    case Para => SplitParaSpec(b, max, overlap)
    case Table => SplitTableSpec(b, max, wholeTables)
    case Code => [WholePiece(b, WholeFence)]
  }

  /** `q` is a whole heading line, code fence or table, or one table row under the table's
      header: what the program never splits. */
  ghost predicate IsWholeUnit(b: Block, q: Piece) {
    match b.kind
    case Title => q == WholePiece(b, TitleLine)
    case Code => q == WholePiece(b, WholeFence)
    case Table =>
      || q == WholePiece(b, WholeTable)
      || exists g: Group ::
           && |HeaderOf(b.lines)| <= g.lo && g.hi == g.lo + 1 <= |b.lines|
           && (q == GroupPiece(b, HeaderOf(b.lines), g, true) || q == GroupPiece(b, HeaderOf(b.lines), g, false))
    case Para => false
  }

  lemma {:induction false} GroupPiecesAre(b: Block, header: seq<string>, groups: seq<Group>, k: nat, max: nat,
          lo: nat, q: Piece)
    requires k <= |groups| && InLines(groups, |b.lines|) && header == HeaderOf(b.lines) && |header| <= lo
    requires Tile(b.lines, RowsLen(header), max, groups, k, lo)
    requires q in GroupPieces(b, header, groups, k) && Unsplittable(q) && b.kind == Table
    ensures IsWholeUnit(b, q)
    decreases |groups| - k
  {
    hide RowsLen, GroupPiece, HeaderOf;
    var g := groups[k];
    if q == GroupPiece(b, header, g, k == 0) {
      assert g.hi == g.lo + 1 by { GroupRole(b, header, g, k == 0); }
    } else {
      GroupPiecesAre(b, header, groups, k + 1, max, g.hi, q);
    }
  }

  lemma {:induction false} GroupRole(b: Block, header: seq<string>, g: Group, first: bool)
    requires g.lo < g.hi <= |b.lines|
    ensures GroupPiece(b, header, g, first).role == Rows(g.hi - g.lo)
  {
  }

  lemma {:induction false} ParaRoles(b: Block, text: string, eff: nat, pos: nat, q: Piece)
    requires pos <= |text| && eff > 0 && q in ParaPieces(b, text, eff, pos)
    ensures q.role == Sentences
    decreases |text| - pos
  {
    var end := CutAfter(text, pos, eff);
    if q in ParaPieces(b, text, eff, end) {
      ParaRoles(b, text, eff, end, q);
    }
  }

  /** The pieces that may exceed the limit are whole units. */
  lemma {:induction false} UnsplittableIsWhole(b: Block, max: nat, overlap: nat, wholeTables: bool, q: Piece)
    requires max > 0 && q in PiecesOf(b, max, overlap, wholeTables) && Unsplittable(q)
    ensures IsWholeUnit(b, q)
  {
    hide Newlines, CutAfter, Trim, RowsLen, Join, TableGroups, GroupPiece;
    match b.kind {
      case Para =>
        if |ParaText(b)| > max { ParaRoles(b, ParaText(b), WindowSize(max, overlap), 0, q); }
      case Table =>
        var header := HeaderOf(b.lines);
        TableGroupsTile(b.lines, max);
        if q != WholePiece(b, WholeTable) {
          GroupPiecesAre(b, header, TableGroups(b.lines, max), 0, max, |header|, q);
        }
      case _ =>
    }
  }

  function AddBlock(s: Packer, b: Block, max: nat, overlap: nat, wholeTables: bool): Packer
    requires max > 0
  {
    if b.kind == Title then AddTitle(s, WholePiece(b, TitleLine))
    else AddAll(s, PiecesOf(b, max, overlap, wholeTables), max, overlap)
  }

  function AddBlocks(s: Packer, blocks: seq<Block>, max: nat, overlap: nat, wholeTables: bool): Packer
    requires max > 0
    decreases |blocks|
  {
    if blocks == [] then s
    else AddBlocks(AddBlock(s, blocks[0], max, overlap, wholeTables), blocks[1..], max, overlap, wholeTables)
  }

  // ----- what every chunk satisfies -----

  /** All lines of the piece are in one section and on one page, and it knows which. */
  predicate Placed(doc: seq<Line>, p: Piece) {
    && 1 <= p.start <= p.end <= |doc| && p.path == PathAt(doc, p.start)
    && forall line :: p.start <= line <= p.end ==> IsWith(doc, line, p.start, p.page)
  }

  /** No heading line lies between the two. */
  predicate SameSection(doc: seq<Line>, p: Piece, q: Piece) {
    p.start <= |doc| && q.start <= |doc| && HeadsAbove(doc, p.start) == HeadsAbove(doc, q.start)
  }

  /** The pieces of one chunk: in line order, in one section, with a heading or a carried
      overlap in first place only, and within the limit unless there is just one
      unsplittable piece. */
  predicate GroupOk(doc: seq<Line>, g: seq<Piece>, max: nat) {
    && g != [] && Ordered(g) && Last(g).role != Carry
    && (forall k :: 0 <= k < |g| ==>
          && PieceOk(g[k], max) && Placed(doc, g[k]) && SameSection(doc, g[k], g[0])
          && (k > 0 ==> g[k].role != Carry && g[k].role != TitleLine))
    && (Len(g) <= max || (|g| == 1 && Unsplittable(g[0])))
  }

  /** `h` comes right after `g`; a carry in front of `h` is an end of the last text of `g`. */
  predicate Follows(g: seq<Piece>, h: seq<Piece>, overlap: nat) {
    && g != [] && h != []
    && Last(g).start <= h[0].start && Last(g).end <= h[0].end
    && (h[0].role == Carry ==> |h[0].text| <= overlap && IsSuffix(h[0].text, Last(g).text))
  }

  /** Nothing is carried into the first chunk. */
  predicate NoFirstCarry(s: Packer) {
    var g := if s.out == [] then s.buf else s.out[0];
    g != [] ==> g[0].role != Carry
  }

  /** Everything flushed or buffered so far is in order and ends by line `at`. */
  predicate Packed(doc: seq<Line>, s: Packer, at: nat, max: nat, overlap: nat) {
    && (forall k :: 0 <= k < |s.out| ==> GroupOk(doc, s.out[k], max))
    && (forall k :: 0 <= k < |s.out| - 1 ==> Follows(s.out[k], s.out[k + 1], overlap))
    && NoFirstCarry(s)
    && (s.out != [] ==> Last(s.out[|s.out| - 1]).end <= at)
    && (s.buf != [] ==>
          && GroupOk(doc, s.buf, max) && Last(s.buf).end <= at
          && (s.out != [] ==> Follows(s.out[|s.out| - 1], s.buf, overlap)))
  }

  lemma {:induction false} FlushKeepsPacked(doc: seq<Line>, s: Packer, at: nat, max: nat, overlap: nat)
    requires Packed(doc, s, at, max, overlap)
    ensures Packed(doc, Flush(s), at, max, overlap)
  {
    hide GroupOk, Follows;
  }

  lemma {:induction false} LenOfTwo(c: Piece, p: Piece)
    ensures Len([c, p]) == |c.text| + |SEP| + |p.text|
  {
    assert [c, p][..1] == [c];
  }

  lemma {:induction false} LenPlusOne(g: seq<Piece>, p: Piece)
    ensures Len(g + [p]) == if g == [] then |p.text| else Len(g) + |SEP| + |p.text|
  {
    assert (g + [p])[..|g + [p]| - 1] == g;
  }

  /** The overlap carried into the next chunk fits together with the piece after it. */
  lemma {:induction false} CarryFacts(doc: seq<Line>, prev: Piece, p: Piece, max: nat, overlap: nat)
    requires PieceOk(prev, max) && Placed(doc, prev) && prev.role != Carry && overlap < max
    ensures var cs := CarryInto(prev, p, max, overlap);
            cs == [] ||
            (|cs| == 1 && cs[0].role == Carry && PieceOk(cs[0], max) && Placed(doc, cs[0]) &&
             SameSection(doc, cs[0], prev) && prev.start <= cs[0].start && cs[0].end == prev.end &&
             |cs[0].text| <= overlap && IsSuffix(cs[0].text, prev.text) &&
             |cs[0].text| + |SEP| + |p.text| <= max)
  {
    hide PieceOk, TailAtBoundary, Placed, HeadsAbove, Newlines;
    if p.Breakable() && TailAtBoundary(prev, overlap).Some? {
      TailFacts(prev, overlap, max);
      var c := TailAtBoundary(prev, overlap).value;
      var budget := max - |p.text| - |SEP|;
      CarryPlaced(doc, prev, c, max);
      if |c.text| > budget && TailAtBoundary(c, budget).Some? {
        TailFacts(c, budget, max);
        var d := TailAtBoundary(c, budget).value;
        CarryPlaced(doc, c, d, max);
        assert IsSuffix(d.text, prev.text);
      }
    }
  }

  /** What ends a piece lies in the section and on the page of the piece. */
  lemma {:induction false} CarryPlaced(doc: seq<Line>, p: Piece, c: Piece, max: nat)
    requires Placed(doc, p) && PieceOk(c, max) && p.start <= c.start && c.end == p.end
    requires c.path == p.path && c.page == p.page
    ensures Placed(doc, c) && SameSection(doc, c, p)
  {
    hide PageAbove, OpenHeads, HeadsAbove;
    assert IsWith(doc, c.start, p.start, p.page);
    forall line | c.start <= line <= c.end ensures IsWith(doc, line, c.start, c.page) {
      assert IsWith(doc, line, p.start, p.page);
    }
  }

  /** A piece that may follow everything packed so far. */
  predicate MayFollow(doc: seq<Line>, s: Packer, at: nat, p: Piece, max: nat) {
    && PieceOk(p, max) && Placed(doc, p) && p.role != Carry && p.role != TitleLine && at <= p.start
    && (s.buf != [] ==> SameSection(doc, s.buf[0], p))
  }

  lemma {:induction false} GroupOfOne(doc: seq<Line>, p: Piece, max: nat)
    requires PieceOk(p, max) && Placed(doc, p) && p.role != Carry
    ensures GroupOk(doc, [p], max)
  {
  }

  lemma {:induction false} GroupOfTwo(doc: seq<Line>, c: Piece, p: Piece, max: nat)
    requires PieceOk(c, max) && PieceOk(p, max) && Placed(doc, c) && Placed(doc, p)
    requires SameSection(doc, c, p) && c.end <= p.start
    requires p.role != Carry && p.role != TitleLine && |c.text| + |SEP| + |p.text| <= max
    ensures GroupOk(doc, [c, p], max)
  {
    hide PieceOk, Placed;
    LenOfTwo(c, p);
  }

  lemma {:induction false} GroupGrows(doc: seq<Line>, g: seq<Piece>, p: Piece, max: nat)
    requires GroupOk(doc, g, max) && PieceOk(p, max) && Placed(doc, p)
    requires SameSection(doc, g[0], p) && Last(g).end <= p.start
    requires p.role != Carry && p.role != TitleLine && Len(g) + |SEP| + |p.text| <= max
    ensures GroupOk(doc, g + [p], max)
  {
    hide PieceOk, Placed, Len, HeadsAbove;
    LenPlusOne(g, p);
    forall k | 0 <= k < |g| ensures g[k].end <= p.start {
      assert PieceOk(g[|g| - 1], max);
      EndsBefore(doc, g, k, max);
    }
  }

  lemma {:induction false} EndsBefore(doc: seq<Line>, g: seq<Piece>, k: nat, max: nat)
    requires GroupOk(doc, g, max) && k < |g|
    ensures g[k].end <= Last(g).end && g[k].start <= Last(g).start && g[0].start <= g[k].start
  {
    hide Len;
    assert PieceOk(g[k], max) && PieceOk(g[|g| - 1], max) && PieceOk(g[0], max);
  }

  lemma {:induction false} FollowsAny(doc: seq<Line>, g: seq<Piece>, h: seq<Piece>, at: nat, max: nat, overlap: nat)
    requires GroupOk(doc, g, max) && Last(g).end <= at && h != [] && h[0].role != Carry
    requires at <= h[0].start <= h[0].end
    ensures Follows(g, h, overlap)
  {
    assert PieceOk(g[|g| - 1], max);
  }

  /** After making room, the buffer with `p` appended is a good group that follows the
      last chunk. */
  lemma {:induction false} RoomForPiece(doc: seq<Line>, s: Packer, at: nat, p: Piece, max: nat, overlap: nat)
    requires overlap < max && Packed(doc, s, at, max, overlap) && MayFollow(doc, s, at, p, max)
    ensures var r := MakeRoom(s, p, max, overlap);
            && GroupOk(doc, r.buf + [p], max)
            && (r.out != [] ==>
                  GroupOk(doc, r.out[|r.out| - 1], max) && Follows(r.out[|r.out| - 1], r.buf + [p], overlap))
  {
    hide PieceOk, Placed, SameSection, HeadsAbove, Len, CarryInto, Ordered;
    assert p.start <= p.end by { PieceSpan(p, max); }
    var r := MakeRoom(s, p, max, overlap);
    if s.buf == [] {
      GroupOfOne(doc, p, max);
      assert [] + [p] == [p];
      if s.out != [] { FollowsAny(doc, s.out[|s.out| - 1], [p], at, max, overlap); }
    } else if r == s {
      GroupGrows(doc, s.buf, p, max);
    } else {
      assert PieceOk(Last(s.buf), max);
      CarryFacts(doc, Last(s.buf), p, max, overlap);
      if r.buf == [] {
        GroupOfOne(doc, p, max);
        assert [] + [p] == [p];
        FollowsAny(doc, s.buf, [p], at, max, overlap);
      } else {
        SectionTrans(doc, r.buf[0], Last(s.buf), s.buf[0], p);
        GroupOfTwo(doc, r.buf[0], p, max);
        assert r.buf + [p] == [r.buf[0], p];
      }
    }
  }

  lemma {:induction false} SectionTrans(doc: seq<Line>, a: Piece, b: Piece, c: Piece, d: Piece)
    requires SameSection(doc, a, b) && SameSection(doc, b, c) && SameSection(doc, c, d)
    ensures SameSection(doc, a, d)
  {
  }

  lemma {:induction false} PieceSpan(p: Piece, max: nat)
    requires PieceOk(p, max)
    ensures p.start <= p.end
  {
  }

  /** Adding a piece keeps every property of the packing. */
  lemma {:induction false} AddPieceKeepsPacked(doc: seq<Line>, s: Packer, at: nat, p: Piece, max: nat, overlap: nat)
    requires overlap < max && Packed(doc, s, at, max, overlap) && MayFollow(doc, s, at, p, max)
    ensures var t := AddPiece(s, p, max, overlap);
            Packed(doc, t, p.end, max, overlap) && (t.buf != [] ==> SameSection(doc, t.buf[0], p))
  {
    RoomForPiece(doc, s, at, p, max, overlap);
    PieceSpan(p, max);
    var r := MakeRoom(s, p, max, overlap);
    assert GroupOk(doc, r.buf + [p], max);
    assert SameSection(doc, (r.buf + [p])[|r.buf|], (r.buf + [p])[0]);
    hide GroupOk, Follows, PieceOk, Placed, Len, CarryInto;
    assert Last(r.buf + [p]) == p;
    AppendGroup(doc, s, r, at, p, max, overlap);
  }

  lemma {:induction false} AppendGroup(doc: seq<Line>, s: Packer, r: Packer, at: nat, p: Piece, max: nat, overlap: nat)
    requires Packed(doc, s, at, max, overlap) && at <= p.end
    requires (r == s || (s.buf != [] && r.out == s.out + [s.buf])) && p.role != Carry
    requires GroupOk(doc, r.buf + [p], max)
    requires r.out != [] ==> Follows(r.out[|r.out| - 1], r.buf + [p], overlap)
    ensures Packed(doc, Packer(r.out, r.buf + [p]), p.end, max, overlap)
    ensures Packed(doc, Packer(r.out + [r.buf + [p]], []), p.end, max, overlap)
  {
    hide GroupOk, Follows;
    assert forall k :: 0 <= k < |r.out| - 1 ==> Follows(r.out[k], r.out[k + 1], overlap);
    var all := r.out + [r.buf + [p]];
    forall k | 0 <= k < |all| - 1 ensures Follows(all[k], all[k + 1], overlap) {
      if k < |r.out| - 1 {
        assert all[k] == r.out[k] && all[k + 1] == r.out[k + 1];
      }
    }
  }

  /** A heading starts a new chunk. */
  lemma {:induction false} AddTitleKeepsPacked(doc: seq<Line>, s: Packer, at: nat, p: Piece, max: nat, overlap: nat)
    requires Packed(doc, s, at, max, overlap) && PieceOk(p, max) && Placed(doc, p) && p.role == TitleLine &&
      at <= p.start
    ensures Packed(doc, AddTitle(s, p), p.end, max, overlap)
  {
    FlushKeepsPacked(doc, s, at, max, overlap);
    PieceSpan(p, max);
    GroupOfOne(doc, p, max);
    var f := Flush(s);
    if f.out != [] { FollowsAny(doc, f.out[|f.out| - 1], [p], at, max, overlap); }
  }

  // ----- the fresh pieces -----

  /** The pieces of a group that are not carried over. */
  function Fresh(g: seq<Piece>): seq<Piece> {
    if g == [] then [] else Fresh(g[..|g| - 1]) + if Last(g).role == Carry then [] else [Last(g)]
  }

  function AllFresh(groups: seq<seq<Piece>>): seq<Piece> {
    if groups == [] then [] else AllFresh(groups[..|groups| - 1]) + Fresh(groups[|groups| - 1])
  }

  /** Every piece packed so far, without carries, in order. */
  function Stored(s: Packer): seq<Piece> { AllFresh(s.out) + Fresh(s.buf) }

  lemma {:induction false} FreshPlusOne(g: seq<Piece>, p: Piece)
    requires p.role != Carry
    ensures Fresh(g + [p]) == Fresh(g) + [p]
  {
    assert (g + [p])[..|g + [p]| - 1] == g;
  }

  lemma {:induction false} FreshCarry(cs: seq<Piece>)
    requires cs == [] || (|cs| == 1 && cs[0].role == Carry)
    ensures Fresh(cs) == []
  {
    if cs != [] { assert cs[..0] == []; }
  }

  lemma {:induction false} AllFreshPlusOne(groups: seq<seq<Piece>>, g: seq<Piece>)
    ensures AllFresh(groups + [g]) == AllFresh(groups) + Fresh(g)
  {
    assert (groups + [g])[..|groups + [g]| - 1] == groups;
  }

  lemma {:induction false} MakeRoomStores(s: Packer, p: Piece, max: nat, overlap: nat)
    ensures Stored(MakeRoom(s, p, max, overlap)) == Stored(s)
  {
    CarryRole(s, p, max, overlap);
    hide Len, TailAtBoundary, CarryInto;
    var r := MakeRoom(s, p, max, overlap);
    if r != s {
      AllFreshPlusOne(s.out, s.buf);
      FreshCarry(r.buf);
      assert AllFresh(s.out) + Fresh(s.buf) + [] == AllFresh(s.out) + Fresh(s.buf);
    }
  }

  /** Nothing is lost, repeated or reordered, apart from carries. */
  lemma {:induction false} AddPieceStores(s: Packer, p: Piece, max: nat, overlap: nat)
    requires p.role != Carry
    ensures Stored(AddPiece(s, p, max, overlap)) == Stored(s) + [p]
  {
    FreshCarry([]);
    hide AllFresh, Fresh, MakeRoom;
    var r := MakeRoom(s, p, max, overlap);
    MakeRoomStores(s, p, max, overlap);
    FreshPlusOne(r.buf, p);
    AllFreshPlusOne(r.out, r.buf + [p]);
    Assoc(AllFresh(r.out), Fresh(r.buf), [p]);
  }

  lemma {:induction false} CarryRole(s: Packer, p: Piece, max: nat, overlap: nat)
    ensures var r := MakeRoom(s, p, max, overlap);
            r == s || r.buf == [] || (|r.buf| == 1 && r.buf[0].role == Carry)
  {
  }

  lemma {:induction false} AddTitleStores(s: Packer, p: Piece)
    requires p.role != Carry
    ensures Stored(AddTitle(s, p)) == Stored(s) + [p]
  {
    AllFreshPlusOne(s.out, s.buf);
    FreshPlusOne([], p);
    assert [] + [p] == [p];
  }
}
