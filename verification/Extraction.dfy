/** `_split_for_extraction_with_offsets`: H1/H2 sections, packed into exact line slices of
    the text; sections over the limit go through the chunker. */
module Extraction {
  import opened Text
  import opened Lines
  import opened Blocks
  import opened Pieces
  import opened Packing
  import opened Chunker

  /** Lines `lo` up to `hi` under the heading `head`. */
  datatype Section = Section(head: string, lo: nat, hi: nat)

  /** `exact` units are line slices; the others hold the content of a chunk. */
  datatype Unit = Unit(head: string, content: string, lo: nat, hi: nat, exact: bool)

  datatype Segment = Segment(headingPath: string, content: string, sourceText: string, lineOffset: nat)

  // ----- sections -----

  predicate HasInk(doc: seq<Line>, i: nat, j: nat)
    requires i <= j <= |doc|
  {
    exists k :: i <= k < j && doc[k].mark != Empty
  }

  /** What the section loop remembers: where the current section starts, its heading, the
      last H1 title, and whether an odd number of fence lines has been seen. */
  datatype Scan = Scan(start: nat, head: string, h1: string, inFence: bool)

  predicate OpensSection(line: Line, s: Scan) {
    !s.inFence && line.mark.Heading? && line.mark.head.level <= 2
  }

  function Enter(s: Scan, i: nat, h: Head): Scan {
    if h.level == 1 then Scan(i, h.title, h.title, s.inFence)
    else Scan(i, if s.h1 != "" then s.h1 + " > " + h.title else h.title, s.h1, s.inFence)
  }

  function Close(doc: seq<Line>, s: Scan, i: nat): seq<Section>
    requires s.start <= i <= |doc|
  {
    if HasInk(doc, s.start, i) then [Section(s.head, s.start, i)] else []
  }

  function SectionsFrom(doc: seq<Line>, i: nat, s: Scan): seq<Section>
    requires s.start <= i <= |doc|
    decreases |doc| - i
  {
    if i == |doc| then Close(doc, s, i)
    else if doc[i].mark.Fence? then SectionsFrom(doc, i + 1, s.(inFence := !s.inFence))
    else if OpensSection(doc[i], s) then Close(doc, s, i) + SectionsFrom(doc, i + 1, Enter(s, i, doc[i].mark.head))
    else SectionsFrom(doc, i + 1, s)
  }

  const START := Scan(0, "", "", false)

  method SplitSections(doc: seq<Line>) returns (sections: seq<Section>)
    ensures sections == SectionsFrom(doc, 0, START)
  {
    hide HasInk;
    sections := [];
    var s := START;
    for i := 0 to |doc|
      invariant s.start <= i
      invariant sections + SectionsFrom(doc, i, s) == SectionsFrom(doc, 0, START)
    {
      if doc[i].mark.Fence? {
        s := s.(inFence := !s.inFence);
      } else if OpensSection(doc[i], s) {
        Assoc(sections, Close(doc, s, i), SectionsFrom(doc, i + 1, Enter(s, i, doc[i].mark.head)));
        sections := sections + Close(doc, s, i);
        s := Enter(s, i, doc[i].mark.head);
      }
    }
    sections := sections + Close(doc, s, |doc|);
  }

  /** Sections lie in `[from, |doc|)` in order and hold every line that is not blank. */
  predicate SectionsTile(doc: seq<Line>, sections: seq<Section>, from: nat)
    decreases |sections|
  {
    if sections == [] then from <= |doc| && !HasInk(doc, from, |doc|)
    else
      var s := sections[0];
      && from <= s.lo < s.hi <= |doc| && !HasInk(doc, from, s.lo) && HasInk(doc, s.lo, s.hi)
      && SectionsTile(doc, sections[1..], s.hi)
  }

  lemma {:induction false} SkipBlank(doc: seq<Line>, sections: seq<Section>, from: nat, i: nat)
    requires from <= i <= |doc| && !HasInk(doc, from, i) && SectionsTile(doc, sections, i)
    ensures SectionsTile(doc, sections, from)
  {
  }

  lemma {:induction false} SectionsTileDoc(doc: seq<Line>, i: nat, s: Scan)
    requires s.start <= i <= |doc|
    ensures SectionsTile(doc, SectionsFrom(doc, i, s), s.start)
    decreases |doc| - i
  {
    if i == |doc| {
      assert HasInk(doc, s.start, i) ==> s.start < i;
    } else if doc[i].mark.Fence? {
      SectionsTileDoc(doc, i + 1, s.(inFence := !s.inFence));
    } else if OpensSection(doc[i], s) {
      var rest := SectionsFrom(doc, i + 1, Enter(s, i, doc[i].mark.head));
      SectionsTileDoc(doc, i + 1, Enter(s, i, doc[i].mark.head));
      if HasInk(doc, s.start, i) {
        assert ([Section(s.head, s.start, i)] + rest)[1..] == rest;
      } else {
        assert [] + rest == rest;
        SkipBlank(doc, rest, s.start, i);
      }
    } else {
      SectionsTileDoc(doc, i + 1, s);
    }
  }

  // ----- where sections begin -----

  predicate OddFences(doc: seq<Line>, i: nat)
    requires i <= |doc|
  {
    i > 0 && (OddFences(doc, i - 1) != doc[i - 1].mark.Fence?)
  }

  /** An H1 or H2 line with an even number of fence lines above it. */
  predicate OpensAt(doc: seq<Line>, k: nat) {
    k < |doc| && !OddFences(doc, k) && doc[k].mark.Heading? && doc[k].mark.head.level <= 2
  }

  /** The title of the nearest H1 above line `i` that opens a section. */
  function LastH1(doc: seq<Line>, i: nat): string
    requires i <= |doc|
  {
    if i == 0 then ""
    else if OpensAt(doc, i - 1) && doc[i - 1].mark.head.level == 1 then doc[i - 1].mark.head.title
    else LastH1(doc, i - 1)
  }

  function HeadAt(doc: seq<Line>, k: nat): string
    requires k < |doc|
  {
    if !OpensAt(doc, k) then ""
    else if doc[k].mark.head.level != 1 && LastH1(doc, k) != "" then LastH1(doc, k) + " > " + doc[k].mark.head.title
    else doc[k].mark.head.title
  }

  /** A section opens at the beginning or at an H1 or H2, ends at the next one or at the end, has
      none inside, and carries its own heading. */
  predicate SectionIs(doc: seq<Line>, s: Section) {
    && s.lo < s.hi <= |doc| && (s.lo == 0 || OpensAt(doc, s.lo)) && (s.hi == |doc| || OpensAt(doc, s.hi))
    && (forall k :: s.lo < k < s.hi ==> !OpensAt(doc, k))
    && s.head == HeadAt(doc, s.lo)
  }

  /** What the loop knows before line `i`. */
  predicate ScanIs(doc: seq<Line>, i: nat, s: Scan)
    requires i <= |doc|
  {
    && s.start <= i && s.inFence == OddFences(doc, i) && s.h1 == LastH1(doc, i)
    && (s.start == 0 || OpensAt(doc, s.start)) && (forall k :: s.start < k < i ==> !OpensAt(doc, k))
    && if i == 0 then s.head == "" else s.start < i && s.head == HeadAt(doc, s.start)
  }

  lemma {:induction false} ScanStep(doc: seq<Line>, i: nat, s: Scan)
    requires i < |doc| && ScanIs(doc, i, s)
    ensures OpensSection(doc[i], s) <==> OpensAt(doc, i)
    ensures OpensAt(doc, i) ==> ScanIs(doc, i + 1, Enter(s, i, doc[i].mark.head))
    ensures doc[i].mark.Fence? ==> ScanIs(doc, i + 1, s.(inFence := !s.inFence))
    ensures !OpensAt(doc, i) && !doc[i].mark.Fence? ==> ScanIs(doc, i + 1, s)
  {
  }

  lemma {:induction false} SectionsFromAre(doc: seq<Line>, i: nat, s: Scan)
    requires i <= |doc| && ScanIs(doc, i, s)
    ensures forall section :: section in SectionsFrom(doc, i, s) ==> SectionIs(doc, section)
    decreases |doc| - i
  {
    if i == |doc| {
    } else {
      ScanStep(doc, i, s);
      hide OpensAt, HeadAt, HasInk;
      if doc[i].mark.Fence? {
        SectionsFromAre(doc, i + 1, s.(inFence := !s.inFence));
      } else if OpensSection(doc[i], s) {
        SectionsFromAre(doc, i + 1, Enter(s, i, doc[i].mark.head));
      } else {
        SectionsFromAre(doc, i + 1, s);
      }
    }
  }

  lemma {:induction false} TileHas(doc: seq<Line>, sections: seq<Section>, from: nat, k: nat) returns (m: nat)
    requires SectionsTile(doc, sections, from) && from <= k < |doc| && doc[k].mark != Empty
    ensures m < |sections| && sections[m].lo <= k < sections[m].hi
    decreases |sections|
  {
    var s := sections[0];
    if k < s.hi {
      m := 0;
    } else {
      var n := TileHas(doc, sections[1..], s.hi, k);
      m := n + 1;
    }
  }

  predicate BeginsOne(sections: seq<Section>, k: nat) { exists m :: 0 <= m < |sections| && sections[m].lo == k }

  /** Sections open exactly at the beginning and at the H1 and H2 lines outside fences: each one
      there opens a section. */
  lemma {:induction false} SectionsOpenAtHeadings(doc: seq<Line>)
    ensures forall section :: section in SectionsFrom(doc, 0, START) ==> SectionIs(doc, section)
    ensures forall k :: OpensAt(doc, k) ==> BeginsOne(SectionsFrom(doc, 0, START), k)
  {
    SectionsFromAre(doc, 0, START);
    SectionsTileDoc(doc, 0, START);
    var sections := SectionsFrom(doc, 0, START);
    hide SectionsFrom, SectionsTile;
    forall k | OpensAt(doc, k) ensures BeginsOne(sections, k) {
      var m := TileHas(doc, sections, 0, k);
      assert sections[m] in sections && SectionIs(doc, sections[m]);
      hide OpensAt;
    }
  }

  // ----- units -----

  function FirstInk(doc: seq<Line>, i: nat, j: nat): (k: nat)
    requires i <= j <= |doc| && HasInk(doc, i, j)
    ensures i <= k < j && doc[k].mark != Empty && !HasInk(doc, i, k)
    decreases j - i
  {
    if doc[i].mark != Empty then i else FirstInk(doc, i + 1, j)
  }

  function LastInk(doc: seq<Line>, i: nat, j: nat): (k: nat)
    requires i <= j <= |doc| && HasInk(doc, i, j)
    ensures i <= k < j && doc[k].mark != Empty && !HasInk(doc, k + 1, j)
    decreases j
  {
    if doc[j - 1].mark != Empty then j - 1 else LastInk(doc, i, j - 1)
  }

  function Slice(doc: seq<Line>, lo: nat, hi: nat): string
    requires lo <= hi <= |doc|
  {
    Join(NEWLINE, Texts(doc, lo, hi))
  }

  function ChunkUnits(chunks: seq<Chunk>, head: string, offset: nat): seq<Unit>
    requires forall k :: 0 <= k < |chunks| ==> chunks[k].start >= 1
  {
    if chunks == [] then []
    else
      var c := chunks[|chunks| - 1];
      ChunkUnits(chunks[..|chunks| - 1], head, offset) +
      [Unit(if c.headingPath != "" then c.headingPath else head, c.content,
            offset + c.start - 1, offset + c.end, false)]
  }

  /** The chunks of an over-long section; overlap 0, tables by rows. */
  function SectionChunks(doc: seq<Line>, lo: nat, hi: nat, max: nat): (chunks: seq<Chunk>)
    requires lo <= hi <= |doc| && max > 0
    ensures forall k :: 0 <= k < |chunks| ==> chunks[k].start >= 1
  {
    ChunkStarts(Slice(doc, lo, hi), Params(max, 0, false));
    ChunksOf(Slice(doc, lo, hi), Params(max, 0, false))
  }

  function SectionUnits(doc: seq<Line>, s: Section, max: nat): seq<Unit>
    requires s.lo <= s.hi <= |doc| && HasInk(doc, s.lo, s.hi) && max > 0
  {
    var lo, hi := FirstInk(doc, s.lo, s.hi), LastInk(doc, s.lo, s.hi) + 1;
    InkBounds(doc, s.lo, s.hi);
    var text := Slice(doc, lo, hi);
    if |text| <= max then [Unit(s.head, text, lo, hi, true)]
    else ChunkUnits(SectionChunks(doc, lo, hi, max), s.head, lo)
  }

  lemma {:induction false} InkBounds(doc: seq<Line>, i: nat, j: nat)
    requires i <= j <= |doc| && HasInk(doc, i, j)
    ensures FirstInk(doc, i, j) <= LastInk(doc, i, j)
  {
  }

  lemma {:induction false} ToChunksAt(groups: seq<seq<Piece>>)
    requires forall k :: 0 <= k < |groups| ==> groups[k] != []
    ensures |ToChunks(groups)| == |groups|
    ensures forall k :: 0 <= k < |groups| ==> ToChunks(groups)[k] == ToChunk(groups[k])
  {
    hide ToChunk;
    if groups != [] {
      ToChunksAt(groups[..|groups| - 1]);
    }
  }

  lemma {:induction false} ChunkAt(markdown: string, p: Params, k: nat)
    requires Valid(p) && k < |ChunksOf(markdown, p)|
    ensures var gs := Groups(Read(SplitLines(markdown)), p);
            |gs| == |ChunksOf(markdown, p)| && gs[k] != [] && ChunksOf(markdown, p)[k] == ToChunk(gs[k])
  {
    hide Groups, Read, ToChunk;
    GroupsAreNonEmpty(SplitLines(markdown), p);
    ToChunksAt(Groups(Read(SplitLines(markdown)), p));
  }

  /** Line anchors of a chunk lie in the text it was cut from. */
  lemma {:induction false} ChunkLines(markdown: string, p: Params, k: nat)
    requires Valid(p) && k < |ChunksOf(markdown, p)|
    ensures var c := ChunksOf(markdown, p)[k]; 1 <= c.start <= c.end <= |SplitLines(markdown)|
  {
    hide Groups, Read, SplitLines, WellRead, ChunksOf, Content, PathAt, PageAbove;
    ReadIsWellRead(SplitLines(markdown));
    ChunkAt(markdown, p, k);
    ChunksKeepSections(Read(SplitLines(markdown)), p, k);
  }

  lemma {:induction false} ChunkStarts(markdown: string, p: Params)
    requires Valid(p)
    ensures forall k :: 0 <= k < |ChunksOf(markdown, p)| ==> ChunksOf(markdown, p)[k].start >= 1
  {
    hide ChunksOf;
    forall k | 0 <= k < |ChunksOf(markdown, p)| ensures ChunksOf(markdown, p)[k].start >= 1 {
      ChunkLines(markdown, p, k);
    }
  }

  /** A line that must appear: neither blank nor a page anchor. */
  predicate Required(line: Line) { line.mark != Empty && !line.mark.Anchor? }

  predicate UnitCovers(units: seq<Unit>, k: nat) {
    exists m :: 0 <= m < |units| && units[m].lo <= k < units[m].hi
  }

  /** Units in `[i, j)`: valid slices in order; exact ones fit and do not overlap what
      follows; every required line of the range is in one. */
  predicate UnitsOk(doc: seq<Line>, units: seq<Unit>, i: nat, j: nat, max: nat) {
    && i <= j <= |doc|
    && (forall k :: 0 <= k < |units| ==>
          && i <= units[k].lo < units[k].hi <= j
          && (units[k].exact ==> units[k].content == Slice(doc, units[k].lo, units[k].hi) && |units[k].content| <= max))
    && (forall a, b :: 0 <= a < b < |units| ==>
          units[a].lo <= units[b].lo && (units[a].exact ==> units[a].hi <= units[b].lo))
    && (forall k :: i <= k < j && Required(doc[k]) ==> UnitCovers(units, k))
  }

  lemma {:induction false} UnitsConcat(doc: seq<Line>, us: seq<Unit>, vs: seq<Unit>, i: nat, j: nat, n: nat, max: nat)
    requires UnitsOk(doc, us, i, j, max) && UnitsOk(doc, vs, j, n, max)
    ensures UnitsOk(doc, us + vs, i, n, max)
  {
    hide Slice, Required;
    forall k | i <= k < n && Required(doc[k]) ensures UnitCovers(us + vs, k) {
      if k < j {
        var m :| 0 <= m < |us| && us[m].lo <= k < us[m].hi;
        assert (us + vs)[m] == us[m];
      } else {
        var m :| 0 <= m < |vs| && vs[m].lo <= k < vs[m].hi;
        assert (us + vs)[|us| + m] == vs[m];
      }
    }
  }

  lemma {:induction false} NoInkNoUnits(doc: seq<Line>, i: nat, j: nat, max: nat)
    requires i <= j <= |doc| && !HasInk(doc, i, j)
    ensures UnitsOk(doc, [], i, j, max)
  {
  }

  /** The chunker sees exactly the lines of the section: the text it is given splits back
      into them. */
  lemma {:induction false} SubDocument(doc: seq<Line>, lo: nat, hi: nat)
    requires WellRead(doc) && lo < hi <= |doc| && doc[hi - 1].mark != Empty
    ensures SplitLines(Slice(doc, lo, hi)) == Texts(doc, lo, hi)
  {
    hide SplitLines, Join, Breakless;
    var lines := Texts(doc, lo, hi);
    assert lines[|lines| - 1] == doc[hi - 1].text;
    assert doc[hi - 1].text != [] by { StripFacts(doc[hi - 1].text); }
    SplitOfJoin(lines);
  }

  predicate Marked(doc: seq<Line>) {
    forall k :: 0 <= k < |doc| ==> doc[k].mark == Classify(doc[k].text)
  }

  lemma {:induction false} ChunkUnitsAt(chunks: seq<Chunk>, head: string, offset: nat)
    requires forall k :: 0 <= k < |chunks| ==> chunks[k].start >= 1
    ensures var us := ChunkUnits(chunks, head, offset);
            |us| == |chunks| &&
            forall k :: 0 <= k < |us| ==>
              !us[k].exact && us[k].lo == offset + chunks[k].start - 1 && us[k].hi == offset + chunks[k].end
  {
    if chunks != [] {
      ChunkUnitsAt(chunks[..|chunks| - 1], head, offset);
    }
  }

  lemma {:induction false} ChunksOrder(markdown: string, p: Params, a: nat, b: nat)
    requires Valid(p) && a <= b < |ChunksOf(markdown, p)|
    ensures var cs := ChunksOf(markdown, p); cs[a].start <= cs[b].start && cs[a].end <= cs[b].end
  {
    hide Groups, Read, SplitLines, WellRead, ChunksOf, Content, MinStart, MaxEnd;
    ReadIsWellRead(SplitLines(markdown));
    ChunkAt(markdown, p, a);
    ChunkAt(markdown, p, b);
    ChunksInOrder(Read(SplitLines(markdown)), p, a, b);
  }

  /** Some chunk covers line `k` (0-based) if it is required. */
  lemma {:induction false} ChunksCover(markdown: string, p: Params, k: nat) returns (m: nat)
    requires Valid(p) && k < |SplitLines(markdown)| && Required(Read(SplitLines(markdown))[k])
    ensures m < |ChunksOf(markdown, p)|
    ensures ChunksOf(markdown, p)[m].start <= k + 1 <= ChunksOf(markdown, p)[m].end
  {
    hide Groups, SplitLines, WellRead, ChunksOf, Content, MinStart, MaxEnd, FenceAt, Classify, FenceBar, Strip;
    var doc := Read(SplitLines(markdown));
    ReadIsWellRead(SplitLines(markdown));
    ChunksCoverLines(doc, p, k);
    var gs := Groups(doc, p);
    m :| 0 <= m < |gs| && gs[m] != [] && MinStart(gs[m]) <= k + 1 <= MaxEnd(gs[m]);
    ChunkCount(markdown, p);
    ChunkAt(markdown, p, m);
  }

  lemma {:induction false} ChunkCount(markdown: string, p: Params)
    requires Valid(p)
    ensures |ChunksOf(markdown, p)| == |Groups(Read(SplitLines(markdown)), p)|
  {
    hide Groups, Read;
    GroupsAreNonEmpty(SplitLines(markdown), p);
    ToChunksAt(Groups(Read(SplitLines(markdown)), p));
  }

  /** The units of an over-long section. */
  lemma {:induction false} ChunkUnitsOk(doc: seq<Line>, lo: nat, hi: nat, head: string, max: nat)
    requires WellRead(doc) && Marked(doc) && lo < hi <= |doc| && doc[hi - 1].mark != Empty && max > 0
    ensures UnitsOk(doc, ChunkUnits(SectionChunks(doc, lo, hi, max), head, lo), lo, hi, max)
  {
    hide SplitLines, ChunksOf, Classify, FenceBar, Strip, WellRead, Join;
    var text, p := Slice(doc, lo, hi), Params(max, 0, false);
    var chunks := SectionChunks(doc, lo, hi, max);
    var us := ChunkUnits(chunks, head, lo);
    SubDocument(doc, lo, hi);
    ChunkUnitsAt(chunks, head, lo);
    hide ChunkUnits, Slice, SectionChunks;
    assert chunks == ChunksOf(text, p);
    forall k | 0 <= k < |us| ensures lo <= us[k].lo < us[k].hi <= hi && !us[k].exact {
      ChunkLines(text, p, k);
    }
    forall a, b | 0 <= a < b < |us| ensures us[a].lo <= us[b].lo {
      ChunksOrder(text, p, a, b);
    }
    forall k | lo <= k < hi && Required(doc[k]) ensures UnitCovers(us, k) {
      assert Read(SplitLines(text))[k - lo].mark == doc[k].mark;
      var m := ChunksCover(text, p, k - lo);
      assert us[m].lo <= k < us[m].hi;
    }
  }

  lemma {:induction false} ExactUnitOk(doc: seq<Line>, head: string, lo: nat, hi: nat, max: nat)
    requires lo < hi <= |doc| && |Slice(doc, lo, hi)| <= max
    ensures UnitsOk(doc, [Unit(head, Slice(doc, lo, hi), lo, hi, true)], lo, hi, max)
  {
    hide Join, Texts, Required;
    var us := [Unit(head, Slice(doc, lo, hi), lo, hi, true)];
    forall k | lo <= k < hi ensures UnitCovers(us, k) {
      assert us[0].lo <= k < us[0].hi;
    }
  }

  /** Blank lines around a section change nothing. */
  lemma {:induction false} PadUnits(doc: seq<Line>, us: seq<Unit>, i: nat, lo: nat, hi: nat, j: nat, max: nat)
    requires i <= lo <= hi <= j <= |doc| && UnitsOk(doc, us, lo, hi, max)
    requires !HasInk(doc, i, lo) && !HasInk(doc, hi, j)
    ensures UnitsOk(doc, us, i, j, max)
  {
    NoInkNoUnits(doc, i, lo, max);
    NoInkNoUnits(doc, hi, j, max);
    hide UnitsOk, HasInk;
    UnitsConcat(doc, [], us, i, lo, hi, max);
    UnitsConcat(doc, [] + us, [], i, hi, j, max);
    assert [] + us + [] == us;
  }

  lemma {:induction false} SectionUnitsOk(doc: seq<Line>, s: Section, max: nat)
    requires WellRead(doc) && Marked(doc) && s.lo <= s.hi <= |doc| && HasInk(doc, s.lo, s.hi) && max > 0
    ensures UnitsOk(doc, SectionUnits(doc, s, max), s.lo, s.hi, max)
  {
    hide WellRead, Marked, SectionChunks, ChunkUnits, UnitsOk, Slice, HasInk;
    var lo, hi := FirstInk(doc, s.lo, s.hi), LastInk(doc, s.lo, s.hi) + 1;
    InkBounds(doc, s.lo, s.hi);
    if |Slice(doc, lo, hi)| <= max {
      ExactUnitOk(doc, s.head, lo, hi, max);
    } else {
      ChunkUnitsOk(doc, lo, hi, s.head, max);
    }
    PadUnits(doc, SectionUnits(doc, s, max), s.lo, lo, hi, s.hi, max);
  }

  function AllUnits(doc: seq<Line>, sections: seq<Section>, max: nat, from: nat): seq<Unit>
    requires SectionsTile(doc, sections, from) && max > 0
    decreases |sections|
  {
    if sections == [] then []
    else SectionUnits(doc, sections[0], max) + AllUnits(doc, sections[1..], max, sections[0].hi)
  }

  lemma {:induction false} AllUnitsOk(doc: seq<Line>, sections: seq<Section>, max: nat, from: nat)
    requires WellRead(doc) && Marked(doc) && SectionsTile(doc, sections, from) && max > 0
    ensures UnitsOk(doc, AllUnits(doc, sections, max, from), from, |doc|, max)
    decreases |sections|
  {
    hide WellRead, Marked, UnitsOk, SectionUnits;
    if sections == [] {
      NoInkNoUnits(doc, from, |doc|, max);
    } else {
      var s := sections[0];
      SectionUnitsOk(doc, s, max);
      AllUnitsOk(doc, sections[1..], max, s.hi);
      NoInkNoUnits(doc, from, s.lo, max);
      UnitsConcat(doc, [], SectionUnits(doc, s, max), from, s.lo, s.hi, max);
      assert [] + SectionUnits(doc, s, max) == SectionUnits(doc, s, max);
      UnitsConcat(doc, SectionUnits(doc, s, max), AllUnits(doc, sections[1..], max, s.hi), from, s.hi, |doc|, max);
    }
  }

  // ----- packing -----

  /** The segment of the waiting units `a` up to `k`: the slice from the first line of the
      first to the last line of the last. */
  function PackSegment(doc: seq<Line>, units: seq<Unit>, a: nat, k: nat, max: nat): seq<Segment>
    requires UnitsOk(doc, units, 0, |doc|, max) && a <= k <= |units|
  {
    if a == k then []
    else
      assert units[a].lo <= units[k - 1].lo;
      var text := Slice(doc, units[a].lo, units[k - 1].hi);
      [Segment(units[a].head, text, text, units[a].lo)]
  }

  function LoneSegment(doc: seq<Line>, u: Unit): Segment
    requires u.lo <= u.hi <= |doc|
  {
    Segment(u.head, u.content, Slice(doc, u.lo, u.hi), u.lo)
  }

  /** Does unit `k` still fit together with the waiting units from `a` on? */
  predicate Fits(doc: seq<Line>, units: seq<Unit>, a: nat, k: nat, max: nat)
    requires UnitsOk(doc, units, 0, |doc|, max) && a <= k < |units|
  {
    assert units[a].lo <= units[k].lo;
    a == k || |Slice(doc, units[a].lo, units[k].hi)| <= max
  }

  /** Segments for the units from `k` on while units `a` up to `k` are waiting to be packed. */
  function PackFrom(doc: seq<Line>, units: seq<Unit>, a: nat, k: nat, max: nat): seq<Segment>
    requires UnitsOk(doc, units, 0, |doc|, max) && a <= k <= |units|
    decreases |units| - k
  {
    if k == |units| then PackSegment(doc, units, a, k, max)
    else if !units[k].exact then
      PackSegment(doc, units, a, k, max) + ([LoneSegment(doc, units[k])] + PackFrom(doc, units, k + 1, k + 1, max))
    else if !Fits(doc, units, a, k, max) then
      PackSegment(doc, units, a, k, max) + PackFrom(doc, units, k, k + 1, max)
    else PackFrom(doc, units, a, k + 1, max)
  }

  function SegmentsOf(doc: seq<Line>, max: nat): seq<Segment>
    requires WellRead(doc) && Marked(doc) && max > 0
  {
    SectionsTileDoc(doc, 0, START);
    var units := AllUnits(doc, SectionsFrom(doc, 0, START), max, 0);
    AllUnitsOk(doc, SectionsFrom(doc, 0, START), max, 0);
    PackFrom(doc, units, 0, 0, max)
  }

  /** The source text of the segment is the lines from its offset up to `hi`. */
  predicate IsSlice(doc: seq<Line>, s: Segment, hi: nat) {
    s.lineOffset < hi <= |doc| && s.sourceText == Slice(doc, s.lineOffset, hi)
  }

  ghost predicate SegmentOk(doc: seq<Line>, units: seq<Unit>, s: Segment, max: nat) {
    && (exists hi: nat :: IsSlice(doc, s, hi))
    && ((s.content == s.sourceText && |s.content| <= max) || exists u :: IsLone(doc, units, u, s))
  }

  predicate IsLone(doc: seq<Line>, units: seq<Unit>, u: Unit, s: Segment) {
    u in units && !u.exact && u.lo < u.hi <= |doc| && s == LoneSegment(doc, u)
  }

  ghost predicate SegmentCovers(doc: seq<Line>, segments: seq<Segment>, line: nat) {
    exists m: nat, hi: nat :: m < |segments| && IsSlice(doc, segments[m], hi) && segments[m].lineOffset <= line < hi
  }

  /** What the segments for the units from `a` on guarantee. */
  ghost predicate SegmentsOk(doc: seq<Line>, units: seq<Unit>, a: nat, segments: seq<Segment>, max: nat)
    requires a <= |units|
  {
    && (forall m :: 0 <= m < |segments| ==>
          SegmentOk(doc, units, segments[m], max) && a < |units| && units[a].lo <= segments[m].lineOffset)
    && (forall m, n :: 0 <= m < n < |segments| ==> segments[m].lineOffset <= segments[n].lineOffset)
    && (forall n, line: nat ::
      a <= n < |units| && units[n].lo <= line < units[n].hi ==> SegmentCovers(doc, segments, line))
  }

  /** Units `a` up to `k` are exact and their joint slice fits. */
  predicate PackOk(doc: seq<Line>, units: seq<Unit>, a: nat, k: nat, max: nat)
    requires UnitsOk(doc, units, 0, |doc|, max) && a <= k <= |units|
  {
    && (forall m :: a <= m < k ==> units[m].exact)
    && (a < k ==> PackSegment(doc, units, a, k, max) != [] && |PackSegment(doc, units, a, k, max)[0].content| <= max)
  }

  lemma {:induction false} CoversLater(doc: seq<Line>, s: Segment, rest: seq<Segment>, line: nat)
    requires SegmentCovers(doc, rest, line)
    ensures SegmentCovers(doc, [s] + rest, line)
  {
    hide Slice;
    var m: nat, hi: nat :| m < |rest| && IsSlice(doc, rest[m], hi) && rest[m].lineOffset <= line < hi;
    assert ([s] + rest)[m + 1] == rest[m];
  }

  /** Putting a segment that covers units `a` up to `k` in front of the rest. */
  lemma {:induction false} PrependSegment(doc: seq<Line>, units: seq<Unit>, a: nat, k: nat, s: Segment, hi: nat,
          rest: seq<Segment>, max: nat)
    requires UnitsOk(doc, units, 0, |doc|, max) && a < k <= |units| && SegmentsOk(doc, units, k, rest, max)
    requires SegmentOk(doc, units, s, max) && IsSlice(doc, s, hi) && s.lineOffset == units[a].lo
    requires forall n :: a <= n < k ==> units[n].hi <= hi
    ensures SegmentsOk(doc, units, a, [s] + rest, max)
  {
    hide SegmentOk, IsSlice, Slice, Required;
    forall n, line: nat | a <= n < |units| && units[n].lo <= line < units[n].hi
      ensures SegmentCovers(doc, [s] + rest, line)
    {
      if n < k {
        assert units[a].lo <= units[n].lo;
        assert ([s] + rest)[0] == s;
      } else {
        CoversLater(doc, s, rest, line);
      }
    }
  }

  lemma {:induction false} PackEnds(doc: seq<Line>, units: seq<Unit>, a: nat, k: nat, max: nat)
    requires UnitsOk(doc, units, 0, |doc|, max) && a < k <= |units| && PackOk(doc, units, a, k, max)
    ensures forall n :: a <= n < k ==> units[n].hi <= units[k - 1].hi
    ensures var s := PackSegment(doc, units, a, k, max)[0];
            s.lineOffset == units[a].lo && IsSlice(doc, s, units[k - 1].hi) && SegmentOk(doc, units, s, max)
  {
    hide Slice, Required;
    assert units[a].lo <= units[k - 1].lo;
    forall n | a <= n < k ensures units[n].hi <= units[k - 1].hi {
      if n < k - 1 { assert units[n].hi <= units[k - 1].lo; }
    }
    assert IsSlice(doc, PackSegment(doc, units, a, k, max)[0], units[k - 1].hi);
  }

  lemma {:induction false} PackIsOk(doc: seq<Line>, units: seq<Unit>, a: nat, k: nat, rest: seq<Segment>, max: nat)
    requires UnitsOk(doc, units, 0, |doc|, max) && a <= k <= |units| && PackOk(doc, units, a, k, max)
    requires SegmentsOk(doc, units, k, rest, max)
    ensures SegmentsOk(doc, units, a, PackSegment(doc, units, a, k, max) + rest, max)
  {
    if a == k {
      assert [] + rest == rest;
    } else {
      PackEnds(doc, units, a, k, max);
      var s := PackSegment(doc, units, a, k, max)[0];
      assert PackSegment(doc, units, a, k, max) == [s];
      hide SegmentsOk, UnitsOk, PackOk, IsSlice, SegmentOk, PackSegment;
      PrependSegment(doc, units, a, k, s, units[k - 1].hi, rest, max);
    }
  }

  lemma {:induction false} LoneIsOk(doc: seq<Line>, units: seq<Unit>, k: nat, rest: seq<Segment>, max: nat)
    requires UnitsOk(doc, units, 0, |doc|, max) && k < |units| && !units[k].exact
    requires SegmentsOk(doc, units, k + 1, rest, max)
    ensures SegmentsOk(doc, units, k, [LoneSegment(doc, units[k])] + rest, max)
  {
    hide Slice, Required, SegmentsOk;
    var s := LoneSegment(doc, units[k]);
    assert IsSlice(doc, s, units[k].hi);
    assert IsLone(doc, units, units[k], s);
    PrependSegment(doc, units, k, k + 1, s, units[k].hi, rest, max);
  }

  lemma {:induction false} SingleFits(doc: seq<Line>, units: seq<Unit>, a: nat, k: nat, max: nat)
    requires UnitsOk(doc, units, 0, |doc|, max) && a <= k < |units| && units[k].exact
    requires PackOk(doc, units, a, k, max) && Fits(doc, units, a, k, max)
    ensures PackOk(doc, units, a, k + 1, max)
  {
    hide Slice, Required;
  }

  lemma {:induction false} NothingWaits(doc: seq<Line>, units: seq<Unit>, k: nat, max: nat)
    requires UnitsOk(doc, units, 0, |doc|, max) && k <= |units|
    ensures PackOk(doc, units, k, k, max)
  {
  }

  lemma {:induction false} FitsAlone(doc: seq<Line>, units: seq<Unit>, k: nat, max: nat)
    requires UnitsOk(doc, units, 0, |doc|, max) && k < |units|
    ensures Fits(doc, units, k, k, max) && PackOk(doc, units, k, k, max)
  {
  }

  lemma {:induction false} PackStep(doc: seq<Line>, units: seq<Unit>, a: nat, k: nat, max: nat)
    requires UnitsOk(doc, units, 0, |doc|, max) && a <= k < |units|
    ensures units[k].lo <= units[k].hi <= |doc|
    ensures PackFrom(doc, units, a, k, max) ==
            if !units[k].exact then
              PackSegment(doc, units, a, k, max) +
                ([LoneSegment(doc, units[k])] + PackFrom(doc, units, k + 1, k + 1, max))
            else if !Fits(doc, units, a, k, max) then
              PackSegment(doc, units, a, k, max) + PackFrom(doc, units, k, k + 1, max)
            else PackFrom(doc, units, a, k + 1, max)
  {
  }

  lemma {:induction false} PackLast(doc: seq<Line>, units: seq<Unit>, a: nat, max: nat)
    requires UnitsOk(doc, units, 0, |doc|, max) && a <= |units| && PackOk(doc, units, a, |units|, max)
    ensures SegmentsOk(doc, units, a, PackFrom(doc, units, a, |units|, max), max)
  {
    hide UnitsOk, SegmentsOk, PackOk;
    NothingLeft(doc, units, max);
    PackIsOk(doc, units, a, |units|, [], max);
    assert PackSegment(doc, units, a, |units|, max) + [] == PackSegment(doc, units, a, |units|, max);
  }

  lemma {:induction false} PackFromOk(doc: seq<Line>, units: seq<Unit>, a: nat, k: nat, max: nat)
    requires UnitsOk(doc, units, 0, |doc|, max) && a <= k <= |units| && PackOk(doc, units, a, k, max)
    ensures SegmentsOk(doc, units, a, PackFrom(doc, units, a, k, max), max)
    decreases |units| - k
  {
    hide UnitsOk, SegmentsOk, PackSegment, LoneSegment, Slice, Fits, PackOk, PackFrom;
    if k == |units| {
      PackLast(doc, units, a, max);
    } else {
      PackStep(doc, units, a, k, max);
      if !units[k].exact {
        var rest := PackFrom(doc, units, k + 1, k + 1, max);
        NothingWaits(doc, units, k + 1, max);
        PackFromOk(doc, units, k + 1, k + 1, max);
        LoneIsOk(doc, units, k, rest, max);
        PackIsOk(doc, units, a, k, [LoneSegment(doc, units[k])] + rest, max);
      } else if !Fits(doc, units, a, k, max) {
        FitsAlone(doc, units, k, max);
        SingleFits(doc, units, k, k, max);
        PackFromOk(doc, units, k, k + 1, max);
        PackIsOk(doc, units, a, k, PackFrom(doc, units, k, k + 1, max), max);
      } else {
        SingleFits(doc, units, a, k, max);
        PackFromOk(doc, units, a, k + 1, max);
      }
    }
  }

  lemma {:induction false} NothingLeft(doc: seq<Line>, units: seq<Unit>, max: nat)
    ensures SegmentsOk(doc, units, |units|, [], max)
  {
  }

  // ----- the main results -----

  /** Every segment's source text is exactly the lines from its offset on; its content is
      that text, within the limit, or the content of a chunk of an over-long section.
      Offsets never decrease. */
  lemma {:induction false} SegmentsAreSlices(doc: seq<Line>, max: nat, m: nat)
    requires WellRead(doc) && Marked(doc) && max > 0 && m < |SegmentsOf(doc, max)|
    ensures var ss := SegmentsOf(doc, max);
            && (exists hi: nat :: IsSlice(doc, ss[m], hi))
            && ((ss[m].content == ss[m].sourceText && |ss[m].content| <= max) || HoldsChunk(doc, ss[m], max))
            && (m > 0 ==> ss[m - 1].lineOffset <= ss[m].lineOffset)
  {
    hide Slice, PackFrom, AllUnits, SectionsFrom, WellRead, Marked, UnitsOk, FromChunk, IsSlice, IsChunkOf, LoneSegment;
    SectionsTileDoc(doc, 0, START);
    var sections := SectionsFrom(doc, 0, START);
    var units := AllUnits(doc, sections, max, 0);
    AllUnitsOk(doc, sections, max, 0);
    PackFromOk(doc, units, 0, 0, max);
    var s := SegmentsOf(doc, max)[m];
    assert SegmentOk(doc, units, s, max);
    if u :| IsLone(doc, units, u, s) {
      var sec, c := UnitOrigin(doc, sections, max, 0, u);
      assert HoldsChunk(doc, s, max);
    }
  }

  /** The segment is a chunk of an over-long section: its heading, its content, and the very lines
      of the document that the chunk's anchors name. */
  ghost predicate HoldsChunk(doc: seq<Line>, segment: Segment, max: nat)
    requires max > 0
  {
    exists s: Section, c: Chunk ::
      FromChunk(doc, SectionsFrom(doc, 0, START), s, c, max) && IsChunkOf(doc, segment, s, c)
  }

  predicate IsChunkOf(doc: seq<Line>, segment: Segment, s: Section, c: Chunk) {
    && s.lo <= s.hi <= |doc| && HasInk(doc, s.lo, s.hi)
    && var lo := FirstInk(doc, s.lo, s.hi);
       && 1 <= c.start <= c.end && lo + c.end <= |doc|
       && segment == Segment(if c.headingPath != "" then c.headingPath else s.head, c.content,
                             Slice(doc, lo + c.start - 1, lo + c.end), lo + c.start - 1)
  }

  /** What the chunk holds anew is one stretch of the ink of the lines it names. */
  ghost predicate HoldsLines(lines: seq<Line>, c: Chunk) {
    exists g: seq<Piece> ::
      && g != [] && c == ToChunk(g) && 1 <= c.start <= c.end <= |lines|
      && IsInfix(OwnInk(g), InkRange(lines, c.start - 1, c.end))
  }

  lemma {:induction false} GroupHoldsLines(lines: seq<Line>, g: seq<Piece>, c: Chunk)
    requires g != [] && c == ToChunk(g) && 1 <= MinStart(g) <= MaxEnd(g) <= |lines|
    requires IsInfix(OwnInk(g), InkRange(lines, MinStart(g) - 1, MaxEnd(g)))
    ensures HoldsLines(lines, c)
  {
    hide MinStart, MaxEnd, OwnInk, InkRange, IsInfix, Content;
  }

  lemma {:induction false} ChunkOfHoldsLines(markdown: string, p: Params, k: nat)
    requires Valid(p) && k < |ChunksOf(markdown, p)|
    ensures HoldsLines(Read(SplitLines(markdown)), ChunksOf(markdown, p)[k])
  {
    hide *;
    var doc := Read(SplitLines(markdown));
    ReadIsWellRead(SplitLines(markdown));
    ChunkAt(markdown, p, k);
    ChunksHoldTheirLines(doc, p, k);
    GroupHoldsLines(doc, Groups(doc, p)[k], ChunksOf(markdown, p)[k]);
  }

  lemma {:induction false} ChunkHoldsLines(doc: seq<Line>, lo: nat, hi: nat, max: nat, c: Chunk)
    requires WellRead(doc) && lo < hi <= |doc| && doc[hi - 1].mark != Empty && max > 0
    requires c in SectionChunks(doc, lo, hi, max)
    ensures HoldsLines(Read(Texts(doc, lo, hi)), c)
  {
    hide *;
    var text, p := Slice(doc, lo, hi), Params(max, 0, false);
    SectionChunksAre(doc, lo, hi, max);
    var k :| 0 <= k < |ChunksOf(text, p)| && ChunksOf(text, p)[k] == c;
    SubDocument(doc, lo, hi);
    ChunkOfHoldsLines(text, p, k);
  }

  lemma {:induction false} SectionChunksAre(doc: seq<Line>, lo: nat, hi: nat, max: nat)
    requires lo <= hi <= |doc| && max > 0
    ensures Valid(Params(max, 0, false))
    ensures SectionChunks(doc, lo, hi, max) == ChunksOf(Slice(doc, lo, hi), Params(max, 0, false))
  {
    hide Slice, ChunksOf;
  }

  /** `c` is a chunk of the over-long section `s`, with the lines it names. */
  ghost predicate FromChunk(doc: seq<Line>, sections: seq<Section>, s: Section, c: Chunk, max: nat)
    requires max > 0
  {
    && s in sections && s.lo <= s.hi <= |doc| && HasInk(doc, s.lo, s.hi)
    && var lo, hi := FirstInk(doc, s.lo, s.hi), LastInk(doc, s.lo, s.hi) + 1;
       lo <= hi && |Slice(doc, lo, hi)| > max && c in SectionChunks(doc, lo, hi, max)
         && HoldsLines(Read(Texts(doc, lo, hi)), c)
  }

  lemma {:induction false} ChunkUnitOrigin(chunks: seq<Chunk>, head: string, offset: nat, u: Unit) returns (c: Chunk)
    requires (forall k :: 0 <= k < |chunks| ==> chunks[k].start >= 1) && u in ChunkUnits(chunks, head, offset)
    ensures c in chunks && c.start >= 1
    ensures u == Unit(if c.headingPath != "" then c.headingPath else head, c.content,
                      offset + c.start - 1, offset + c.end, false)
  {
    var n := |chunks| - 1;
    if u in ChunkUnits(chunks[..n], head, offset) {
      c := ChunkUnitOrigin(chunks[..n], head, offset, u);
    } else {
      c := chunks[n];
    }
  }

  lemma {:induction false} UnitOrigin(doc: seq<Line>, sections: seq<Section>, max: nat, from: nat, u: Unit)
    returns (s: Section, c: Chunk)
    requires WellRead(doc) && SectionsTile(doc, sections, from) && max > 0 &&
      u in AllUnits(doc, sections, max, from) && !u.exact
    requires u.lo < u.hi <= |doc|
    ensures FromChunk(doc, sections, s, c, max) && IsChunkOf(doc, LoneSegment(doc, u), s, c)
    decreases |sections|
  {
    hide Slice, SectionChunks, ChunkUnits, WellRead, HoldsLines, Read, Texts;
    s := sections[0];
    if u in SectionUnits(doc, s, max) {
      var lo, hi := FirstInk(doc, s.lo, s.hi), LastInk(doc, s.lo, s.hi) + 1;
      InkBounds(doc, s.lo, s.hi);
      c := ChunkUnitOrigin(SectionChunks(doc, lo, hi, max), s.head, lo, u);
      ChunkHoldsLines(doc, lo, hi, max, c);
    } else {
      s, c := UnitOrigin(doc, sections[1..], max, s.hi, u);
    }
  }

  /** Every line that is neither blank nor a page anchor is inside some segment. */
  lemma {:induction false} SegmentsCoverLines(doc: seq<Line>, max: nat, k: nat)
    requires WellRead(doc) && Marked(doc) && max > 0 && k < |doc| && Required(doc[k])
    ensures SegmentCovers(doc, SegmentsOf(doc, max), k)
  {
    hide Slice, PackFrom, AllUnits, SectionsFrom, WellRead, Marked, Required, SegmentCovers;
    SectionsTileDoc(doc, 0, START);
    var sections := SectionsFrom(doc, 0, START);
    var units := AllUnits(doc, sections, max, 0);
    AllUnitsOk(doc, sections, max, 0);
    PackFromOk(doc, units, 0, 0, max);
    assert UnitCovers(units, k);
    var n :| 0 <= n < |units| && units[n].lo <= k < units[n].hi;
    assert SegmentCovers(doc, SegmentsOf(doc, max), k);
  }

  // ----- the program -----

  lemma {:induction false} JoinNonEmpty(sep: string, parts: seq<string>)
    requires parts != [] && parts[0] != []
    ensures Join(sep, parts) != []
  {
    if |parts| > 1 {
      JoinNonEmpty(sep, parts[..|parts| - 1]);
    }
  }

  lemma {:induction false} SliceNonEmpty(doc: seq<Line>, lo: nat, hi: nat)
    requires WellRead(doc) && lo < hi <= |doc| && doc[lo].mark != Empty
    ensures Slice(doc, lo, hi) != []
  {
    hide Join;
    assert Texts(doc, lo, hi)[0] == doc[lo].text;
    assert doc[lo].text != [] by { StripFacts(doc[lo].text); }
    JoinNonEmpty(NEWLINE, Texts(doc, lo, hi));
  }

  /** The units of one section. Every section has text, so a limit that is not positive is
      always exceeded and refused by the chunker. */
  method ReadSection(doc: seq<Line>, s: Section, maxChars: int) returns (r: Result<seq<Unit>>)
    requires WellRead(doc) && s.lo <= s.hi <= |doc| && HasInk(doc, s.lo, s.hi)
    ensures maxChars > 0 ==> r == Ok(SectionUnits(doc, s, maxChars))
    ensures maxChars <= 0 ==> r == Err(BadMaxChars)
  {
    hide Join, Texts, ChunksOf, WellRead;
    var lo, hi := FirstInk(doc, s.lo, s.hi), LastInk(doc, s.lo, s.hi) + 1;
    InkBounds(doc, s.lo, s.hi);
    var text := Slice(doc, lo, hi);
    SliceNonEmpty(doc, lo, hi);
    if |text| <= maxChars {
      return Ok([Unit(s.head, text, lo, hi, true)]);
    }
    var chunks := ChunkMarkdown(text, maxChars, 0, false);
    match chunks {
      case Err(e) => r := Err(e);
      case Ok(cs) =>
        assert cs == SectionChunks(doc, lo, hi, maxChars);
        r := Ok(ChunkUnits(cs, s.head, lo));
    }
  }

  method ReadSections(doc: seq<Line>, sections: seq<Section>, maxChars: int) returns (r: Result<seq<Unit>>)
    requires WellRead(doc) && SectionsTile(doc, sections, 0)
    ensures maxChars > 0 ==> r == Ok(AllUnits(doc, sections, maxChars, 0))
    ensures maxChars <= 0 ==> r == if sections == [] then Ok([]) else Err(BadMaxChars)
  {
    hide WellRead, HasInk, SectionUnits;
    var units: seq<Unit> := [];
    var rest, from := sections, 0;
    while rest != []
      invariant SectionsTile(doc, rest, from)
      invariant maxChars > 0 ==> units + AllUnits(doc, rest, maxChars, from) == AllUnits(doc, sections, maxChars, 0)
      invariant maxChars <= 0 ==> rest == sections && units == []
      decreases |rest|
    {
      var found := ReadSection(doc, rest[0], maxChars);
      if found.Err? {
        return found;
      }
      if maxChars > 0 {
        Assoc(units, found.value, AllUnits(doc, rest[1..], maxChars, rest[0].hi));
      }
      units := units + found.value;
      rest, from := rest[1..], rest[0].hi;
    }
    assert units + [] == units;
    r := Ok(units);
  }

  /** The packing loop with its mutable `segments` and `pack`; `a` is the first unit that
      is waiting to be packed. */
  method PackUnits(doc: seq<Line>, units: seq<Unit>, max: nat) returns (segments: seq<Segment>)
    requires UnitsOk(doc, units, 0, |doc|, max)
    ensures segments == PackFrom(doc, units, 0, 0, max)
  {
    hide UnitsOk, Slice, PackSegment, Fits;
    segments := [];
    var a := 0;
    for k := 0 to |units|
      invariant a <= k
      invariant segments + PackFrom(doc, units, a, k, max) == PackFrom(doc, units, 0, 0, max)
    {
      var u := units[k];
      UnitSpan(doc, units, k, max);
      if !u.exact {
        Assoc(segments, PackSegment(doc, units, a, k, max),
              [LoneSegment(doc, u)] + PackFrom(doc, units, k + 1, k + 1, max));
        Assoc(segments + PackSegment(doc, units, a, k, max), [LoneSegment(doc, u)],
              PackFrom(doc, units, k + 1, k + 1, max));
        segments := segments + PackSegment(doc, units, a, k, max) + [LoneSegment(doc, u)];
        a := k + 1;
        continue;
      }
      if !Fits(doc, units, a, k, max) {
        Assoc(segments, PackSegment(doc, units, a, k, max), PackFrom(doc, units, k, k + 1, max));
        segments := segments + PackSegment(doc, units, a, k, max);
        a := k;
      }
    }
    segments := segments + PackSegment(doc, units, a, |units|, max);
  }

  lemma {:induction false} UnitSpan(doc: seq<Line>, units: seq<Unit>, k: nat, max: nat)
    requires UnitsOk(doc, units, 0, |doc|, max) && k < |units|
    ensures units[k].lo <= units[k].hi <= |doc|
  {
  }

  lemma {:induction false} NoSections(doc: seq<Line>)
    ensures SectionsFrom(doc, 0, START) == [] <==> !HasInk(doc, 0, |doc|)
  {
    SectionsTileDoc(doc, 0, START);
    var sections := SectionsFrom(doc, 0, START);
    if sections != [] {
      var k :| sections[0].lo <= k < sections[0].hi && doc[k].mark != Empty;
    }
  }

  /** `split_for_extraction` with offsets. A limit that is not positive is an error as soon
      as the text has any line that is not blank. */
  method SplitForExtraction(markdown: string, maxChars: int) returns (r: Result<seq<Segment>>)
    ensures WellRead(Read(SplitLines(markdown))) && Marked(Read(SplitLines(markdown)))
    ensures maxChars > 0 ==> r == Ok(SegmentsOf(Read(SplitLines(markdown)), maxChars))
    ensures maxChars <= 0 ==>
              var doc := Read(SplitLines(markdown));
              r == if HasInk(doc, 0, |doc|) then Err(BadMaxChars) else Ok([])
  {
    var doc := Read(SplitLines(markdown));
    ReadIsWellRead(SplitLines(markdown));
    assert Marked(doc);
    hide SplitLines, Read, WellRead, Marked, HasInk, UnitsOk, SectionsFrom, AllUnits, PackFrom;
    var sections := SplitSections(doc);
    SectionsTileDoc(doc, 0, START);
    NoSections(doc);
    var units := ReadSections(doc, sections, maxChars);
    match units {
      case Err(e) => r := Err(e);
      case Ok(us) =>
        if maxChars <= 0 {
          return Ok([]);
        }
        AllUnitsOk(doc, sections, maxChars, 0);
        var segments := PackUnits(doc, us, maxChars);
        r := Ok(segments);
    }
  }
}
