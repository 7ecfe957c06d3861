/** What fixes the segments of `_split_for_extraction_with_offsets`: the units the sections are cut
    into, and that packing is greedy. */
module SegmentLaws {
  import opened Text
  import opened Lines
  import opened Blocks
  import opened Packing
  import opened Chunker
  import opened Extraction

  // ----- units -----

  /** The unit is the whole section without the blank lines around it, if that fits, and otherwise one of
      its chunks, which keeps the path of the section only where it has none of its own. */
  predicate ComesFrom(doc: seq<Line>, s: Section, u: Unit, max: nat)
    requires s.lo <= s.hi <= |doc| && HasInk(doc, s.lo, s.hi) && max > 0
  {
    var lo, hi := FirstInk(doc, s.lo, s.hi), LastInk(doc, s.lo, s.hi) + 1;
    InkBounds(doc, s.lo, s.hi);
    if |Slice(doc, lo, hi)| <= max then
      u.exact && u.lo == lo && u.hi == hi && u.head == s.head && u.content == Slice(doc, lo, hi)
    else !u.exact && exists c :: c in SectionChunks(doc, lo, hi, max) && HoldsWhole(c, s.head, lo, u)
  }

  predicate HoldsWhole(c: Chunk, head: string, offset: nat, u: Unit) {
    && u.content == c.content && u.lo == offset + c.start - 1 && u.hi == offset + c.end
    && (if c.headingPath == "" then u.head == head else u.head == c.headingPath)
  }

  lemma {:induction false} ChunkUnitsAre(chunks: seq<Chunk>, head: string, offset: nat, u: Unit)
    requires forall k :: 0 <= k < |chunks| ==> chunks[k].start >= 1
    ensures u in ChunkUnits(chunks, head, offset) <==>
      !u.exact && exists c :: c in chunks && HoldsWhole(c, head, offset, u)
  {
    if chunks != [] {
      var n := |chunks| - 1;
      var c := chunks[n];
      ChunkUnitsAre(chunks[..n], head, offset, u);
      assert chunks == chunks[..n] + [c] && c in chunks;
      assert u in ChunkUnits(chunks, head, offset) <==>
          u in ChunkUnits(chunks[..n], head, offset) || (!u.exact && HoldsWhole(c, head, offset, u));
      hide HoldsWhole, ChunkUnits;
    }
  }

  lemma {:induction false} SectionUnitsAre(doc: seq<Line>, s: Section, u: Unit, max: nat)
    requires s.lo <= s.hi <= |doc| && HasInk(doc, s.lo, s.hi) && max > 0
    ensures u in SectionUnits(doc, s, max) <==> ComesFrom(doc, s, u, max)
  {
    hide HasInk, Slice, SectionChunks, ChunkUnits, HoldsWhole;
    var lo, hi := FirstInk(doc, s.lo, s.hi), LastInk(doc, s.lo, s.hi) + 1;
    InkBounds(doc, s.lo, s.hi);
    ChunkUnitsAre(SectionChunks(doc, lo, hi, max), s.head, lo, u);
  }

  predicate ComesFromOne(doc: seq<Line>, sections: seq<Section>, u: Unit, max: nat)
    requires max > 0
  {
    exists s ::
      s in sections && s.lo <= s.hi <= |doc| && HasInk(doc, s.lo, s.hi) && ComesFrom(doc, s, u, max)
  }

  /** The units are exactly the short sections and the chunks of the long ones. */
  lemma {:induction false} UnitsAre(doc: seq<Line>, sections: seq<Section>, max: nat, from: nat, u: Unit)
    requires SectionsTile(doc, sections, from) && max > 0
    ensures u in AllUnits(doc, sections, max, from) <==> ComesFromOne(doc, sections, u, max)
    decreases |sections|
  {
    hide HasInk, SectionUnits, ComesFrom;
    if sections != [] {
      SectionUnitsAre(doc, sections[0], u, max);
      UnitsAre(doc, sections[1..], max, sections[0].hi, u);
      assert sections == [sections[0]] + sections[1..];
    }
  }

  // ----- packing -----

  /** Units `a` up to `b` make one segment: a chunk stands alone; short sections go together as long as
      their joint lines fit, and no further short section would still fit. */
  predicate IsPack(doc: seq<Line>, units: seq<Unit>, a: nat, b: nat, max: nat)
    requires UnitsOk(doc, units, 0, |doc|, max)
  {
    && a < b <= |units|
    && if !units[a].exact then b == a + 1
       else
         && (forall m :: a <= m < b ==> units[m].exact)
         && Span(doc, units, a, b, max) <= max
         && (b < |units| && units[b].exact ==> Span(doc, units, a, b + 1, max) > max)
  }

  /** The length of the lines from unit `a` up to unit `b`. */
  function Span(doc: seq<Line>, units: seq<Unit>, a: nat, b: nat, max: nat): nat
    requires UnitsOk(doc, units, 0, |doc|, max) && a < b <= |units|
  {
    assert units[a].lo <= units[b - 1].lo;
    |Slice(doc, units[a].lo, units[b - 1].hi)|
  }

  predicate IsPacked(doc: seq<Line>, units: seq<Unit>, a: nat, b: nat, s: Segment, max: nat)
    requires UnitsOk(doc, units, 0, |doc|, max)
  {
    && a < b <= |units| && s.headingPath == units[a].head && s.lineOffset == units[a].lo
    && units[a].lo <= units[b - 1].lo && s.sourceText == Slice(doc, units[a].lo, units[b - 1].hi)
    && if units[a].exact then s.content == s.sourceText else s.content == units[a].content
  }

  /** The segments are the packs between the bounds, from unit `a` to the last. */
  predicate ArePacks(doc: seq<Line>, units: seq<Unit>, a: nat, segments: seq<Segment>, bounds: seq<nat>, max: nat)
    requires UnitsOk(doc, units, 0, |doc|, max)
  {
    && |bounds| == |segments| + 1 && bounds[0] == a && bounds[|segments|] == |units|
    && forall m :: 0 <= m < |segments| ==>
         IsPack(doc, units, bounds[m], bounds[m + 1], max) &&
           IsPacked(doc, units, bounds[m], bounds[m + 1], segments[m], max)
  }

  lemma {:induction false} OnePackMore(doc: seq<Line>, units: seq<Unit>, a: nat, b: nat, s: Segment,
          segments: seq<Segment>, bounds: seq<nat>, max: nat)
    requires UnitsOk(doc, units, 0, |doc|, max) && ArePacks(doc, units, b, segments, bounds, max)
    requires IsPack(doc, units, a, b, max) && IsPacked(doc, units, a, b, s, max)
    ensures ArePacks(doc, units, a, [s] + segments, [a] + bounds, max)
  {
    hide IsPack, IsPacked, UnitsOk;
  }

  /** Waiting units `a` up to `k` are a pack as soon as the next one does not join them. */
  lemma {:induction false} WaitingIsPack(doc: seq<Line>, units: seq<Unit>, a: nat, k: nat, max: nat)
    requires UnitsOk(doc, units, 0, |doc|, max) && a < k <= |units| && PackOk(doc, units, a, k, max)
    requires k == |units| || !units[k].exact || !Fits(doc, units, a, k, max)
    ensures |PackSegment(doc, units, a, k, max)| == 1
    ensures IsPack(doc, units, a, k, max) && IsPacked(doc, units, a, k, PackSegment(doc, units, a, k, max)[0], max)
  {
    hide Slice, Required;
  }

  lemma {:induction false} LoneIsPack(doc: seq<Line>, units: seq<Unit>, k: nat, max: nat)
    requires UnitsOk(doc, units, 0, |doc|, max) && k < |units| && !units[k].exact
    ensures units[k].lo <= units[k].hi <= |doc|
    ensures IsPack(doc, units, k, k + 1, max) && IsPacked(doc, units, k, k + 1, LoneSegment(doc, units[k]), max)
  {
    hide Slice, Required;
  }

  lemma {:induction false} WaitingFirst(doc: seq<Line>, units: seq<Unit>, a: nat, k: nat, rest: seq<Segment>,
          bounds: seq<nat>, max: nat) returns (all: seq<nat>)
    requires UnitsOk(doc, units, 0, |doc|, max) && a <= k <= |units| && PackOk(doc, units, a, k, max)
    requires a < k ==> k == |units| || !units[k].exact || !Fits(doc, units, a, k, max)
    requires ArePacks(doc, units, k, rest, bounds, max)
    ensures ArePacks(doc, units, a, PackSegment(doc, units, a, k, max) + rest, all, max)
  {
    if a == k {
      all := bounds;
      assert [] + rest == rest;
    } else {
      WaitingIsPack(doc, units, a, k, max);
      var s := PackSegment(doc, units, a, k, max);
      hide *;
      all := [a] + bounds;
      assert s == [s[0]];
      OnePackMore(doc, units, a, k, s[0], rest, bounds, max);
    }
  }

  lemma {:induction false} NoPacks(doc: seq<Line>, units: seq<Unit>, max: nat)
    requires UnitsOk(doc, units, 0, |doc|, max)
    ensures ArePacks(doc, units, |units|, [], [|units|], max)
  {
  }

  lemma {:induction false} PacksFrom(doc: seq<Line>, units: seq<Unit>, a: nat, k: nat, max: nat)
    returns (bounds: seq<nat>)
    requires UnitsOk(doc, units, 0, |doc|, max) && a <= k <= |units| && PackOk(doc, units, a, k, max)
    ensures ArePacks(doc, units, a, PackFrom(doc, units, a, k, max), bounds, max)
    decreases |units| - k
  {
    hide UnitsOk, PackSegment, LoneSegment, Slice, Fits, PackOk, ArePacks, IsPack, IsPacked, PackFrom;
    if k == |units| {
      NoPacks(doc, units, max);
      bounds := WaitingFirst(doc, units, a, k, [], [|units|], max);
      PackEnd(doc, units, a, max);
    } else {
      PackStep(doc, units, a, k, max);
      if !units[k].exact {
        NothingWaits(doc, units, k + 1, max);
        var more := PacksFrom(doc, units, k + 1, k + 1, max);
        var rest := PackFrom(doc, units, k + 1, k + 1, max);
        LoneIsPack(doc, units, k, max);
        OnePackMore(doc, units, k, k + 1, LoneSegment(doc, units[k]), rest, more, max);
        bounds := WaitingFirst(doc, units, a, k, [LoneSegment(doc, units[k])] + rest, [k] + more, max);
      } else if !Fits(doc, units, a, k, max) {
        FitsAlone(doc, units, k, max);
        SingleFits(doc, units, k, k, max);
        var more := PacksFrom(doc, units, k, k + 1, max);
        bounds := WaitingFirst(doc, units, a, k, PackFrom(doc, units, k, k + 1, max), more, max);
      } else {
        SingleFits(doc, units, a, k, max);
        bounds := PacksFrom(doc, units, a, k + 1, max);
      }
    }
  }

  lemma {:induction false} PackEnd(doc: seq<Line>, units: seq<Unit>, a: nat, max: nat)
    requires UnitsOk(doc, units, 0, |doc|, max) && a <= |units|
    ensures PackFrom(doc, units, a, |units|, max) == PackSegment(doc, units, a, |units|, max) + []
  {
    hide UnitsOk, PackSegment;
    assert PackSegment(doc, units, a, |units|, max) + [] == PackSegment(doc, units, a, |units|, max);
  }

  // ----- only one greedy packing -----

  lemma {:induction false} SliceGrows(doc: seq<Line>, lo: nat, i: nat, j: nat)
    requires lo <= i <= j <= |doc|
    ensures |Slice(doc, lo, i)| <= |Slice(doc, lo, j)|
    decreases j - i
  {
    if i < j {
      SliceGrows(doc, lo, i, j - 1);
      var parts := Texts(doc, lo, j);
      assert parts[..|parts| - 1] == Texts(doc, lo, j - 1);
    }
  }

  /** A pack cannot end in two places. */
  lemma {:induction false} OneNextPack(doc: seq<Line>, units: seq<Unit>, a: nat, b: nat, c: nat, max: nat)
    requires UnitsOk(doc, units, 0, |doc|, max) && IsPack(doc, units, a, b, max) && IsPack(doc, units, a, c, max)
    ensures b <= c
  {
    hide Slice, Required;
    if c < b {
      assert units[c].exact;
      assert c < b - 1 ==> units[c].hi <= units[b - 1].lo;
      assert units[a].lo <= units[c].lo;
      SliceGrows(doc, units[a].lo, units[c].hi, units[b - 1].hi);
    }
  }

  /** There is only one such list of segments. */
  lemma {:induction false} PacksAreUnique(doc: seq<Line>, units: seq<Unit>, a: nat, ss: seq<Segment>, bs: seq<nat>,
          ts: seq<Segment>, cs: seq<nat>, max: nat)
    requires UnitsOk(doc, units, 0, |doc|, max)
    requires ArePacks(doc, units, a, ss, bs, max) && ArePacks(doc, units, a, ts, cs, max)
    ensures ss == ts
    decreases |ss|
  {
    hide UnitsOk, IsPack, IsPacked;
    if ss == [] || ts == [] {
      assert a == |units|;
      NoPackAtEnd(doc, units, a, ss, bs, max);
      NoPackAtEnd(doc, units, a, ts, cs, max);
    } else {
      OneNextPack(doc, units, a, bs[1], cs[1], max);
      OneNextPack(doc, units, a, cs[1], bs[1], max);
      SamePacked(doc, units, a, bs[1], ss[0], ts[0], max);
      PacksAreUnique(doc, units, bs[1], ss[1..], bs[1..], ts[1..], cs[1..], max);
      assert ss == [ss[0]] + ss[1..] && ts == [ts[0]] + ts[1..];
    }
  }

  lemma {:induction false} NoPackAtEnd(doc: seq<Line>, units: seq<Unit>, a: nat, ss: seq<Segment>, bs: seq<nat>,
          max: nat)
    requires UnitsOk(doc, units, 0, |doc|, max) && ArePacks(doc, units, a, ss, bs, max) && a == |units|
    ensures ss == []
  {
    hide UnitsOk, IsPacked;
    assert ss != [] ==> IsPack(doc, units, bs[0], bs[0 + 1], max);
  }

  lemma {:induction false} SamePacked(doc: seq<Line>, units: seq<Unit>, a: nat, b: nat, s: Segment, t: Segment,
          max: nat)
    requires UnitsOk(doc, units, 0, |doc|, max)
    requires IsPacked(doc, units, a, b, s, max) && IsPacked(doc, units, a, b, t, max)
    ensures s == t
  {
    hide UnitsOk, Slice;
  }

  // ----- the result -----

  /** The segments are the one greedy packing of the short sections and the chunks of the long ones. */
  lemma {:induction false} SegmentsAreGreedy(doc: seq<Line>, max: nat) returns (units: seq<Unit>, bounds: seq<nat>)
    requires WellRead(doc) && Marked(doc) && max > 0
    ensures UnitsOk(doc, units, 0, |doc|, max) && ArePacks(doc, units, 0, SegmentsOf(doc, max), bounds, max)
    ensures forall u :: u in units <==> ComesFromOne(doc, SectionsFrom(doc, 0, START), u, max)
  {
    hide WellRead, Marked, UnitsOk, AllUnits, PackFrom, SectionsFrom, SectionsTile, ArePacks, PackOk, ComesFromOne;
    SectionsTileDoc(doc, 0, START);
    var sections := SectionsFrom(doc, 0, START);
    units := AllUnits(doc, sections, max, 0);
    AllUnitsOk(doc, sections, max, 0);
    NothingWaits(doc, units, 0, max);
    bounds := PacksFrom(doc, units, 0, 0, max);
    forall u ensures u in units <==> ComesFromOne(doc, sections, u, max) { UnitsAre(doc, sections, max, 0, u); }
  }
}
