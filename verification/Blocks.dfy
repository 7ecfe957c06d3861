/** Lines to structural blocks (`_parse_blocks`): headings, tables, code fences and
    paragraphs, each with the path of the headings above it and the page it is on. */
module Blocks {
  import opened Text
  import opened Lines

  datatype Kind = Title | Table | Code | Para

  /** `start` and `end` are 1-based and inclusive. */
  datatype Block = Block(
    kind: Kind, lines: seq<string>, start: nat, end: nat, level: nat, path: string, page: Option<nat>)

  // ----- the heading stack -----

  function PathOf(stack: seq<Head>): string {
    Join(" > ", seq(|stack|, k requires 0 <= k < |stack| => stack[k].title))
  }

  function Pop(stack: seq<Head>, level: nat): seq<Head> {
    if stack != [] && stack[|stack| - 1].level >= level then Pop(stack[..|stack| - 1], level) else stack
  }

  function Push(stack: seq<Head>, h: Head): seq<Head> { Pop(stack, h.level) + [h] }

  /** A heading is open as long as no later one has an equal or smaller level. */
  predicate IsOpen(heads: seq<Head>, k: nat)
    requires k < |heads|
  {
    forall m :: k < m < |heads| ==> heads[m].level > heads[k].level
  }

  function OpenAmong(heads: seq<Head>, n: nat): seq<Head>
    requires n <= |heads|
  {
    if n == 0 then []
    else OpenAmong(heads, n - 1) + if IsOpen(heads, n - 1) then [heads[n - 1]] else []
  }

  /** The open headings among `heads`, outermost first: what a path is made of. */
  function OpenHeads(heads: seq<Head>): seq<Head> { OpenAmong(heads, |heads|) }

  function Below(stack: seq<Head>, level: nat): seq<Head> {
    if stack == [] then []
    else Below(stack[..|stack| - 1], level) +
         if stack[|stack| - 1].level < level then [stack[|stack| - 1]] else []
  }

  predicate Increasing(stack: seq<Head>) {
    forall i, j :: 0 <= i < j < |stack| ==> stack[i].level < stack[j].level
  }

  lemma {:induction false} BelowAll(stack: seq<Head>, level: nat)
    requires forall k :: 0 <= k < |stack| ==> stack[k].level < level
    ensures Below(stack, level) == stack
  {
    if stack != [] {
      var front, last := stack[..|stack| - 1], stack[|stack| - 1];
      BelowAll(front, level);
      assert Below(stack, level) == front + [last];
    }
  }

  lemma {:induction false} PopIsBelow(stack: seq<Head>, level: nat)
    requires Increasing(stack)
    ensures Pop(stack, level) == Below(stack, level)
    ensures Increasing(Below(stack, level))
    ensures forall k :: 0 <= k < |Below(stack, level)| ==> Below(stack, level)[k].level < level
  {
    if stack != [] {
      if stack[|stack| - 1].level >= level {
        PopIsBelow(stack[..|stack| - 1], level);
      } else {
        BelowAll(stack, level);
      }
    }
  }

  lemma {:induction false} BelowConcat(a: seq<Head>, b: seq<Head>, level: nat)
    requires |b| <= 1
    ensures Below(a + b, level) == Below(a, level) + Below(b, level)
  {
    if b == [] {
      assert a + b == a;
    } else {
      assert (a + b)[..|a|] == a && b[..0] == [];
    }
  }

  lemma {:induction false} OpenAfter(heads: seq<Head>, h: Head, n: nat)
    requires n <= |heads|
    ensures OpenAmong(heads + [h], n) == Below(OpenAmong(heads, n), h.level)
  {
    if n > 0 {
      OpenAfter(heads, h, n - 1);
      var last := if IsOpen(heads, n - 1) then [heads[n - 1]] else [];
      BelowConcat(OpenAmong(heads, n - 1), last, h.level);
      assert last != [] ==> last[..0] == [];
      var longer := heads + [h];
      assert longer[|heads|] == h;
      assert IsOpen(longer, n - 1) <==> IsOpen(heads, n - 1) && heads[n - 1].level < h.level by {
        if IsOpen(longer, n - 1) {
          forall m | n - 1 < m < |heads| ensures heads[m].level > heads[n - 1].level {
            assert longer[m] == heads[m];
          }
        }
      }
    }
  }

  /** The stack the parser keeps is exactly the list of open headings. */
  lemma {:induction false} PushKeepsOpenHeads(heads: seq<Head>, h: Head)
    requires Increasing(OpenHeads(heads))
    ensures Push(OpenHeads(heads), h) == OpenHeads(heads + [h])
    ensures Increasing(OpenHeads(heads + [h]))
  {
    OpenAfter(heads, h, |heads|);
    PopIsBelow(OpenHeads(heads), h.level);
    assert IsOpen(heads + [h], |heads|);
  }

  // ----- the parser as a function -----

  function Texts(doc: seq<Line>, i: nat, j: nat): (r: seq<string>)
    requires i <= j <= |doc|
    ensures |r| == j - i && forall k :: 0 <= k < |r| ==> r[k] == doc[i + k].text
    decreases j
  {
    if i == j then [] else Texts(doc, i, j - 1) + [doc[j - 1].text]
  }

  function Stripped(doc: seq<Line>, i: nat, j: nat): (r: seq<string>)
    requires i <= j <= |doc|
    ensures |r| == j - i && forall k :: 0 <= k < |r| ==> r[k] == doc[i + k].bare
    decreases j
  {
    if i == j then [] else Stripped(doc, i, j - 1) + [doc[j - 1].bare]
  }

  /** First line at or after `j` whose mark is not `m`, or the end of the text. */
  function RunEnd(doc: seq<Line>, m: Mark, j: nat): (e: nat)
    requires j <= |doc|
    ensures j <= e <= |doc|
    ensures forall k :: j <= k < e ==> doc[k].mark == m
    ensures e < |doc| ==> doc[e].mark != m
    decreases |doc| - j
  {
    if j == |doc| || doc[j].mark != m then j else RunEnd(doc, m, j + 1)
  }

  /** First line at or after `j` that closes a fence of `c`, or the end of the text. */
  function FenceClose(doc: seq<Line>, c: char, j: nat): (e: nat)
    requires j <= |doc|
    ensures j <= e <= |doc|
    ensures forall k :: j <= k < e ==> doc[k].bar != Some(c)
    ensures e < |doc| ==> doc[e].bar == Some(c)
    decreases |doc| - j
  {
    if j == |doc| || doc[j].bar == Some(c) then j else FenceClose(doc, c, j + 1)
  }

  predicate IsBody(m: Mark) { m.Fence? || m == Row || m == Prose }

  /** The fence, table or paragraph that starts at line index `i`. */
  function BodyBlock(doc: seq<Line>, i: nat, path: string, page: Option<nat>): (b: Block)
    requires i < |doc| && IsBody(doc[i].mark)
    ensures b.kind != Title && b.start == i + 1 <= b.end <= |doc|
  {
    match doc[i].mark
    case Fence(c) =>
      var end := Min(FenceClose(doc, c, i + 1), |doc| - 1);
      Block(Code, Texts(doc, i, end + 1), i + 1, end + 1, 0, path, page)
    case Row =>
      var j := RunEnd(doc, Row, i + 1);
      Block(Table, Stripped(doc, i, j), i + 1, j, 0, path, page)
    case Prose =>
      var j := RunEnd(doc, Prose, i + 1);
      Block(Para, Texts(doc, i, j), i + 1, j, 0, path, page)
  }

  function ParseFrom(doc: seq<Line>, i: nat, stack: seq<Head>, page: Option<nat>): seq<Block>
    requires i <= |doc|
    decreases |doc| - i
  {
    if i == |doc| then []
    else match doc[i].mark
      case Empty => ParseFrom(doc, i + 1, stack, page)
      case Anchor(p) => ParseFrom(doc, i + 1, stack, Some(p))
      case Heading(h) =>
        var grown := Push(stack, h);
        [Block(Title, [doc[i].bare], i + 1, i + 1, h.level, PathOf(grown), page)] +
        ParseFrom(doc, i + 1, grown, page)
      case _ =>
        var b := BodyBlock(doc, i, PathOf(stack), page);
        [b] + ParseFrom(doc, b.end, stack, page)
  }

  function Parse(doc: seq<Line>): seq<Block> { ParseFrom(doc, 0, [], None) }

  /** The inner loops over table rows and paragraph lines. */
  method SkipRun(doc: seq<Line>, m: Mark, i: nat) returns (j: nat)
    requires i <= |doc|
    ensures j == RunEnd(doc, m, i)
  {
    j := i;
    while j < |doc| && doc[j].mark == m
      invariant i <= j <= |doc|
      invariant RunEnd(doc, m, j) == RunEnd(doc, m, i)
    {
      j := j + 1;
    }
  }

  method ReadBody(doc: seq<Line>, i: nat, path: string, page: Option<nat>) returns (b: Block)
    requires i < |doc| && IsBody(doc[i].mark)
    ensures b == BodyBlock(doc, i, path, page) && i < b.end <= |doc|
  {
    match doc[i].mark {
      case Fence(c) =>
        var j := i + 1;
        while j < |doc| && doc[j].bar != Some(c)
          invariant i + 1 <= j <= |doc|
          invariant FenceClose(doc, c, j) == FenceClose(doc, c, i + 1)
        {
          j := j + 1;
        }
        var end := Min(j, |doc| - 1);
        b := Block(Code, Texts(doc, i, end + 1), i + 1, end + 1, 0, path, page);
      case Row =>
        var j := SkipRun(doc, Row, i + 1);
        b := Block(Table, Stripped(doc, i, j), i + 1, j, 0, path, page);
      case Prose =>
        var j := SkipRun(doc, Prose, i + 1);
        b := Block(Para, Texts(doc, i, j), i + 1, j, 0, path, page);
    }
  }

  /** The inner loop that closes headings of an equal or deeper level. */
  method CloseHeads(stack: seq<Head>, level: nat) returns (kept: seq<Head>)
    ensures kept == Pop(stack, level)
  {
    kept := stack;
    while kept != [] && kept[|kept| - 1].level >= level
      invariant Pop(kept, level) == Pop(stack, level)
    {
      kept := kept[..|kept| - 1];
    }
  }

  /** One step of the parser. */
  lemma {:induction false} ParseStep(doc: seq<Line>, i: nat, stack: seq<Head>, page: Option<nat>)
    requires i < |doc|
    ensures var m, all := doc[i].mark, ParseFrom(doc, i, stack, page);
            && (m == Empty ==> all == ParseFrom(doc, i + 1, stack, page))
            && (m.Anchor? ==> all == ParseFrom(doc, i + 1, stack, Some(m.page)))
            && (m.Heading? ==>
                  var grown := Push(stack, m.head);
                  all == [Block(Title, [doc[i].bare], i + 1, i + 1, m.head.level, PathOf(grown), page)]
                         + ParseFrom(doc, i + 1, grown, page))
            && (IsBody(m) ==>
                  var b := BodyBlock(doc, i, PathOf(stack), page);
                  all == [b] + ParseFrom(doc, b.end, stack, page))
  {
  }

  /** The parser's position, heading stack and page. */
  datatype Cursor = Cursor(i: nat, stack: seq<Head>, page: Option<nat>)

  function ParseAt(doc: seq<Line>, c: Cursor): seq<Block>
    requires c.i <= |doc|
  {
    ParseFrom(doc, c.i, c.stack, c.page)
  }

  /** One turn of the parser's loop: the block found, if any, and where to go on. */
  method ReadLine(doc: seq<Line>, c: Cursor) returns (found: seq<Block>, next: Cursor)
    requires c.i < |doc|
    ensures c.i < next.i <= |doc| && ParseAt(doc, c) == found + ParseAt(doc, next)
  {
    ParseStep(doc, c.i, c.stack, c.page);
    hide BodyBlock, PathOf, Pop, ParseFrom;
    found := [];
    match doc[c.i].mark {
      case Empty => next := c.(i := c.i + 1);
      case Anchor(p) => next := c.(i := c.i + 1, page := Some(p));
      case Heading(h) =>
        var kept := CloseHeads(c.stack, h.level);
        next := c.(i := c.i + 1, stack := kept + [h]);
        found := [Block(Title, [doc[c.i].bare], c.i + 1, c.i + 1, h.level, PathOf(next.stack), c.page)];
      case _ =>
        var b := ReadBody(doc, c.i, PathOf(c.stack), c.page);
        next := c.(i := b.end);
        found := [b];
    }
  }

  /** `_parse_blocks`: one pass over the lines with a heading stack. */
  method ParseBlocks(doc: seq<Line>) returns (blocks: seq<Block>)
    ensures blocks == Parse(doc)
  {
    blocks := [];
    var c := Cursor(0, [], None);
    while c.i < |doc|
      invariant c.i <= |doc|
      invariant Parse(doc) == blocks + ParseAt(doc, c)
      decreases |doc| - c.i
    {
      var found, next := ReadLine(doc, c);
      Assoc(blocks, found, ParseAt(doc, next));
      blocks, c := blocks + found, next;
    }
  }

  // ----- what the blocks mean, in terms of the lines alone -----

  /** The fence that is open before line `n`, read off the lines one by one. */
  function FenceAt(doc: seq<Line>, n: nat): Option<char>
    requires n <= |doc|
  {
    if n == 0 then None
    else match FenceAt(doc, n - 1)
      case Some(c) => if doc[n - 1].bar == Some(c) then None else Some(c)
      case None => if doc[n - 1].mark.Fence? then Some(doc[n - 1].mark.c) else None
  }

  /** Page anchors inside a fence are code, not anchors. */
  predicate IsAnchorLine(doc: seq<Line>, k: nat)
    requires k < |doc|
  {
    FenceAt(doc, k) == None && doc[k].mark.Anchor?
  }

  /** The number on the last page anchor above line `n`. */
  function PageAbove(doc: seq<Line>, n: nat): Option<nat>
    requires n <= |doc|
  {
    if n == 0 then None
    else if IsAnchorLine(doc, n - 1) then Some(doc[n - 1].mark.page)
    else PageAbove(doc, n - 1)
  }

  predicate IsHeadingLine(doc: seq<Line>, k: nat)
    requires k < |doc|
  {
    FenceAt(doc, k) == None && doc[k].mark.Heading?
  }

  /** The headings among the first `n` lines, in order. */
  function HeadsAbove(doc: seq<Line>, n: nat): seq<Head>
    requires n <= |doc|
  {
    if n == 0 then []
    else if IsHeadingLine(doc, n - 1) then HeadsAbove(doc, n - 1) + [doc[n - 1].mark.head]
    else HeadsAbove(doc, n - 1)
  }

  /** The path of line `n` (1-based): the titles of the headings above it, its own included,
      that no later heading of an equal or smaller level has closed. */
  function PathAt(doc: seq<Line>, n: nat): string
    requires n <= |doc|
  {
    PathOf(OpenHeads(HeadsAbove(doc, n)))
  }

  /** The ink of lines `i` up to `j`, without the page anchors. */
  function InkRange(doc: seq<Line>, i: nat, j: nat): string
    requires i <= j <= |doc|
    decreases j
  {
    if i == j then []
    else InkRange(doc, i, j - 1) + if IsAnchorLine(doc, j - 1) then [] else Ink(doc[j - 1].text)
  }

  lemma {:induction false} InkRangeConcat(doc: seq<Line>, i: nat, j: nat, k: nat)
    requires i <= j <= k <= |doc|
    ensures InkRange(doc, i, k) == InkRange(doc, i, j) + InkRange(doc, j, k)
    decreases k
  {
    hide Ink, IsAnchorLine;
    if j < k {
      InkRangeConcat(doc, i, j, k - 1);
    }
  }

  /** Lines that belong to no block: blank lines and page anchors. */
  predicate IsGap(doc: seq<Line>, i: nat, j: nat)
    requires i <= j <= |doc|
  {
    forall k :: i <= k < j ==> FenceAt(doc, k) == None && (doc[k].mark == Empty || doc[k].mark.Anchor?)
  }

  /** What a block of each kind is, and that it extends as far as it can. */
  predicate BlockFits(doc: seq<Line>, b: Block) {
    && 1 <= b.start <= b.end <= |doc|
    && var i := b.start - 1;
       match b.kind
       case Title =>
         && b.end == b.start && doc[i].mark.Heading? && b.level == doc[i].mark.head.level
         && b.lines == [doc[i].bare]
       case Code =>
         && doc[i].mark.Fence? && b.lines == Texts(doc, i, b.end)
         && (forall k :: i < k < b.end - 1 ==> doc[k].bar != Some(doc[i].mark.c))
         && (b.end < |doc| ==> i < b.end - 1 && doc[b.end - 1].bar == Some(doc[i].mark.c))
       case Table =>
         && b.lines == Stripped(doc, i, b.end)
         && (forall k :: i <= k < b.end ==> doc[k].mark == Row)
         && (b.end < |doc| ==> doc[b.end].mark != Row)
       case Para =>
         && b.lines == Texts(doc, i, b.end)
         && (forall k :: i <= k < b.end ==> doc[k].mark == Prose)
         && (b.end < |doc| ==> doc[b.end].mark != Prose)
  }

  /** Line `line` is in the section of line `from`, on page `page`. */
  predicate IsWith(doc: seq<Line>, line: nat, from: nat, page: Option<nat>) {
    && 1 <= line <= |doc| && from <= |doc|
    && HeadsAbove(doc, line) == HeadsAbove(doc, from) && PageAbove(doc, line - 1) == page
  }

  /** `blocks` are, in order and without overlap, the blocks of the lines from `i` on. */
  predicate Laid(doc: seq<Line>, i: nat, blocks: seq<Block>)
    requires i <= |doc|
    decreases |blocks|
  {
    && (i < |doc| ==> FenceAt(doc, i) == None)
    && if blocks == [] then IsGap(doc, i, |doc|)
       else
         var b := blocks[0];
         && BlockFits(doc, b) && i < b.start && IsGap(doc, i, b.start - 1)
         && b.path == PathAt(doc, b.start)
         && (forall line :: b.start <= line <= b.end ==> IsWith(doc, line, b.start, b.page))
         && Laid(doc, b.end, blocks[1..])
  }

  lemma {:induction false} FenceRun(doc: seq<Line>, c: char, i: nat, j: nat)
    requires i <= j <= |doc| && FenceAt(doc, i) == Some(c)
    requires forall k :: i <= k < j ==> doc[k].bar != Some(c)
    ensures forall k :: i <= k <= j ==> FenceAt(doc, k) == Some(c)
  {
    if i < j {
      FenceRun(doc, c, i, j - 1);
    }
  }

  lemma {:induction false} PlainRun(doc: seq<Line>, i: nat, j: nat)
    requires i <= j <= |doc| && FenceAt(doc, i) == None
    requires forall k :: i <= k < j ==> !doc[k].mark.Fence?
    ensures forall k :: i <= k <= j ==> FenceAt(doc, k) == None
  {
    if i < j {
      PlainRun(doc, i, j - 1);
    }
  }

  lemma {:induction false} PageRun(doc: seq<Line>, i: nat, j: nat)
    requires i <= j <= |doc|
    requires forall k :: i <= k < j ==> !IsAnchorLine(doc, k)
    ensures forall k :: i <= k <= j ==> PageAbove(doc, k) == PageAbove(doc, i)
  {
    if i < j {
      PageRun(doc, i, j - 1);
    }
  }

  lemma {:induction false} HeadsRun(doc: seq<Line>, i: nat, j: nat)
    requires i <= j <= |doc|
    requires forall k :: i <= k < j ==> !IsHeadingLine(doc, k)
    ensures forall k :: i <= k <= j ==> HeadsAbove(doc, k) == HeadsAbove(doc, i)
  {
    if i < j {
      HeadsRun(doc, i, j - 1);
    }
  }

  lemma {:induction false} CodeRun(doc: seq<Line>, b: Block)
    requires BlockFits(doc, b) && FenceAt(doc, b.start - 1) == None && b.kind == Code
    ensures b.end < |doc| ==> FenceAt(doc, b.end) == None
    ensures forall k :: b.start <= k < b.end ==> FenceAt(doc, k).Some?
  {
    var i := b.start - 1;
    assert FenceAt(doc, b.start) == Some(doc[i].mark.c);
    if i < b.end - 1 {
      FenceRun(doc, doc[i].mark.c, b.start, b.end - 1);
    }
  }

  /** Apart from fences, blocks hold neither fences nor anchors, and one heading at most. */
  lemma {:induction false} PlainMarks(doc: seq<Line>, b: Block)
    requires BlockFits(doc, b) && b.kind != Code
    ensures forall k :: b.start - 1 <= k < b.end ==> !doc[k].mark.Fence? && !doc[k].mark.Anchor?
    ensures forall k :: b.start <= k < b.end ==> !doc[k].mark.Heading?
  {
  }

  lemma {:induction false} FenceEnds(doc: seq<Line>, b: Block)
    requires BlockFits(doc, b) && FenceAt(doc, b.start - 1) == None
    ensures b.end < |doc| ==> FenceAt(doc, b.end) == None
    ensures forall k :: b.start - 1 <= k < b.end ==> FenceAt(doc, k).Some? || !doc[k].mark.Anchor?
    ensures forall k :: b.start <= k < b.end ==> FenceAt(doc, k).Some? || !doc[k].mark.Heading?
  {
    var i := b.start - 1;
    if b.kind == Code {
      assert !doc[i].mark.Anchor?;
      CodeRun(doc, b);
    } else {
      PlainMarks(doc, b);
      hide BlockFits;
      PlainRun(doc, i, b.end);
    }
  }

  /** Inside a block no line is a page anchor, no line but the first opens a section, and
      after it no fence is open. */
  lemma {:induction false} BlockIsUniform(doc: seq<Line>, b: Block)
    requires BlockFits(doc, b) && FenceAt(doc, b.start - 1) == None
    ensures b.end < |doc| ==> FenceAt(doc, b.end) == None
    ensures forall k :: b.start - 1 <= k < b.end ==> !IsAnchorLine(doc, k)
    ensures forall k :: b.start - 1 <= k <= b.end ==> PageAbove(doc, k) == PageAbove(doc, b.start - 1)
    ensures forall k :: b.start <= k <= b.end ==> HeadsAbove(doc, k) == HeadsAbove(doc, b.start)
  {
    FenceEnds(doc, b);
    PageRun(doc, b.start - 1, b.end);
    HeadsRun(doc, b.start, b.end);
  }

  lemma {:induction false} BodyBlockFits(doc: seq<Line>, i: nat, path: string, page: Option<nat>)
    requires i < |doc| && IsBody(doc[i].mark)
    ensures BlockFits(doc, BodyBlock(doc, i, path, page))
    ensures BodyBlock(doc, i, path, page).path == path && BodyBlock(doc, i, path, page).page == page
  {
  }

  lemma {:induction false} GapBefore(doc: seq<Line>, i: nat, blocks: seq<Block>)
    requires i < |doc| && IsGap(doc, i, i + 1) && Laid(doc, i + 1, blocks)
    ensures Laid(doc, i, blocks)
  {
  }

  lemma {:induction false} LaidCons(doc: seq<Line>, i: nat, b: Block, blocks: seq<Block>)
    requires i < |doc| && FenceAt(doc, i) == None
    requires BlockFits(doc, b) && b.start == i + 1
    requires b.path == PathAt(doc, b.start) && b.page == PageAbove(doc, i)
    requires Laid(doc, b.end, blocks)
    ensures Laid(doc, i, [b] + blocks)
  {
    BlockIsUniform(doc, b);
    hide HeadsAbove, PageAbove, BlockFits, FenceAt, OpenHeads;
    forall line | b.start <= line <= b.end ensures IsWith(doc, line, b.start, b.page) {
    }
    assert ([b] + blocks)[1..] == blocks;
  }

  lemma {:induction false} TitleFits(doc: seq<Line>, b: Block)
    requires 1 <= b.start == b.end <= |doc| && doc[b.start - 1].mark.Heading? && b.kind == Title
    requires b.level == doc[b.start - 1].mark.head.level && b.lines == [doc[b.start - 1].bare]
    ensures BlockFits(doc, b)
  {
  }

  /** What one line outside fences does to the fence, the headings and the page. */
  lemma {:induction false} AfterLine(doc: seq<Line>, i: nat)
    requires i < |doc| && FenceAt(doc, i) == None
    ensures var m := doc[i].mark;
            && (FenceAt(doc, i + 1) == if m.Fence? then Some(m.c) else None)
            && (HeadsAbove(doc, i + 1) == if m.Heading? then HeadsAbove(doc, i) + [m.head] else HeadsAbove(doc, i))
            && (PageAbove(doc, i + 1) == if m.Anchor? then Some(m.page) else PageAbove(doc, i))
  {
  }

  lemma {:induction false} BodyContinues(doc: seq<Line>, i: nat, page: Option<nat>)
    requires i < |doc| && IsBody(doc[i].mark) && FenceAt(doc, i) == None && page == PageAbove(doc, i)
    ensures var b := BodyBlock(doc, i, PathAt(doc, i), page);
            && BlockFits(doc, b) && b.path == PathAt(doc, b.start) && b.page == page
            && (b.end < |doc| ==> FenceAt(doc, b.end) == None)
            && PageAbove(doc, b.end) == page && HeadsAbove(doc, b.end) == HeadsAbove(doc, i)
  {
    AfterLine(doc, i);
    BodyBlockFits(doc, i, PathAt(doc, i), page);
    var b := BodyBlock(doc, i, PathAt(doc, i), page);
    assert b.start == i + 1 <= b.end <= |doc|;
    hide BodyBlock, PathOf, BlockFits, HeadsAbove, FenceAt, PageAbove, OpenHeads;
    BlockIsUniform(doc, b);
  }

  lemma {:induction false} BodyLays(doc: seq<Line>, i: nat, page: Option<nat>)
    requires i < |doc| && IsBody(doc[i].mark) && FenceAt(doc, i) == None && page == PageAbove(doc, i)
    requires
      var b, stack := BodyBlock(doc, i, PathAt(doc, i), page), OpenHeads(HeadsAbove(doc, i));
      i + 1 <= b.end <= |doc| && Laid(doc, b.end, ParseFrom(doc, b.end, stack, page))
    ensures Laid(doc, i, ParseFrom(doc, i, OpenHeads(HeadsAbove(doc, i)), page))
  {
    var b, stack := BodyBlock(doc, i, PathAt(doc, i), page), OpenHeads(HeadsAbove(doc, i));
    ParseStep(doc, i, stack, page);
    hide BodyBlock, BlockFits, OpenHeads, Push, ParseFrom, FenceAt, HeadsAbove, PageAbove, Laid;
    BodyContinues(doc, i, page);
    assert PathAt(doc, i) == PathOf(stack);
    LaidCons(doc, i, b, ParseFrom(doc, b.end, stack, page));
  }

  lemma {:induction false} HeadingLays(doc: seq<Line>, i: nat, page: Option<nat>)
    requires i < |doc| && doc[i].mark.Heading? && FenceAt(doc, i) == None && page == PageAbove(doc, i)
    requires
      var stack := OpenHeads(HeadsAbove(doc, i) + [doc[i].mark.head]);
      Increasing(OpenHeads(HeadsAbove(doc, i))) && Laid(doc, i + 1, ParseFrom(doc, i + 1, stack, page))
    ensures Laid(doc, i, ParseFrom(doc, i, OpenHeads(HeadsAbove(doc, i)), page))
  {
    var stack, head := OpenHeads(HeadsAbove(doc, i)), doc[i].mark.head;
    AfterLine(doc, i);
    ParseStep(doc, i, stack, page);
    hide BodyBlock, BlockFits, OpenHeads, Push, PathOf, ParseFrom, FenceAt, HeadsAbove, PageAbove, Laid;
    PushKeepsOpenHeads(HeadsAbove(doc, i), head);
    var b := Block(Title, [doc[i].bare], i + 1, i + 1, head.level, PathOf(Push(stack, head)), page);
    TitleFits(doc, b);
    LaidCons(doc, i, b, ParseFrom(doc, i + 1, Push(stack, head), page));
  }

  /** The parse result lays out the lines: ordered, disjoint and maximal blocks that leave
      out blank lines and page anchors only, each under exactly its open headings and on
      the page of the nearest anchor above it. The heading stack is always the list of
      open headings. */
  lemma {:induction false} ParseLaysOut(doc: seq<Line>, i: nat, page: Option<nat>)
    requires i <= |doc| && (i < |doc| ==> FenceAt(doc, i) == None)
    requires Increasing(OpenHeads(HeadsAbove(doc, i))) && page == PageAbove(doc, i)
    ensures Laid(doc, i, ParseFrom(doc, i, OpenHeads(HeadsAbove(doc, i)), page))
    decreases |doc| - i
  {
    if i < |doc| {
      var m := doc[i].mark;
      AfterLine(doc, i);
      hide BodyBlock, BlockFits, OpenHeads, ParseFrom, FenceAt, HeadsAbove, PageAbove, Laid;
      if IsBody(m) {
        BodyContinues(doc, i, page);
        ParseLaysOut(doc, BodyBlock(doc, i, PathAt(doc, i), page).end, page);
        BodyLays(doc, i, page);
      } else if m.Heading? {
        PushKeepsOpenHeads(HeadsAbove(doc, i), m.head);
        ParseLaysOut(doc, i + 1, page);
        HeadingLays(doc, i, page);
      } else {
        var next := if m.Anchor? then Some(m.page) else page;
        ParseLaysOut(doc, i + 1, next);
        ParseStep(doc, i, OpenHeads(HeadsAbove(doc, i)), page);
        GapBefore(doc, i, ParseFrom(doc, i + 1, OpenHeads(HeadsAbove(doc, i)), next));
      }
    }
  }

  // ----- ink of the blocks -----

  lemma {:induction false} PlainInk(doc: seq<Line>, i: nat, j: nat)
    requires i <= j <= |doc|
    requires forall k :: i <= k < j ==> !IsAnchorLine(doc, k)
    ensures InkRange(doc, i, j) == InkLines(Texts(doc, i, j))
  {
    hide Ink, IsAnchorLine;
    if i < j {
      PlainInk(doc, i, j - 1);
      assert Texts(doc, i, j)[..j - i - 1] == Texts(doc, i, j - 1);
    }
  }

  predicate InkOfBare(doc: seq<Line>) {
    forall k :: 0 <= k < |doc| ==> Ink(doc[k].bare) == Ink(doc[k].text)
  }

  lemma {:induction false} StrippedInk(doc: seq<Line>, i: nat, j: nat)
    requires i <= j <= |doc| && InkOfBare(doc)
    ensures InkLines(Stripped(doc, i, j)) == InkLines(Texts(doc, i, j))
  {
    if i < j {
      StrippedInk(doc, i, j - 1);
      assert Stripped(doc, i, j)[..j - i - 1] == Stripped(doc, i, j - 1);
      assert Texts(doc, i, j)[..j - i - 1] == Texts(doc, i, j - 1);
    }
  }

  lemma {:induction false} FirstTexts(doc: seq<Line>, i: nat, j: nat, n: nat)
    requires i + n <= j <= |doc|
    ensures |Texts(doc, i, j)| == |Stripped(doc, i, j)| == j - i
    ensures Texts(doc, i, j)[..n] == Texts(doc, i, i + n) && Stripped(doc, i, j)[..n] == Stripped(doc, i, i + n)
  {
  }

  lemma {:induction false} FirstLinesInk(doc: seq<Line>, lines: seq<string>, i: nat, j: nat, n: nat)
    requires InkOfBare(doc) && i + n <= j <= |doc| && (lines == Texts(doc, i, j) || lines == Stripped(doc, i, j))
    requires forall k :: i <= k < j ==> !IsAnchorLine(doc, k)
    ensures |lines| == j - i && InkLines(lines[..n]) == InkRange(doc, i, i + n)
  {
    hide Ink, IsAnchorLine, InkRange, InkLines, InkOfBare, Texts, Stripped;
    FirstTexts(doc, i, j, n);
    PlainInk(doc, i, i + n);
    StrippedInk(doc, i, i + n);
  }

  /** The ink of the first `n` lines of a block. */
  lemma {:induction false} BlockInk(doc: seq<Line>, b: Block, n: nat)
    requires InkOfBare(doc)
    requires BlockFits(doc, b) && FenceAt(doc, b.start - 1) == None && n <= b.end - b.start + 1
    ensures |b.lines| == b.end - b.start + 1
    ensures InkLines(b.lines[..n]) == InkRange(doc, b.start - 1, b.start - 1 + n)
  {
    hide *;
    FitsLines(doc, b);
    NoAnchorInside(doc, b);
    FirstLinesInk(doc, b.lines, b.start - 1, b.end, n);
  }

  lemma {:induction false} NoAnchorInside(doc: seq<Line>, b: Block)
    requires BlockFits(doc, b) && FenceAt(doc, b.start - 1) == None
    ensures 1 <= b.start <= b.end <= |doc|
    ensures forall k :: b.start - 1 <= k < b.end ==> !IsAnchorLine(doc, k)
  {
    BlockIsUniform(doc, b);
  }

  lemma {:induction false} FitsLines(doc: seq<Line>, b: Block)
    requires BlockFits(doc, b)
    ensures b.lines == Texts(doc, b.start - 1, b.end) || b.lines == Stripped(doc, b.start - 1, b.end)
  {
    assert b.kind == Title ==> b.lines == Stripped(doc, b.start - 1, b.end);
  }

  /** Marks agree with the white space of their lines. */
  predicate MarksBlanks(doc: seq<Line>) {
    forall k :: 0 <= k < |doc| ==> (doc[k].mark == Empty <==> Ink(doc[k].text) == [])
  }

  lemma {:induction false} GapInk(doc: seq<Line>, i: nat, j: nat)
    requires i <= j <= |doc| && IsGap(doc, i, j) && MarksBlanks(doc)
    ensures InkRange(doc, i, j) == []
  {
    if i < j {
      GapInk(doc, i, j - 1);
    }
  }
}
