/** The line recognisers of the chunker: headings, page anchors, code fences, table rows and
    separators, and sentence boundaries. They are a simplified subset of CommonMark (ATX
    headings, section 4.2; fenced code, section 4.5) and of the GFM tables (section 4.10). */
module Lines {
  import opened Text

  /** A heading's level (1 to 6) and title. */
  datatype Head = Head(level: nat, title: string)

  function LeadingRun(s: string, c: char): (n: nat)
    ensures n <= |s|
  {
    if s == [] || s[0] != c then 0 else 1 + LeadingRun(s[1..], c)
  }

  /** White space, then any number of '#', then white space, and nothing else. */
  predicate ClosingRun(s: string) {
    var t := LStrip(s);
    Blank(t[LeadingRun(t, '#')..])
  }

  /** The shortest non-empty prefix of `s` that leaves a closing run. */
  function TitlePart(s: string, k: nat): string
    requires k <= |s|
    decreases |s| - k
  {
    if k == |s| || (k > 0 && ClosingRun(s[k..])) then s[..k] else TitlePart(s, k + 1)
  }

  function HeadingOf(line: string): Option<Head> {
    var n := LeadingRun(line, '#');
    if 1 <= n <= 6 && n < |line| && IsSpace(line[n]) && !Blank(line[n..])
    then Some(Head(n, Strip(TitlePart(LStrip(line[n..]), 0))))
    else None
  }

  predicate Digits(s: string) {
    s != [] && forall k :: 0 <= k < |s| ==> '0' <= s[k] <= '9'
  }

  function Number(s: string): nat
    requires Digits(s)
  {
    var d := s[|s| - 1] as int - '0' as int;
    if |s| == 1 then d else 10 * Number(s[..|s| - 1]) + d
  }

  /** The page number of a page-anchor line. */
  function PageAnchor(line: string): Option<nat> {
    var s := Strip(line);
    if |s| > 12 && s[..9] == "<!--page:" && s[|s| - 3..] == "-->" && Digits(s[9..|s| - 3])
    then Some(Number(s[9..|s| - 3])) else None
  }

  /** The fence character of a line that opens a code fence. */
  function FenceChar(line: string): Option<char> {
    var s := LStrip(line);
    if |s| >= 3 && (s[..3] == "```" || s[..3] == "~~~") then Some(s[0]) else None
  }

  /** The character of a line made of three or more of one character: the line closes a
      fence of that character. */
  function FenceBar(line: string): Option<char> {
    var s := Strip(line);
    if |s| >= 3 && (forall k :: 0 <= k < |s| ==> s[k] == s[0]) then Some(s[0]) else None
  }

  predicate IsTableRow(line: string) {
    var s := Strip(line);
    s != [] && s[0] == '|'
  }

  /** The separator line under a table header. */
  predicate IsTableSeparator(line: string) {
    line != [] && forall k :: 0 <= k < |line| ==> IsSpace(line[k]) || line[k] in ":|-"
  }

  /** A sentence or line boundary right after position `k` of the window `w`. */
  predicate IsBoundary(w: string, k: nat)
    requires k < |w|
  {
    w[k] == '\U{3002}' || w[k] in "!?\n" || (w[k] == '.' && (k + 1 == |w| || IsSpace(w[k + 1])))
  }

  lemma {:induction false} StripHead(line: string)
    requires LStrip(line) != []
    ensures Strip(line) != [] && Strip(line)[0] == LStrip(line)[0] && line != []
    ensures line[0] == LStrip(line)[0] || IsSpace(line[0])
  {
    StripFacts(line);
    LStripFacts(line);
    assert Ink(LStrip(line)) != [];
  }

  /** A fence line is none of the things tested before it. */
  lemma {:induction false} FenceIsPlain(line: string)
    requires FenceChar(line).Some?
    ensures !Blank(line) && PageAnchor(line) == None && HeadingOf(line) == None && !IsTableRow(line)
  {
    var l := LStrip(line);
    StripHead(line);
    assert l[0] == l[..3][0];
    assert l[0] == '`' || l[0] == '~';
    assert Strip(line)[0] != "<!--page:"[0];
  }

  lemma {:induction false} TableRowIsPlain(line: string)
    requires IsTableRow(line)
    ensures !Blank(line) && PageAnchor(line) == None && FenceChar(line) == None
  {
    var l := LStrip(line);
    assert l != [] by { StripFacts(line); LStripFacts(line); }
    StripHead(line);
    assert Strip(line)[0] != "<!--page:"[0];
    assert l[0] == '|';
    assert |l| >= 3 ==> l[..3][0] == '|';
  }

  lemma {:induction false} TitleIsPlain(line: string)
    requires HeadingOf(line).Some?
    ensures !Blank(line) && PageAnchor(line) == None && FenceChar(line) == None
  {
    assert line[0] == '#';
    assert LStrip(line) == line;
    StripHead(line);
    assert |line| >= 3 ==> line[..3][0] == '#';
    assert Strip(line)[0] != "<!--page:"[0];
  }

  // ----- what a heading and a page anchor are -----

  predicate AllHashes(s: string) { forall k :: 0 <= k < |s| ==> s[k] == '#' }

  /** White space, hashes, white space. */
  ghost predicate IsClosing(s: string) {
    exists i: nat, j: nat :: Splits(s, i, j) && AllSpace(s[..i]) && AllHashes(s[i..j]) && AllSpace(s[j..])
  }

  predicate Splits(s: string, i: nat, j: nat) { i <= j <= |s| }

  /** The title of a heading of level `n` stands at `a` up to `b`: it begins with the first ink after
      the hashes and ends as early as what follows it can close the heading. */
  ghost predicate TitleAt(line: string, n: nat, a: nat, b: nat) {
    && 1 <= n <= 6 && n < a < b <= |line| && AllHashes(line[..n]) && AllSpace(line[n..a]) && !IsSpace(line[a])
    && IsClosing(line[b..]) && forall c :: a < c < b ==> !IsClosing(line[c..])
  }

  lemma {:induction false} LeadingRunIs(s: string, c: char)
    ensures
      var n := LeadingRun(s, c);
      (forall k :: 0 <= k < n ==> s[k] == c) && (n < |s| ==> s[n] != c)
  {
    if s != [] && s[0] == c { LeadingRunIs(s[1..], c); }
  }

  lemma {:induction false} LStripIs(s: string)
    ensures
      var i := |s| - |LStrip(s)|;
      0 <= i <= |s| && LStrip(s) == s[i..] && AllSpace(s[..i]) && (i < |s| ==> !IsSpace(s[i]))
  {
    if s != [] && IsSpace(s[0]) { LStripIs(s[1..]); }
  }

  lemma {:induction false} ClosingIs(s: string)
    ensures ClosingRun(s) <==> IsClosing(s)
  {
    LStripIs(s);
    var t := LStrip(s);
    var i := |s| - |t|;
    LeadingRunIs(t, '#');
    var m := LeadingRun(t, '#');
    BlankIs(t[m..]);
    if ClosingRun(s) {
      assert Splits(s, i, i + m) && s[i + m..] == t[m..] && s[i..i + m] == t[..m];
    }
    if IsClosing(s) {
      var a: nat, b: nat :| Splits(s, a, b) && AllSpace(s[..a]) && AllHashes(s[a..b]) && AllSpace(s[b..]);
      ClosingEnds(s, i, m, a, b);
    }
  }

  lemma {:induction false} ClosingEnds(s: string, i: nat, m: nat, a: nat, b: nat)
    requires Splits(s, a, b) && AllSpace(s[..a]) && AllHashes(s[a..b]) && AllSpace(s[b..])
    requires i + m <= |s| && AllSpace(s[..i]) && (i < |s| ==> !IsSpace(s[i]))
    requires (forall k :: 0 <= k < m ==> s[i..][k] == '#') && (i + m < |s| ==> s[i + m] != '#')
    ensures AllSpace(s[i..][m..])
  {
    assert forall k :: b <= k < |s| ==> IsSpace(s[k]) by {
      forall k | b <= k < |s| ensures IsSpace(s[k]) { assert s[b..][k - b] == s[k]; }
    }
    assert forall k :: a <= k < b ==> s[k] == '#' by {
      forall k | a <= k < b ensures s[k] == '#' { assert s[a..b][k - a] == s[k]; }
    }
    assert forall k :: 0 <= k < a ==> IsSpace(s[k]) by {
      forall k | 0 <= k < a ensures IsSpace(s[k]) { assert s[..a][k] == s[k]; }
    }
    forall k | 0 <= k < |s[i..][m..]| ensures IsSpace(s[i..][m..][k]) {
      assert s[i..][m..][k] == s[i + m + k];
    }
  }

  lemma {:induction false} TitlePartIs(s: string, k: nat)
    requires k <= |s| && s != []
    ensures
      var t := TitlePart(s, k);
      var m := |t|;
      && k <= m <= |s| && t == s[..m] && m > 0 && ClosingRun(s[m..])
      && forall c :: k <= c < m && c > 0 ==> !ClosingRun(s[c..])
    decreases |s| - k
  {
    hide ClosingRun, LStrip, Strip;
    if k == |s| {
      EndCloses(s);
    } else if !(k > 0 && ClosingRun(s[k..])) {
      TitlePartIs(s, k + 1);
    }
  }

  lemma {:induction false} EndCloses(s: string)
    ensures ClosingRun(s[|s|..])
  {
    assert s[|s|..] == [] && Blank([]);
  }

  /** The title part of what follows the hashes and the white space. */
  lemma {:induction false} TitleEnds(line: string, a: nat, b: nat)
    requires a < b <= |line|
    requires IsClosing(line[b..]) && forall c :: a < c < b ==> !IsClosing(line[c..])
    ensures TitlePart(line[a..], 0) == line[a..b]
  {
    var rest := line[a..];
    hide IsClosing, ClosingRun, TitlePart;
    TitlePartIs(rest, 0);
    var m := |TitlePart(rest, 0)|;
    assert rest[m..] == line[a + m..] && rest[b - a..] == line[b..];
    ClosingIs(line[a + m..]);
    ClosingIs(line[b..]);
    assert a + m == b;
    assert rest[..m] == line[a..b];
  }

  lemma {:induction false} TitleHasEnd(line: string, a: nat) returns (b: nat)
    requires a < |line|
    ensures a < b <= |line| && IsClosing(line[b..]) && forall c :: a < c < b ==> !IsClosing(line[c..])
  {
    var rest := line[a..];
    hide IsClosing, ClosingRun, TitlePart;
    TitlePartIs(rest, 0);
    var m := |TitlePart(rest, 0)|;
    b := a + m;
    assert rest[m..] == line[b..];
    ClosingIs(line[b..]);
    forall c | a < c < b ensures !IsClosing(line[c..]) {
      assert rest[c - a..] == line[c..];
      ClosingIs(line[c..]);
    }
  }

  lemma {:induction false} HashesEnd(line: string, n: nat)
    requires n < |line| && AllHashes(line[..n]) && line[n] != '#'
    ensures LeadingRun(line, '#') == n
  {
    LeadingRunIs(line, '#');
    var m := LeadingRun(line, '#');
    hide LeadingRun;
  }

  lemma {:induction false} LStripAt(s: string, i: nat)
    requires i < |s| && AllSpace(s[..i]) && !IsSpace(s[i])
    ensures LStrip(s) == s[i..]
  {
    LStripIs(s);
    var m := |s| - |LStrip(s)|;
    hide LStrip, IsSpace;
  }

  lemma {:induction false} SliceOfRest(s: string, n: nat, a: nat)
    requires n <= a < |s|
    ensures s[n..][..a - n] == s[n..a] && s[n..][a - n] == s[a] && s[n..][a - n..] == s[a..]
  {
  }

  /** A line with a title in place is that heading. */
  lemma {:induction false} TitleMakesHeading(line: string, n: nat, a: nat, b: nat)
    requires TitleAt(line, n, a, b)
    ensures HeadingOf(line) == Some(Head(n, Strip(line[a..b])))
  {
    var rest := line[n..];
    assert IsSpace(line[n]) && !IsSpace('#') by { assert line[n..a][0] == line[n]; }
    HashesEnd(line, n);
    SliceOfRest(line, n, a);
    hide IsSpace, IsClosing;
    LStripAt(rest, a - n);
    TitleEnds(line, a, b);
    BlankIs(rest);
    hide TitlePart, LeadingRun;
  }

  /** Every heading has its title in place. */
  lemma {:induction false} HeadingHasTitle(line: string) returns (a: nat, b: nat)
    requires HeadingOf(line).Some?
    ensures
      var h := HeadingOf(line).value;
      TitleAt(line, h.level, a, b) && h.title == Strip(line[a..b])
  {
    var n := LeadingRun(line, '#');
    var rest := line[n..];
    LeadingRunIs(line, '#');
    LStripIs(rest);
    BlankIs(rest);
    var i := |rest| - |LStrip(rest)|;
    a := n + i;
    assert AllSpace(line[n..a]) by { assert line[n..a] == rest[..i]; }
    assert rest[..|rest|] == rest;
    assert i < |rest| && rest[i] == line[a];
    assert i > 0 by { assert rest[0] == line[n]; }
    b := TitleHasEnd(line, a);
    assert TitleAt(line, n, a, b) by { hide IsSpace, IsClosing, LStrip, Strip; }
    TitleMakesHeading(line, n, a, b);
  }

  /** A heading is one to six hashes, white space, and a title; the title ends before trailing hashes. */
  lemma {:induction false} HeadingIs(line: string, h: Head)
    ensures HeadingOf(line) == Some(h) <==>
      exists a: nat, b: nat :: TitleAt(line, h.level, a, b) && h.title == Strip(line[a..b])
  {
    hide HeadingOf, IsClosing, Strip;
    if HeadingOf(line) == Some(h) { var a, b := HeadingHasTitle(line); }
    if a: nat, b: nat :| TitleAt(line, h.level, a, b) && h.title == Strip(line[a..b]) {
      TitleMakesHeading(line, h.level, a, b);
    }
  }

  /** The decimal numeral of a number. */
  function Numeral(n: nat): (d: string)
    ensures Digits(d)
  {
    var c := ('0' as int + n % 10) as char;
    if n < 10 then [c] else Numeral(n / 10) + [c]
  }

  lemma {:induction false} NumberOfNumeral(n: nat)
    ensures Number(Numeral(n)) == n
  {
    var c := ('0' as int + n % 10) as char;
    if n >= 10 {
      NumberOfNumeral(n / 10);
      assert (Numeral(n / 10) + [c])[..|Numeral(n / 10)|] == Numeral(n / 10);
    }
  }

  /** A page anchor is a stripped line of just this form. */
  lemma {:induction false} PageAnchorIs(line: string, page: nat)
    ensures PageAnchor(line) == Some(page) <==>
      exists d: string :: Digits(d) && Strip(line) == "<!--page:" + d + "-->" && page == Number(d)
  {
    var s := Strip(line);
    if PageAnchor(line) == Some(page) {
      var d := s[9..|s| - 3];
      assert s == s[..9] + d + s[|s| - 3..];
    }
    if d: string :| Digits(d) && s == "<!--page:" + d + "-->" && page == Number(d) {
      assert |"<!--page:"| == 9 && |"-->"| == 3;
      assert s[..9] == "<!--page:" && s[9..|s| - 3] == d && s[|s| - 3..] == "-->";
    }
  }

  /** The first ink of the line is `c` at position `i`. */
  predicate BeginsAt(line: string, i: nat, c: char) {
    i < |line| && AllSpace(line[..i]) && line[i] == c && !IsSpace(c)
  }

  lemma {:induction false} BeginsOnce(line: string, i: nat, c: char)
    requires BeginsAt(line, i, c)
    ensures LStrip(line) == line[i..] && Strip(line) != [] && Strip(line)[0] == c
  {
    LStripAt(line, i);
    StripHead(line);
  }

  lemma {:induction false} BeginsSomewhere(line: string) returns (i: nat)
    requires LStrip(line) != [] || Strip(line) != []
    ensures i < |line| && LStrip(line) == line[i..] && BeginsAt(line, i, line[i])
  {
    LStripIs(line);
    StripFacts(line);
    i := |line| - |LStrip(line)|;
  }

  /** An opening fence begins with three backticks or tildes, and a table row with a bar. */
  lemma {:induction false} FencesAre(line: string, c: char)
    ensures FenceChar(line) == Some(c) <==>
      c in "`~" && exists i: nat :: BeginsAt(line, i, c) && i + 3 <= |line| && line[i + 1] == line[i + 2] == c
    ensures IsTableRow(line) <==> exists i: nat :: BeginsAt(line, i, '|')
  {
    hide LStrip, Strip, AllSpace;
    if k: nat :| BeginsAt(line, k, '|') { BeginsOnce(line, k, '|'); }
    if k: nat :| BeginsAt(line, k, c) && k + 3 <= |line| && line[k + 1] == line[k + 2] == c {
      BeginsOnce(line, k, c);
      assert line[k..][..3] == [c, c, c];
    }
    if FenceChar(line) == Some(c) || IsTableRow(line) {
      var i := BeginsSomewhere(line);
      BeginsOnce(line, i, line[i]);
      assert FenceChar(line).Some? ==> line[i..][0] == line[i..][1] == line[i..][2];
    }
  }

  // ----- one mark per line -----

  datatype Mark = Empty | Anchor(page: nat) | Heading(head: Head) | Fence(c: char) | Row | Prose

  /** The tests of the parser in its order. They exclude one another, so a line has a mark
      exactly when the corresponding test succeeds on its own. */
  function Classify(line: string): (m: Mark)
    ensures m == Empty <==> Blank(line)
    ensures m.Anchor? <==> PageAnchor(line).Some?
    ensures m.Anchor? ==> m.page == PageAnchor(line).value
    ensures m.Heading? <==> HeadingOf(line).Some?
    ensures m.Heading? ==> m.head == HeadingOf(line).value
    ensures m.Fence? <==> FenceChar(line).Some?
    ensures m.Fence? ==> m.c == FenceChar(line).value
    ensures m == Row <==> IsTableRow(line)
  {
    if Blank(line) then
      EmptyIsPlain(line);
      Empty
    else if PageAnchor(line).Some? then
      AnchorIsPlain(line);
      Anchor(PageAnchor(line).value)
    else if HeadingOf(line).Some? then
      TitleIsPlain(line);
      TitleIsNoRow(line);
      Heading(HeadingOf(line).value)
    else if FenceChar(line).Some? then
      FenceIsPlain(line);
      Fence(FenceChar(line).value)
    else if IsTableRow(line) then Row
    else Prose
  }

  lemma {:induction false} EmptyIsPlain(line: string)
    requires Blank(line)
    ensures PageAnchor(line) == None && HeadingOf(line) == None && FenceChar(line) == None && !IsTableRow(line)
  {
    if FenceChar(line).Some? { FenceIsPlain(line); }
    if HeadingOf(line).Some? { TitleIsPlain(line); }
  }

  lemma {:induction false} AnchorIsPlain(line: string)
    requires PageAnchor(line).Some?
    ensures !Blank(line) && HeadingOf(line) == None && FenceChar(line) == None && !IsTableRow(line)
  {
    if FenceChar(line).Some? { FenceIsPlain(line); }
    if HeadingOf(line).Some? { TitleIsPlain(line); }
    if IsTableRow(line) { TableRowIsPlain(line); }
  }

  lemma {:induction false} TitleIsNoRow(line: string)
    requires HeadingOf(line).Some?
    ensures !IsTableRow(line)
  {
    assert LStrip(line) == line;
    StripHead(line);
    assert Strip(line)[0] == '#';
  }

  /** A line, the line stripped, its mark, and the fence character it would close. */
  datatype Line = Line(text: string, bare: string, mark: Mark, bar: Option<char>)

  function Read(lines: seq<string>): (doc: seq<Line>)
    ensures |doc| == |lines|
    ensures forall k :: 0 <= k < |lines| ==> doc[k].text == lines[k]
    ensures forall k :: 0 <= k < |lines| ==> doc[k].bare == Strip(lines[k])
    ensures forall k :: 0 <= k < |lines| ==> doc[k].mark == Classify(lines[k])
  {
    seq(|lines|, k requires 0 <= k < |lines| => Line(lines[k], Strip(lines[k]), Classify(lines[k]), FenceBar(lines[k])))
  }
}
