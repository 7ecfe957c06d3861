/** Strings as the chunker sees them: white space, stripping, joining, splitting into
    lines, and the line recognisers (heading, page anchor, fence, table separator,
    sentence boundary).

    `Ink(s)` is `s` without its white space; every conservation result is stated on it. */
module Text {

  datatype Option<+T> = None | Some(value: T)

  const NEWLINE := "\n"

  // ----- characters -----

  /** What `str.isspace` and the `\s` of a regular expression accept. */
  predicate IsSpace(c: char) {
    var k := c as int;
    9 <= k <= 13 || 28 <= k <= 32 || k == 0x85 || k == 0xa0 || k == 0x1680 ||
    0x2000 <= k <= 0x200a || k == 0x2028 || k == 0x2029 || k == 0x202f || k == 0x205f || k == 0x3000
  }

  /** The characters `str.splitlines` breaks at; all of them are white space. */
  predicate IsBreak(c: char) {
    var k := c as int;
    10 <= k <= 13 || 28 <= k <= 30 || k == 0x85 || k == 0x2028 || k == 0x2029
  }

  predicate Breakless(s: string) {
    forall k :: 0 <= k < |s| ==> !IsBreak(s[k])
  }

  predicate AllBreakless(lines: seq<string>) {
    forall k :: 0 <= k < |lines| ==> Breakless(lines[k])
  }

  function Min(a: int, b: int): int { if a < b then a else b }

  function Max(a: int, b: int): int { if a < b then b else a }

  function MaxR(x: real, y: real): real { if x < y then y else x }

  predicate NoRepeats<T(==)>(s: seq<T>) { forall i, j :: 0 <= i < j < |s| ==> s[i] != s[j] }

  function PairAt(s: string, k: nat): string
    requires k + 2 <= |s|
  {
    s[k..k + 2]
  }

  function Bigrams(s: string): set<string> {
    set k: nat | 0 <= k < |s| - 1 :: PairAt(s, k)
  }

  lemma {:induction false} Assoc<T>(a: seq<T>, b: seq<T>, c: seq<T>)
    ensures a + (b + c) == a + b + c
  {
  }

  lemma {:induction false} Uncons<T>(s: seq<T>)
    requires s != []
    ensures s == [s[0]] + s[1..]
  {
  }

  // ----- ink: what is left of a string without its white space -----

  function Ink(s: string): string {
    if s == [] then [] else (if IsSpace(s[0]) then [] else [s[0]]) + Ink(s[1..])
  }

  lemma {:induction false} InkConcat(a: string, b: string)
    ensures Ink(a + b) == Ink(a) + Ink(b)
  {
    if a == [] {
      assert a + b == b;
    } else {
      assert (a + b)[1..] == a[1..] + b;
      InkConcat(a[1..], b);
    }
  }

  lemma {:induction false} InkOfSpaces(s: string)
    requires forall k :: 0 <= k < |s| ==> IsSpace(s[k])
    ensures Ink(s) == []
  {
    if s != [] {
      InkOfSpaces(s[1..]);
    }
  }

  lemma {:induction false} InkIsEmpty(s: string, k: nat)
    requires Ink(s) == [] && k < |s|
    ensures IsSpace(s[k])
  {
    if k > 0 {
      assert s[1..][k - 1] == s[k];
      InkIsEmpty(s[1..], k - 1);
    }
  }

  /** Cutting a string anywhere cuts its ink. */
  lemma {:induction false} InkSplit(s: string, i: nat, j: nat)
    requires i <= j <= |s|
    ensures Ink(s[i..]) == Ink(s[i..j]) + Ink(s[j..])
  {
    assert s[i..] == s[i..j] + s[j..];
    InkConcat(s[i..j], s[j..]);
  }

  function InkLines(lines: seq<string>): string {
    if lines == [] then [] else InkLines(lines[..|lines| - 1]) + Ink(lines[|lines| - 1])
  }

  lemma {:induction false} InkLinesConcat(a: seq<string>, b: seq<string>)
    ensures InkLines(a + b) == InkLines(a) + InkLines(b)
  {
    if b == [] {
      assert a + b == a;
    } else {
      var n := |b| - 1;
      assert (a + b)[..|a + b| - 1] == a + b[..n];
      InkLinesConcat(a, b[..n]);
    }
  }

  // ----- strip -----

  function LStrip(s: string): (r: string)
    ensures |r| <= |s|
  {
    if s == [] || !IsSpace(s[0]) then s else LStrip(s[1..])
  }

  function RStrip(s: string): (r: string)
    ensures |r| <= |s|
  {
    if s == [] || !IsSpace(s[|s| - 1]) then s else RStrip(s[..|s| - 1])
  }

  function Strip(s: string): (r: string)
    ensures |r| <= |s|
  {
    RStrip(LStrip(s))
  }

  lemma {:induction false} LStripFacts(s: string)
    ensures var r := LStrip(s); r == s[|s| - |r|..] && Ink(r) == Ink(s) && (r != [] ==> !IsSpace(r[0]))
  {
    if s != [] && IsSpace(s[0]) {
      LStripFacts(s[1..]);
    }
  }

  lemma {:induction false} RStripFacts(s: string)
    ensures var r := RStrip(s); r == s[..|r|] && Ink(r) == Ink(s) && (r != [] ==> !IsSpace(r[|r| - 1]))
  {
    if s != [] && IsSpace(s[|s| - 1]) {
      var n := |s| - 1;
      RStripFacts(s[..n]);
      assert s == s[..n] + [s[n]];
      InkConcat(s[..n], [s[n]]);
      InkOfSpaces([s[n]]);
    }
  }

  predicate Trimmed(s: string) {
    s != [] && !IsSpace(s[0]) && !IsSpace(s[|s| - 1])
  }

  /** Stripping cuts out a stretch that starts and ends with ink and loses no ink. */
  lemma {:induction false} StripFacts(s: string)
    ensures var r, lead := Strip(s), |s| - |LStrip(s)|;
            && lead + |r| <= |s| && r == s[lead..lead + |r|] && Ink(r) == Ink(s)
            && (r != [] ==> Trimmed(r)) && (r == [] <==> Ink(s) == [])
  {
    var l := LStrip(s);
    var r := RStrip(l);
    LStripFacts(s);
    RStripFacts(l);
    if r != [] {
      assert r[0] == l[0];
      assert Ink(r) != [];
    }
  }

  predicate Blank(s: string) { Strip(s) == [] }

  lemma {:induction false} StripBreakless(s: string)
    requires Breakless(s)
    ensures Breakless(Strip(s))
  {
    var lead := |s| - |LStrip(s)|;
    StripFacts(s);
    forall k | 0 <= k < |Strip(s)| ensures !IsBreak(Strip(s)[k]) {
      assert Strip(s)[k] == s[lead + k];
    }
  }

  // ----- join -----

  function Join(sep: string, parts: seq<string>): string {
    if parts == [] then []
    else if |parts| == 1 then parts[0]
    else Join(sep, parts[..|parts| - 1]) + sep + parts[|parts| - 1]
  }

  predicate AllSpace(s: string) {
    forall k :: 0 <= k < |s| ==> IsSpace(s[k])
  }

  lemma {:induction false} BlankIs(s: string)
    ensures Blank(s) <==> AllSpace(s)
  {
    StripFacts(s);
    if AllSpace(s) { InkOfSpaces(s); }
    if Blank(s) {
      forall k | 0 <= k < |s| ensures IsSpace(s[k]) { InkIsEmpty(s, k); }
    }
  }

  lemma {:induction false} InkOfJoin(sep: string, parts: seq<string>)
    requires AllSpace(sep)
    ensures Ink(Join(sep, parts)) == InkLines(parts)
  {
    if |parts| == 1 {
      assert parts[..0] == [];
    } else if parts != [] {
      var n := |parts| - 1;
      InkOfJoin(sep, parts[..n]);
      InkConcat(Join(sep, parts[..n]) + sep, parts[n]);
      InkConcat(Join(sep, parts[..n]), sep);
      InkOfSpaces(sep);
    }
  }

  /** Joining in two steps is joining at once. */
  lemma {:induction false} JoinConcat(sep: string, a: seq<string>, b: seq<string>)
    requires a != [] && b != []
    ensures Join(sep, a + b) == Join(sep, a) + sep + Join(sep, b)
  {
    var n := |b| - 1;
    assert (a + b)[..|a + b| - 1] == a + b[..n];
    if n > 0 {
      JoinConcat(sep, a, b[..n]);
      assert Join(sep, a + b) == Join(sep, a + b[..n]) + sep + b[n];
    } else {
      assert a + b[..0] == a;
    }
  }

  /** Number of "\n" characters. */
  function Newlines(s: string): nat {
    if s == [] then 0 else Newlines(s[..|s| - 1]) + if s[|s| - 1] == '\n' then 1 else 0
  }

  lemma {:induction false} NewlinesConcat(a: string, b: string)
    ensures Newlines(a + b) == Newlines(a) + Newlines(b)
  {
    if b == [] {
      assert a + b == a;
    } else {
      assert (a + b)[..|a + b| - 1] == a + b[..|b| - 1];
      NewlinesConcat(a, b[..|b| - 1]);
    }
  }

  lemma {:induction false} NewlinesOfBreakless(s: string)
    requires Breakless(s)
    ensures Newlines(s) == 0
  {
    if s != [] {
      NewlinesOfBreakless(s[..|s| - 1]);
    }
  }

  lemma {:induction false} NewlinesOfJoin(lines: seq<string>)
    requires AllBreakless(lines) && lines != []
    ensures Newlines(Join(NEWLINE, lines)) == |lines| - 1
  {
    var n := |lines| - 1;
    NewlinesOfBreakless(lines[n]);
    if n > 0 {
      NewlinesOfJoin(lines[..n]);
      NewlinesConcat(Join(NEWLINE, lines[..n]), NEWLINE);
      NewlinesConcat(Join(NEWLINE, lines[..n]) + NEWLINE, lines[n]);
      assert NEWLINE[..0] == [];
    }
  }

  // ----- splitting into lines -----

  function FirstBreak(s: string): (k: nat)
    ensures k <= |s|
    ensures Breakless(s[..k])
    ensures k < |s| ==> IsBreak(s[k])
  {
    if s == [] || IsBreak(s[0]) then 0
    else
      var k := FirstBreak(s[1..]);
      assert forall m :: 1 <= m < 1 + k ==> s[m] == s[1..][..k][m - 1];
      1 + k
  }

  /** Width of the line break at `k`: "\r\n" counts as one break. */
  function BreakWidth(s: string, k: nat): (w: nat)
    requires k < |s|
    ensures 1 <= w && k + w <= |s|
  {
    if k + 1 < |s| && s[k] == '\r' && s[k + 1] == '\n' then 2 else 1
  }

  /** `str.splitlines`. */
  function SplitLines(s: string): (lines: seq<string>)
    ensures AllBreakless(lines)
    decreases |s|
  {
    if s == [] then []
    else
      var k := FirstBreak(s);
      if k == |s| then assert s[..k] == s; [s]
      else [s[..k]] + SplitLines(s[k + BreakWidth(s, k)..])
  }

  lemma {:induction false} InkAround(a: string, b: string, c: string)
    requires AllSpace(b)
    ensures Ink(a + b + c) == Ink(a) + Ink(c)
  {
    InkConcat(a + b, c);
    InkConcat(a, b);
    InkOfSpaces(b);
  }

  lemma {:induction false} InkLinesOfOne(line: string)
    ensures InkLines([line]) == Ink(line)
  {
    assert [line][..0] == [];
  }

  lemma {:induction false} BreakIsSpace(s: string, k: nat)
    requires k < |s| && IsBreak(s[k])
    ensures AllSpace(s[k..k + BreakWidth(s, k)])
  {
  }

  lemma {:induction false} SplitStep(s: string)
    ensures s == [] ==> InkLines(SplitLines(s)) == Ink(s)
    ensures s != [] ==>
      var k := FirstBreak(s);
      if k == |s| then SplitLines(s) == [s] else SplitLines(s) == [s[..k]] + SplitLines(s[k + BreakWidth(s, k)..])
  {
  }

  /** Splitting into lines loses white space only. */
  lemma {:induction false} SplitLinesInk(s: string)
    ensures InkLines(SplitLines(s)) == Ink(s)
    decreases |s|
  {
    SplitStep(s);
    hide SplitLines, Ink, InkLines, FirstBreak;
    if s != [] {
      var k := FirstBreak(s);
      InkLinesOfOne(s[..k]);
      if k == |s| {
        assert s[..k] == s;
      } else {
        var e := k + BreakWidth(s, k);
        SplitLinesInk(s[e..]);
        InkLinesConcat([s[..k]], SplitLines(s[e..]));
        BreakIsSpace(s, k);
        InkAcross(s, k, e);
      }
    }
  }

  lemma {:induction false} InkAcross(s: string, k: nat, e: nat)
    requires k <= e <= |s| && AllSpace(s[k..e])
    ensures Ink(s) == Ink(s[..k]) + Ink(s[e..])
  {
    hide Ink, AllSpace;
    InkAround(s[..k], s[k..e], s[e..]);
    assert s == s[..k] + s[k..e] + s[e..];
  }

  lemma {:induction false} FirstBreakOfLine(line: string, tail: string)
    requires Breakless(line) && (tail == [] || IsBreak(tail[0]))
    ensures FirstBreak(line + tail) == |line|
  {
    if line == [] {
      assert line + tail == tail;
    } else {
      assert (line + tail)[1..] == line[1..] + tail;
      FirstBreakOfLine(line[1..], tail);
    }
  }

  lemma {:induction false} JoinHead(sep: string, parts: seq<string>)
    requires |parts| >= 2
    ensures Join(sep, parts) == parts[0] + sep + Join(sep, parts[1..])
  {
    assert parts == [parts[0]] + parts[1..];
    JoinConcat(sep, [parts[0]], parts[1..]);
    assert Join(sep, [parts[0]]) == parts[0];
  }

  /** A whole line break in front of `tail`: one break character, but "\r\n" is only one break. */
  predicate IsWholeBreak(sep: string, tail: string) {
    sep == "\r\n" || (|sep| == 1 && IsBreak(sep[0]) && (sep == "\r" && tail != [] ==> tail[0] != '\n'))
  }

  /** Lines are what lies between whole breaks; the end of the text opens no line. */
  lemma {:induction false} LinesAreSplit(line: string, sep: string, tail: string)
    requires Breakless(line) && IsWholeBreak(sep, tail)
    ensures SplitLines(line + sep + tail) == [line] + SplitLines(tail)
    ensures SplitLines(line) == if line == [] then [] else [line]
  {
    var s := line + sep + tail;
    assert s == line + (sep + tail) && IsBreak(sep[0]);
    FirstBreakOfLine(line, sep + tail);
    FirstBreakOfLine(line, []);
    assert line + [] == line && s[..|line|] == line && s[|line|] == sep[0] && s[|line| + |sep|..] == tail;
    assert BreakWidth(s, |line|) == |sep|;
  }

  /** Joining lines and splitting again gives the same lines, provided the last line is
      not empty (a trailing "\n" does not open a new line). */
  lemma {:induction false} SplitOfJoin(lines: seq<string>)
    requires AllBreakless(lines) && lines != [] && lines[|lines| - 1] != []
    ensures SplitLines(Join(NEWLINE, lines)) == lines
  {
    var s := Join(NEWLINE, lines);
    if |lines| == 1 {
      assert s == lines[0] && s + [] == s;
      FirstBreakOfLine(s, []);
    } else {
      hide SplitLines, IsBreak, Join;
      var rest := Join(NEWLINE, lines[1..]);
      JoinHead(NEWLINE, lines);
      LinesAreSplit(lines[0], NEWLINE, rest);
      SplitOfJoin(lines[1..]);
      Uncons(lines);
    }
  }
}
