/** How long-term memory splits a text into tokens: ASCII words, and pairs of neighbouring Han
    characters. Letters outside ASCII are taken to be in lower case already. */
module Tokens {
  import opened Text

  predicate IsWord(c: char) { 'a' <= c <= 'z' || '0' <= c <= '9' }

  predicate IsHan(c: char) { '\U{4E00}' <= c <= '\U{9FFF}' }

  function LowerOf(c: char): char { if 'A' <= c <= 'Z' then c - 'A' + 'a' else c }

  function Lower(s: string): (r: string)
    ensures |r| == |s| && forall k :: 0 <= k < |s| ==> r[k] == LowerOf(s[k])
  {
    seq(|s|, k requires 0 <= k < |s| => LowerOf(s[k]))
  }

  /** The length of the run of such characters at the beginning. */
  function RunLength(p: char -> bool, s: string): (n: nat)
    ensures n <= |s| && (forall k :: 0 <= k < n ==> p(s[k])) && (n < |s| ==> !p(s[n]))
  {
    if s == [] || !p(s[0]) then 0 else 1 + RunLength(p, s[1..])
  }

  /** The maximal runs, in order. */
  function Runs(p: char -> bool, s: string): seq<string> {
    if s == [] then []
    else if !p(s[0]) then Runs(p, s[1..])
    else
      var n := RunLength(p, s);
      [s[..n]] + Runs(p, s[n..])
  }

  lemma {:induction false} RunsStep(p: char -> bool, s: string)
    ensures Runs(p, s) ==
      if s == [] then [] else if !p(s[0]) then Runs(p, s[1..])
        else [s[..RunLength(p, s)]] + Runs(p, s[RunLength(p, s)..])
    ensures s != [] && p(s[0]) ==> RunLength(p, s) > 0
  {
  }

  function HanTokens(run: string): set<string> { if |run| == 1 then {run} else Bigrams(run) }

  function AllHanTokens(runs: seq<string>): set<string> {
    if runs == [] then {} else AllHanTokens(runs[..|runs| - 1]) + HanTokens(runs[|runs| - 1])
  }

  function TokensOf(text: string): set<string> {
    var lowered := Lower(text);
    (set w | w in Runs(IsWord, lowered)) + AllHanTokens(Runs(IsHan, lowered))
  }

  method Tokenize(text: string) returns (tokens: set<string>)
    ensures tokens == TokensOf(text)
  {
    var lowered := Lower(text);
    tokens := set w | w in Runs(IsWord, lowered);
    var runs := Runs(IsHan, lowered);
    ghost var words := tokens;
    hide Runs, HanTokens;
    for i := 0 to |runs|
      invariant tokens == words + AllHanTokens(runs[..i])
    {
      assert runs[..i + 1][..i] == runs[..i];
      tokens := tokens + HanTokens(runs[i]);
    }
    assert runs[..|runs|] == runs;
  }

  // ----- what the tokens are -----

  /** A longest stretch of such characters. */
  predicate IsRun(p: char -> bool, s: string, i: nat, j: nat) {
    && i < j <= |s| && (forall k :: i <= k < j ==> p(s[k]))
    && (i > 0 ==> !p(s[i - 1])) && (j < |s| ==> !p(s[j]))
  }

  lemma {:induction false} RunIsListed(p: char -> bool, s: string, i: nat, j: nat)
    requires IsRun(p, s, i, j)
    ensures s[i..j] in Runs(p, s)
    decreases |s|
  {
    RunsStep(p, s);
    hide Runs;
    var n := if p(s[0]) then RunLength(p, s) else 1;
    if i >= n {
      assert s[n..][i - n..j - n] == s[i..j];
      RunIsListed(p, s[n..], i - n, j - n);
    } else {
      assert i == 0 && j == n;
    }
  }

  lemma {:induction false} RunHasPlace(p: char -> bool, s: string, r: string) returns (i: nat, j: nat)
    requires r in Runs(p, s)
    ensures IsRun(p, s, i, j) && s[i..j] == r
    decreases |s|
  {
    RunsStep(p, s);
    hide Runs;
    var n := if p(s[0]) then RunLength(p, s) else 1;
    if p(s[0]) && r == s[..n] {
      i, j := 0, n;
    } else {
      i, j := RunHasPlace(p, s[n..], r);
      assert s[n..][i..j] == s[n + i..n + j];
      i, j := n + i, n + j;
    }
  }

  lemma {:induction false} AllHanTokensAre(runs: seq<string>, t: string)
    ensures t in AllHanTokens(runs) <==> exists r :: r in runs && t in HanTokens(r)
  {
    if runs != [] {
      AllHanTokensAre(runs[..|runs| - 1], t);
      assert runs == runs[..|runs| - 1] + [runs[|runs| - 1]];
      hide HanTokens;
    }
  }

  lemma {:induction false} RunAround(p: char -> bool, s: string, k: nat) returns (i: nat, j: nat)
    requires k < |s| && p(s[k])
    ensures IsRun(p, s, i, j) && i <= k < j
  {
    i, j := k, k + 1;
    while i > 0 && p(s[i - 1])
      invariant i <= k && forall m :: i <= m <= k ==> p(s[m])
    {
      i := i - 1;
    }
    while j < |s| && p(s[j])
      invariant k < j <= |s| && forall m :: i <= m < j ==> p(s[m])
    {
      j := j + 1;
    }
  }

  ghost predicate WordIn(s: string, t: string) { exists i: nat, j: nat :: IsRun(IsWord, s, i, j) && s[i..j] == t }

  predicate HanPair(s: string, k: nat) { k + 1 < |s| && IsHan(s[k]) && IsHan(s[k + 1]) }

  ghost predicate HanPairIn(s: string, t: string) { exists k: nat :: HanPair(s, k) && PairAt(s, k) == t }

  ghost predicate LoneHanIn(s: string, t: string) { exists k: nat :: IsRun(IsHan, s, k, k + 1) && t == [s[k]] }

  /** A token is a longest stretch of ASCII letters and digits, a pair of neighbouring Han characters,
      or a Han character without a Han neighbour. */
  lemma {:induction false} TokensAre(text: string, t: string)
    ensures
      var s := Lower(text);
      t in TokensOf(text) <==> WordIn(s, t) || HanPairIn(s, t) || LoneHanIn(s, t)
  {
    var s := Lower(text);
    hide Lower, Runs, IsWord, IsHan;
    if t in Runs(IsWord, s) { var i, j := RunHasPlace(IsWord, s, t); }
    if i: nat, j: nat :| IsRun(IsWord, s, i, j) && s[i..j] == t { RunIsListed(IsWord, s, i, j); }
    HanTokensAre(s, t);
  }

  lemma {:induction false} HanTokensAre(s: string, t: string)
    ensures t in AllHanTokens(Runs(IsHan, s)) <==> HanPairIn(s, t) || LoneHanIn(s, t)
  {
    AllHanTokensAre(Runs(IsHan, s), t);
    hide AllHanTokens, Runs, HanTokens, IsHan;
    if r :| r in Runs(IsHan, s) && t in HanTokens(r) { TokenHasPlace(s, r, t); }
    if k: nat :| HanPair(s, k) && PairAt(s, k) == t { PairIsListed(s, k); }
    if k: nat :| IsRun(IsHan, s, k, k + 1) && t == [s[k]] { LoneIsListed(s, k); }
  }

  lemma {:induction false} TokenHasPlace(s: string, r: string, t: string)
    requires r in Runs(IsHan, s) && t in HanTokens(r)
    ensures HanPairIn(s, t) || LoneHanIn(s, t)
  {
    hide Runs, IsHan;
    var i, j := RunHasPlace(IsHan, s, r);
    if |r| == 1 {
      assert t == [s[i]];
    } else {
      var m: nat :| m < |r| - 1 && t == PairAt(r, m);
      assert r[m] == s[i + m] && r[m + 1] == s[i + m + 1];
      assert HanPair(s, i + m) && PairAt(s, i + m) == t;
    }
  }

  lemma {:induction false} PairIsListed(s: string, k: nat)
    requires HanPair(s, k)
    ensures exists r :: r in Runs(IsHan, s) && PairAt(s, k) in HanTokens(r)
  {
    hide Runs, IsHan;
    var i, j := RunAround(IsHan, s, k);
    var r := s[i..j];
    RunIsListed(IsHan, s, i, j);
    assert PairAt(r, k - i) == PairAt(s, k);
    assert PairAt(s, k) in HanTokens(r);
  }

  lemma {:induction false} LoneIsListed(s: string, k: nat)
    requires IsRun(IsHan, s, k, k + 1)
    ensures exists r :: r in Runs(IsHan, s) && [s[k]] in HanTokens(r)
  {
    hide Runs, IsHan;
    RunIsListed(IsHan, s, k, k + 1);
    assert s[k..k + 1] == [s[k]];
    assert [s[k]] in HanTokens([s[k]]);
  }

  // ----- texts put together -----

  lemma {:induction false} RunLengthStops(p: char -> bool, a: string, b: string)
    requires b != [] && !p(b[0])
    ensures RunLength(p, a + b) == RunLength(p, a)
  {
    if a != [] && p(a[0]) {
      assert (a + b)[1..] == a[1..] + b;
      RunLengthStops(p, a[1..], b);
    }
  }

  lemma {:induction false} RunsConcat(p: char -> bool, a: string, b: string)
    requires b != [] && !p(b[0])
    ensures Runs(p, a + b) == Runs(p, a) + Runs(p, b[1..])
    decreases |a|
  {
    RunsStep(p, a);
    RunsStep(p, a + b);
    hide Runs, RunLength;
    if a == [] {
      assert a + b == b;
    } else if !p(a[0]) {
      assert (a + b)[1..] == a[1..] + b;
      RunsConcat(p, a[1..], b);
    } else {
      var n := RunLength(p, a);
      RunLengthStops(p, a, b);
      assert (a + b)[..n] == a[..n] && (a + b)[n..] == a[n..] + b;
      RunsConcat(p, a[n..], b);
      assert [a[..n]] + (Runs(p, a[n..]) + Runs(p, b[1..])) == [a[..n]] + Runs(p, a[n..]) + Runs(p, b[1..]);
    }
  }

  lemma {:induction false} HanTokensConcat(a: seq<string>, b: seq<string>)
    ensures AllHanTokens(a + b) == AllHanTokens(a) + AllHanTokens(b)
  {
    if b == [] {
      assert a + b == a;
    } else {
      assert (a + b)[..|a + b| - 1] == a + b[..|b| - 1];
      HanTokensConcat(a, b[..|b| - 1]);
    }
  }

  /** A character that is neither separates the tokens of two texts. */
  lemma {:induction false} Separated(a: string, c: char, b: string)
    requires !IsWord(LowerOf(c)) && !IsHan(LowerOf(c))
    ensures TokensOf(a + [c] + b) == TokensOf(a) + TokensOf(b)
  {
    var rest := Lower([c] + b);
    assert Lower(a + [c] + b) == Lower(a) + rest && rest[1..] == Lower(b) && rest[0] == LowerOf(c);
    hide Runs, Lower;
    RunsConcat(IsWord, Lower(a), rest);
    RunsConcat(IsHan, Lower(a), rest);
    HanTokensConcat(Runs(IsHan, Lower(a)), Runs(IsHan, Lower(b)));
  }

  lemma {:induction false} OneWord(w: string)
    requires w != [] && forall k :: 0 <= k < |w| ==> IsWord(w[k])
    ensures TokensOf(w) == {w}
  {
    assert Lower(w) == w;
    NoRuns(IsHan, w);
    assert RunLength(IsWord, w) == |w| && w[..|w|] == w && w[|w|..] == [];
    assert Runs(IsWord, w) == [w];
  }

  lemma {:induction false} NoRuns(p: char -> bool, s: string)
    requires forall k :: 0 <= k < |s| ==> !p(s[k])
    ensures Runs(p, s) == []
  {
    if s != [] { NoRuns(p, s[1..]); }
  }

  lemma {:induction false} OneHanRun(r: string)
    requires |r| > 1 && forall k :: 0 <= k < |r| ==> IsHan(r[k])
    ensures TokensOf(r) == Bigrams(r)
  {
    assert Lower(r) == r;
    NoRuns(IsWord, r);
    assert RunLength(IsHan, r) == |r| && r[..|r|] == r && r[|r|..] == [];
    assert Runs(IsHan, r) == [r] && [r][..0] == [] && AllHanTokens([r]) == {} + HanTokens(r);
    assert (set w | w in Runs(IsWord, r)) == {};
  }

  /** Case does not matter for the letters of the ASCII alphabet. */
  lemma {:induction false} CaseDoesNotMatter(a: string, b: string)
    requires |a| == |b|
    requires forall k :: 0 <= k < |a| ==> a[k] == b[k] || ('A' <= a[k] <= 'Z' && b[k] as int == a[k] as int + 32)
    ensures TokensOf(a) == TokensOf(b)
  {
    assert forall k :: 0 <= k < |a| ==> Lower(a)[k] == Lower(b)[k];
    assert Lower(a) == Lower(b);
  }
}
