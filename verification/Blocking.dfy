/** Merge suggestions: the pair score of `score_candidate_pair`, the blocking keys that decide
    which pairs are scored at all, and exactly which scored pairs the blocking loses.
    Confidences are reals; names are already normalised (stripped, case-folded). */
module Blocking {
  import opened Text
  import E = EditDistance

  // ----- words and tokens -----

  predicate IsCjk(c: char) {
    var k := c as int;
    0x4E00 <= k <= 0x9FFF || 0x3400 <= k <= 0x4DBF || 0xF900 <= k <= 0xFAFF
  }

  predicate IsLatin(c: char) { !IsSpace(c) && !IsCjk(c) }

  lemma {:induction false} CjkIsInk(c: char)
    requires IsCjk(c)
    ensures !IsSpace(c)
  {
  }

  /** `s[i..j]` is a run of non-CJK characters, as long as it can be made on both sides. */
  predicate LatinRun(s: string, i: nat, j: nat) {
    && i < j <= |s|
    && (forall k :: i <= k < j ==> IsLatin(s[k]))
    && (i == 0 || !IsLatin(s[i - 1]))
    && (j == |s| || !IsLatin(s[j]))
  }

  predicate LoneCjk(s: string, k: nat) {
    && k < |s| && IsCjk(s[k])
    && (k == 0 || !IsCjk(s[k - 1]))
    && (k + 1 == |s| || !IsCjk(s[k + 1]))
  }

  predicate CjkPair(s: string, k: nat) { k + 1 < |s| && IsCjk(s[k]) && IsCjk(s[k + 1]) }

  function LatinTokens(s: string, n: nat): set<string>
    requires n <= |s|
  {
    set i: nat, j: nat | 0 <= i < n && 0 <= j <= n && LatinRun(s, i, j) :: s[i..j]
  }

  function CjkTokens(s: string, n: nat): set<string>
    requires n <= |s|
  {
    (set k: nat | 0 <= k < n && k + 2 <= n && CjkPair(s, k) :: PairAt(s, k)) +
    (set k: nat | 0 <= k < n && LoneCjk(s, k) :: [s[k]])
  }

  /** The tokens of the runs that end within the first `n` characters. */
  function TokensTo(s: string, n: nat): set<string>
    requires n <= |s|
  {
    LatinTokens(s, n) + CjkTokens(s, n)
  }

  /** The tokens of a name: its non-CJK runs whole, its CJK runs as overlapping pairs, and a
      CJK character that stands alone as itself. */
  function Tokens(s: string): set<string> { TokensTo(s, |s|) }

  /** Tokens lie inside a word: no token holds a space. */
  lemma {:induction false} TokenPlace(s: string, t: string) returns (i: nat, j: nat)
    requires t in Tokens(s)
    ensures i < j <= |s| && t == s[i..j] && forall k :: i <= k < j ==> !IsSpace(s[k])
  {
    hide IsCjk, IsSpace;
    if t in LatinTokens(s, |s|) {
      i, j :| 0 <= i < |s| && 0 <= j <= |s| && LatinRun(s, i, j) && s[i..j] == t;
    } else {
      hide LatinTokens;
      i, j := CjkPlace(s, t);
    }
  }

  lemma {:induction false} CjkPlace(s: string, t: string) returns (i: nat, j: nat)
    requires t in CjkTokens(s, |s|)
    ensures i < j <= |s| && t == s[i..j] && forall k :: i <= k < j ==> !IsSpace(s[k])
  {
    hide IsCjk, IsSpace;
    if k: nat :| 0 <= k < |s| && k + 2 <= |s| && CjkPair(s, k) && PairAt(s, k) == t {
      i, j := k, k + 2;
      CjkIsInk(s[k]);
      CjkIsInk(s[k + 1]);
    } else {
      var k: nat :| 0 <= k < |s| && LoneCjk(s, k) && [s[k]] == t;
      i, j := k, k + 1;
      CjkIsInk(s[k]);
      assert s[k..k + 1] == [s[k]];
    }
  }

  function RunTokens(s: string, r: nat, i: nat): set<string>
    requires r < i <= |s|
  {
    if !IsCjk(s[r]) then {s[r..i]}
    else if i == r + 1 then {[s[r]]}
    else set k: nat | r <= k < i - 1 :: PairAt(s, k)
  }

  /** `s[r..i]` is one unbroken run, complete on the left. */
  predicate OpenRun(s: string, r: nat, i: nat) {
    && r < i <= |s|
    && (forall k :: r <= k < i ==> !IsSpace(s[k]) && (IsCjk(s[k]) <==> IsCjk(s[r])))
    && (r == 0 || IsSpace(s[r - 1]) || (IsCjk(s[r - 1]) <==> !IsCjk(s[r])))
  }

  predicate Ends(s: string, i: nat) {
    0 < i <= |s| && (i == |s| || IsSpace(s[i]) || (IsCjk(s[i]) <==> !IsCjk(s[i - 1])))
  }

  lemma {:induction false} CloseLatin(s: string, r: nat, i: nat)
    requires OpenRun(s, r, i) && Ends(s, i) && !IsCjk(s[r])
    ensures LatinTokens(s, i) == LatinTokens(s, r) + {s[r..i]}
    ensures CjkTokens(s, i) == CjkTokens(s, r)
  {
    assert LatinRun(s, r, i) by {
      if r > 0 && IsCjk(s[r - 1]) { CjkIsInk(s[r - 1]); }
    }
    assert forall k :: r <= k < i ==> IsLatin(s[k]) && !IsCjk(s[k]);
    assert r == 0 || !IsLatin(s[r - 1]);
    assert i == |s| || !IsLatin(s[i]);
    assert forall a: nat, b: nat :: r < b <= i && LatinRun(s, a, b) ==> a == r && b == i;
    assert forall k: nat :: k + 2 <= i && CjkPair(s, k) ==> k + 2 <= r;
  }

  lemma {:induction false} CloseCjk(s: string, r: nat, i: nat)
    requires OpenRun(s, r, i) && Ends(s, i) && IsCjk(s[r])
    ensures LatinTokens(s, i) == LatinTokens(s, r)
    ensures CjkTokens(s, i) == CjkTokens(s, r) + RunTokens(s, r, i)
  {
    assert forall a: nat, b: nat :: LatinRun(s, a, b) ==> IsLatin(s[b - 1]);
    if i < |s| && IsSpace(s[i]) && IsCjk(s[i]) { CjkIsInk(s[i]); }
    if r > 0 && IsSpace(s[r - 1]) && IsCjk(s[r - 1]) { CjkIsInk(s[r - 1]); }
    forall k: nat | k + 1 < |s| && r <= k + 1 && k + 2 <= i && CjkPair(s, k) ensures r <= k {
    }
    forall k: nat | r <= k < i - 1 ensures CjkPair(s, k) {
      assert IsCjk(s[k]) && IsCjk(s[k + 1]);
    }
    forall k: nat | r <= k < i ensures LoneCjk(s, k) <==> i == r + 1 {
      if i > r + 1 {
        if k > r { assert IsCjk(s[k - 1]); } else { assert IsCjk(s[k + 1]); }
      }
    }
    var got, want := CjkTokens(s, i), CjkTokens(s, r) + RunTokens(s, r, i);
    forall t | t in got ensures t in want {
      if k: nat :| k < i && k + 2 <= i && CjkPair(s, k) && PairAt(s, k) == t {
        if k >= r { assert i > r + 1; }
      } else {
        var k: nat :| 0 <= k < i && LoneCjk(s, k) && [s[k]] == t;
      }
    }
    forall t | t in want ensures t in got {
      if t in RunTokens(s, r, i) {
        if i == r + 1 {
          assert LoneCjk(s, r);
        } else {
          var k: nat :| r <= k < i - 1 && PairAt(s, k) == t;
          assert CjkPair(s, k);
        }
      }
    }
  }

  lemma {:induction false} CloseRun(s: string, r: nat, i: nat)
    requires OpenRun(s, r, i) && Ends(s, i)
    ensures TokensTo(s, i) == TokensTo(s, r) + RunTokens(s, r, i)
  {
    hide LatinTokens, CjkTokens;
    if IsCjk(s[r]) {
      CloseCjk(s, r, i);
    } else {
      CloseLatin(s, r, i);
      assert RunTokens(s, r, i) == {s[r..i]};
    }
  }

  lemma {:induction false} SkipSpace(s: string, i: nat)
    requires i < |s| && IsSpace(s[i])
    ensures TokensTo(s, i + 1) == TokensTo(s, i)
  {
    if IsCjk(s[i]) { CjkIsInk(s[i]); }
    forall a: nat, b: nat | b <= i + 1 && a < b && LatinRun(s, a, b) ensures b <= i {
      assert IsLatin(s[b - 1]);
    }
    assert LatinTokens(s, i + 1) == LatinTokens(s, i);
    assert CjkTokens(s, i + 1) == CjkTokens(s, i);
  }

  /** `_cjk_bigrams`, or the whole run for other scripts: what closing the run `s[r..i]` adds. */
  method AddRun(s: string, r: nat, i: nat, tokens: set<string>) returns (more: set<string>)
    requires OpenRun(s, r, i) && Ends(s, i) && tokens == TokensTo(s, r)
    ensures more == TokensTo(s, i)
  {
    CloseRun(s, r, i);
    hide TokensTo;
    var run := s[r..i];
    if !IsCjk(run[0]) {
      return tokens + {run};
    }
    if |run| == 1 {
      return tokens + {[run[0]]};
    }
    PairsOfRun(s, r, i);
    more := tokens + Bigrams(run);
  }

  lemma {:induction false} PairInside(s: string, r: nat, i: nat, k: nat)
    requires r <= k && k + 2 <= i <= |s|
    ensures PairAt(s[r..i], k - r) == PairAt(s, k)
  {
    var run := s[r..i];
    assert run[k - r] == s[k] && run[k - r + 1] == s[k + 1];
    assert PairAt(run, k - r) == [s[k], s[k + 1]] == PairAt(s, k);
  }

  lemma {:induction false} PairsOfRun(s: string, r: nat, i: nat)
    requires OpenRun(s, r, i) && IsCjk(s[r]) && i > r + 1
    ensures Bigrams(s[r..i]) == RunTokens(s, r, i)
  {
    var run := s[r..i];
    forall k: nat | r <= k < i - 1 ensures PairAt(s, k) in Bigrams(run) {
      PairInside(s, r, i, k);
    }
    forall k: nat | k < |run| - 1 ensures PairAt(run, k) in RunTokens(s, r, i) {
      PairInside(s, r, i, k + r);
    }
  }

  /** The tokens of one word: a run ends where the script changes. */
  method ReadWord(s: string, start: nat, tokens0: set<string>) returns (i: nat, tokens: set<string>)
    requires start < |s| && !IsSpace(s[start]) && (start == 0 || IsSpace(s[start - 1])) && tokens0 == TokensTo(s, start)
    ensures start < i <= |s| && (i == |s| || IsSpace(s[i])) && tokens == TokensTo(s, i)
  {
    hide TokensTo, IsSpace, IsCjk;
    var r: nat := start;
    i, tokens := start + 1, tokens0;
    while i < |s| && !IsSpace(s[i])
      invariant start < i <= |s| && OpenRun(s, r, i) && tokens == TokensTo(s, r)
    {
      if IsCjk(s[i]) != IsCjk(s[r]) {
        tokens := AddRun(s, r, i, tokens);
        r := i;
      }
      i := i + 1;
    }
    tokens := AddRun(s, r, i, tokens);
  }

  method NameTokens(s: string) returns (tokens: set<string>)
    ensures tokens == Tokens(s)
  {
    tokens := {};
    assert TokensTo(s, 0) == {};
    hide TokensTo, IsSpace, IsCjk;
    var i: nat := 0;
    while i < |s|
      invariant i <= |s| && tokens == TokensTo(s, i)
      invariant i == 0 || i == |s| || IsSpace(s[i]) || IsSpace(s[i - 1])
    {
      if IsSpace(s[i]) {
        SkipSpace(s, i);
        i := i + 1;
      } else {
        i, tokens := ReadWord(s, i, tokens);
      }
    }
  }

  // ----- blocking keys -----

  /** The name without its space characters. */
  function Compact(s: string): string {
    if s == [] then [] else (if s[0] == ' ' then [] else [s[0]]) + Compact(s[1..])
  }

  lemma {:induction false} CompactConcat(a: string, b: string)
    ensures Compact(a + b) == Compact(a) + Compact(b)
  {
    if a == [] {
      assert a + b == b;
    } else {
      assert (a + b)[1..] == a[1..] + b;
      CompactConcat(a[1..], b);
    }
  }

  lemma {:induction false} CompactIsSelf(s: string)
    ensures Compact(s) == s <==> ' ' !in s
    ensures ' ' !in Compact(s) && |Compact(s)| <= |s|
  {
    if s != [] {
      CompactIsSelf(s[1..]);
      assert s == [s[0]] + s[1..];
    }
  }

  function BlockingKeys(name: string, aliases: set<string>): set<string> {
    {Compact(name)} + Bigrams(Compact(name)) + aliases
  }

  /** Normalised names neither begin nor end with a space. */
  predicate Stripped(s: string) {
    s != [] ==> s[0] != ' ' && s[|s| - 1] != ' '
  }

  lemma {:induction false} CompactOfStripped(s: string)
    requires Stripped(s) && |s| >= 2
    ensures |Compact(s)| >= 2
  {
    var mid := s[1..|s| - 1];
    assert s == [s[0]] + (mid + [s[|s| - 1]]);
    CompactConcat([s[0]], mid + [s[|s| - 1]]);
    CompactConcat(mid, [s[|s| - 1]]);
    assert Compact([s[0]]) == [s[0]] && Compact([s[|s| - 1]]) == [s[|s| - 1]];
  }

  /** A space-free stretch of two or more characters survives compaction. */
  lemma {:induction false} StretchIsBigram(s: string, i: nat, j: nat)
    requires i + 2 <= j <= |s| && forall k :: i <= k < j ==> s[k] != ' '
    ensures s[i..i + 2] in Bigrams(Compact(s))
  {
    var t := s[i..i + 2];
    CompactIsSelf(t);
    CompactAround(s, i, i + 2);
    assert PairAt(Compact(s), |Compact(s[..i])|) == t;
  }

  lemma {:induction false} Middle(x: string, t: string, y: string)
    ensures (x + (t + y))[|x|..|x| + |t|] == t
  {
  }

  /** A part of a name compacts to a part of the compact name. */
  lemma {:induction false} CompactAround(s: string, i: nat, j: nat)
    requires i <= j <= |s|
    ensures PartAt(Compact(s[i..j]), Compact(s), |Compact(s[..i])|)
  {
    var t := s[i..j];
    assert s == s[..i] + (t + s[j..]);
    CompactConcat(s[..i], t + s[j..]);
    CompactConcat(t, s[j..]);
    Middle(Compact(s[..i]), Compact(t), Compact(s[j..]));
  }

  // ----- signals and scores -----

  predicate IsPart(t: string, s: string) {
    exists k: nat :: k <= |s| && PartAt(t, s, k)
  }

  predicate PartAt(t: string, s: string, k: nat) {
    k + |t| <= |s| && s[k..k + |t|] == t
  }

  predicate SubstringFires(a: string, b: string) {
    var (short, long) := if |a| <= |b| then (a, b) else (b, a);
    |short| >= 2 && short != long && IsPart(short, long)
  }

  function SubstringScore(a: string, b: string): real
    requires SubstringFires(a, b)
  {
    0.6 + 0.25 * (Min(|a|, |b|) as real / Max(|a|, |b|) as real)
  }

  /** The Dice coefficient of two token sets, not both empty. */
  function Dice(ta: set<string>, tb: set<string>): real
    requires ta != {} && tb != {}
  {
    (2 * |ta * tb|) as real / (|ta| + |tb|) as real
  }

  predicate TokensFire(ta: set<string>, tb: set<string>) {
    ta != {} && tb != {} && Dice(ta, tb) >= 0.5
  }

  function TokenScore(ta: set<string>, tb: set<string>): real
    requires TokensFire(ta, tb)
  {
    0.6 + 0.28 * (Dice(ta, tb) - 0.5) / 0.5
  }

  predicate LatinOnly(s: string) { forall k :: 0 <= k < |s| ==> !IsCjk(s[k]) }

  function Closeness(d: nat, n: nat): real
    requires n > 0
  {
    1.0 - d as real / n as real
  }

  function Similarity(a: string, b: string): real
    requires Max(|a|, |b|) > 0
  {
    Closeness(E.Dist(a, b), Max(|a|, |b|))
  }

  predicate EditFires(a: string, b: string) {
    LatinOnly(a + b) && Min(|a|, |b|) >= 4 && Similarity(a, b) >= 0.8
  }

  function EditScore(a: string, b: string): real
    requires EditFires(a, b)
  {
    0.6 + 0.28 * (Similarity(a, b) - 0.8) / 0.2
  }

  /** The best signal the two names give, 0 if none. */
  function NameScore(a: string, b: string): real {
    var s := if SubstringFires(a, b) then SubstringScore(a, b) else 0.0;
    var t := if TokensFire(Tokens(a), Tokens(b)) then TokenScore(Tokens(a), Tokens(b)) else 0.0;
    var e := if EditFires(Compact(a), Compact(b)) then EditScore(Compact(a), Compact(b)) else 0.0;
    MaxR(MaxR(s, t), e)
  }

  predicate AliasFires(a: string, b: string, aliasesA: set<string>, aliasesB: set<string>) {
    a in aliasesB || b in aliasesA
  }

  function PairScore(a: string, b: string, aliasesA: set<string>, aliasesB: set<string>): real {
    var m := if a == b then 0.98 else 0.0;
    var s := if aliasesA * aliasesB != {} then 0.95 else 0.0;
    var c := if AliasFires(a, b, aliasesA, aliasesB) then 0.92 else 0.0;
    MaxR(MaxR(MaxR(m, s), c), NameScore(a, b))
  }

  datatype Reason = NameMatch | SharedAlias | CanonicalIsAlias | NameSubstring | TokenOverlap | EditClose

  function ReasonFor(fires: bool, r: Reason): seq<Reason> { if fires then [r] else [] }

  /** The reasons, in the order in which the code looks for them. An alias hit is not
      reported beside an exact name match. */
  function Reasons(a: string, b: string, aliasesA: set<string>, aliasesB: set<string>): seq<Reason> {
    ReasonFor(a == b, NameMatch) + ReasonFor(aliasesA * aliasesB != {}, SharedAlias) +
    ReasonFor(a != b && AliasFires(a, b, aliasesA, aliasesB), CanonicalIsAlias) + NameReasons(a, b)
  }

  function NameReasons(a: string, b: string): seq<Reason> {
    ReasonFor(SubstringFires(a, b), NameSubstring) +
    ReasonFor(TokensFire(Tokens(a), Tokens(b)), TokenOverlap) +
    ReasonFor(EditFires(Compact(a), Compact(b)), EditClose)
  }

  lemma {:induction false} RatioAtMostOne(x: nat, y: nat)
    requires 0 < y && x <= y
    ensures 0.0 <= x as real / y as real <= 1.0
  {
    assert x as real == (x as real / y as real) * y as real;
    if x as real / y as real > 1.0 {
      assert (x as real / y as real) * y as real > y as real;
    }
  }

  lemma {:induction false} DiceFacts(ta: set<string>, tb: set<string>)
    requires ta != {} && tb != {}
    ensures 0.0 <= Dice(ta, tb) <= 1.0 && Dice(ta, tb) == Dice(tb, ta)
  {
    assert ta * tb == tb * ta;
    Subset(ta * tb, ta);
    Subset(ta * tb, tb);
    var common, all := 2 * |ta * tb|, |ta| + |tb|;
    assert Dice(ta, tb) == common as real / all as real == Dice(tb, ta);
    hide Dice;
    RatioAtMostOne(common, all);
  }

  lemma {:induction false} ProductsCompare(x: real, y: real, m: real)
    requires m > 0.0
    ensures x < y <==> x * m < y * m
    ensures x == y <==> x * m == y * m
  {
    if x < y {
      assert (y - x) * m > 0.0;
    } else if y < x {
      assert (x - y) * m > 0.0;
    }
  }

  lemma {:induction false} ClosenessTimes(d: nat, n: nat)
    requires 0 < n && d <= n
    ensures (1.0 - Closeness(d, n)) * n as real == d as real
  {
    var q := d as real / n as real;
    assert q * n as real == d as real;
    assert 1.0 - Closeness(d, n) == q;
  }

  lemma {:induction false} ClosenessRange(d: nat, n: nat)
    requires 0 < n && d <= n
    ensures 0.0 <= Closeness(d, n) <= 1.0
    ensures Closeness(d, n) == 1.0 <==> d == 0
  {
    var x, m := 1.0 - Closeness(d, n), n as real;
    ClosenessTimes(d, n);
    hide Closeness;
    ProductsCompare(x, 0.0, m);
    ProductsCompare(1.0, x, m);
    assert 0.0 * m == 0.0 && 1.0 * m == m;
  }

  lemma {:induction false} ClosenessThreshold(d: nat, n: nat)
    requires 0 < n && d <= n
    ensures Closeness(d, n) >= 0.8 <==> 5 * d <= n
  {
    var x, m := 1.0 - Closeness(d, n), n as real;
    ClosenessTimes(d, n);
    hide Closeness;
    ProductsCompare(0.2, x, m);
    assert 0.2 * m < d as real <==> n < 5 * d;
  }

  lemma {:induction false} SimilarityFacts(a: string, b: string)
    requires Max(|a|, |b|) > 0
    ensures 0.0 <= Similarity(a, b) <= 1.0 && Similarity(a, b) == Similarity(b, a)
    ensures Similarity(a, b) == 1.0 <==> a == b
    ensures Similarity(a, b) >= 0.8 <==> 5 * E.Dist(a, b) <= Max(|a|, |b|)
  {
    hide E.Dist, Closeness;
    E.DistIsMetric(a, b, b);
    var d, n := E.Dist(a, b), Max(|a|, |b|);
    assert E.Dist(b, a) == d && Max(|b|, |a|) == n;
    ClosenessRange(d, n);
    ClosenessThreshold(d, n);
  }

  /** Token and edit scores rise with their measure, from 0.6 at the threshold to 0.88 for a
      perfect match; a substring scores more the more of the longer name it is. */
  lemma {:induction false} ScoresAreScales(a: string, b: string, c: string, d: string)
    ensures SubstringFires(a, b) && SubstringFires(c, d) && Max(|a|, |b|) == Max(|c|, |d|) ==>
      (SubstringScore(a, b) < SubstringScore(c, d) <==> Min(|a|, |b|) < Min(|c|, |d|))
    ensures TokensFire(Tokens(a), Tokens(b)) && TokensFire(Tokens(c), Tokens(d)) ==>
      (TokenScore(Tokens(a), Tokens(b)) < TokenScore(Tokens(c), Tokens(d)) <==>
        Dice(Tokens(a), Tokens(b)) < Dice(Tokens(c), Tokens(d)))
    ensures EditFires(a, b) && EditFires(c, d) ==>
      (EditScore(a, b) < EditScore(c, d) <==> Similarity(a, b) < Similarity(c, d))
    ensures EditFires(a, b) ==> (EditScore(a, b) == 0.88 <==> a == b)
    ensures EditFires(a, b) ==> (EditScore(a, b) == 0.6 <==> 5 * E.Dist(a, b) == Max(|a|, |b|))
  {
    hide Tokens, Dice, E.Dist, Closeness, IsPart, LatinOnly;
    if SubstringFires(a, b) && SubstringFires(c, d) && Max(|a|, |b|) == Max(|c|, |d|) {
      FractionsCompare(Min(|a|, |b|), Min(|c|, |d|), Max(|a|, |b|));
    }
    if EditFires(a, b) {
      SimilarityFacts(a, b);
      ClosenessAtThreshold(E.Dist(a, b), Max(|a|, |b|));
    }
  }

  lemma {:induction false} FractionsCompare(x: nat, y: nat, n: nat)
    requires n > 0
    ensures x as real / n as real < y as real / n as real <==> x < y
  {
    var p, q, m := x as real / n as real, y as real / n as real, n as real;
    assert p * m == x as real && q * m == y as real;
    ProductsCompare(p, q, m);
  }

  lemma {:induction false} ClosenessAtThreshold(d: nat, n: nat)
    requires n > 0
    ensures Closeness(d, n) == 0.8 <==> 5 * d == n
  {
    var q := d as real / n as real;
    assert q * n as real == d as real;
    ProductsCompare(q, 0.2, n as real);
  }

  /** Scores are 0 or between 0.6 and 0.98, and do not depend on the order of the pair. */
  lemma {:induction false} NameScoreFacts(a: string, b: string)
    ensures NameScore(a, b) == NameScore(b, a)
    ensures NameScore(a, b) == 0.0 || 0.6 <= NameScore(a, b) <= 0.88
    ensures NameScore(a, b) == 0.0 <==>
      !SubstringFires(a, b) && !TokensFire(Tokens(a), Tokens(b)) && !EditFires(Compact(a), Compact(b))
  {
    hide Tokens, Compact, E.Dist;
    var ta, tb, ca, cb := Tokens(a), Tokens(b), Compact(a), Compact(b);
    SubstringFacts(a, b);
    if ta != {} && tb != {} { DiceFacts(ta, tb); }
    assert LatinOnly(ca + cb) == LatinOnly(cb + ca) by { LatinBoth(ca, cb); LatinBoth(cb, ca); }
    if Max(|ca|, |cb|) > 0 { SimilarityFacts(ca, cb); }
    hide LatinOnly, IsPart, Dice, Similarity, SubstringFires, SubstringScore;
  }

  lemma {:induction false} LatinBoth(a: string, b: string)
    ensures LatinOnly(a + b) <==> LatinOnly(a) && LatinOnly(b)
  {
    if LatinOnly(a + b) {
      forall k | 0 <= k < |a| ensures !IsCjk(a[k]) { assert (a + b)[k] == a[k]; }
      forall k | 0 <= k < |b| ensures !IsCjk(b[k]) { assert (a + b)[|a| + k] == b[k]; }
    }
  }

  lemma {:induction false} SubstringFacts(a: string, b: string)
    ensures SubstringFires(a, b) == SubstringFires(b, a)
    ensures SubstringFires(a, b) ==> SubstringScore(a, b) == SubstringScore(b, a)
    ensures SubstringFires(a, b) ==> 0.6 <= SubstringScore(a, b) <= 0.85
  {
    if |a| == |b| {
      if k: nat :| PartAt(a, b, k) { assert k == 0 && b[..|b|] == b; }
      if k: nat :| PartAt(b, a, k) { assert k == 0 && a[..|a|] == a; }
    }
    if SubstringFires(a, b) {
      RatioAtMostOne(Min(|a|, |b|), Max(|a|, |b|));
    }
  }

  lemma {:induction false} PairScoreFacts(a: string, b: string, aliasesA: set<string>, aliasesB: set<string>)
    ensures PairScore(a, b, aliasesA, aliasesB) == PairScore(b, a, aliasesB, aliasesA)
    ensures PairScore(a, b, aliasesA, aliasesB) == 0.0 || 0.6 <= PairScore(a, b, aliasesA, aliasesB) <= 0.98
    ensures PairScore(a, b, aliasesA, aliasesB) == 0.98 <==> a == b
    ensures PairScore(a, b, aliasesA, aliasesB) >= 0.9 <==>
      a == b || aliasesA * aliasesB != {} || AliasFires(a, b, aliasesA, aliasesB)
    ensures PairScore(a, b, aliasesA, aliasesB) == 0.0 <==> Reasons(a, b, aliasesA, aliasesB) == []
  {
    NameScoreFacts(a, b);
    hide NameScore, Tokens, Compact, SubstringFires, EditFires, TokensFire;
    assert aliasesA * aliasesB == aliasesB * aliasesA;
    assert NameReasons(a, b) == [] <==> NameScore(a, b) == 0.0;
  }

  /** The scores of the name signals that fire. */
  predicate IsSignal(a: string, b: string, x: real) {
    || (SubstringFires(a, b) && x == SubstringScore(a, b))
    || (TokensFire(Tokens(a), Tokens(b)) && x == TokenScore(Tokens(a), Tokens(b)))
    || (EditFires(Compact(a), Compact(b)) && x == EditScore(Compact(a), Compact(b)))
  }

  /** The name score is the largest signal that fires, and 0 if none does. */
  lemma {:induction false} NameScoreIsBest(a: string, b: string)
    ensures forall x :: IsSignal(a, b, x) ==> x <= NameScore(a, b)
    ensures IsSignal(a, b, NameScore(a, b)) || (NameScore(a, b) == 0.0 && forall x :: !IsSignal(a, b, x))
  {
    NameScoreFacts(a, b);
    hide Tokens, Compact, SubstringFires, TokensFire, EditFires, SubstringScore, TokenScore, EditScore;
  }

  lemma {:induction false} SubstringIsLinear(a: string, b: string)
    requires SubstringFires(a, b)
    ensures (SubstringScore(a, b) - 0.6) * Max(|a|, |b|) as real == 0.25 * Min(|a|, |b|) as real
  {
    hide IsPart;
    PartOf(Min(|a|, |b|), Max(|a|, |b|), 0.25);
  }

  lemma {:induction false} TokensAreLinear(ta: set<string>, tb: set<string>)
    requires TokensFire(ta, tb)
    ensures (TokenScore(ta, tb) - 0.32) * (|ta| + |tb|) as real == 1.12 * |ta * tb| as real
  {
    var common, all := 2 * |ta * tb|, |ta| + |tb|;
    PartOf(common, all, 0.56);
    assert TokenScore(ta, tb) - 0.32 == 0.56 * (common as real / all as real);
  }

  lemma {:induction false} EditIsLinear(a: string, b: string)
    requires EditFires(a, b)
    ensures (2.0 - EditScore(a, b) - 1.12) * Max(|a|, |b|) as real == 1.4 * E.Dist(a, b) as real
  {
    hide LatinOnly, E.Dist;
    SimilarityFacts(a, b);
    PartOf(E.Dist(a, b), Max(|a|, |b|), 1.4);
    assert 2.0 - EditScore(a, b) - 1.12 == 1.4 * (E.Dist(a, b) as real / Max(|a|, |b|) as real);
  }

  /** Each signal rises in proportion to its evidence: the shorter part of the longer name, twice the
      common tokens in all tokens, and what the edit distance leaves of the longer name. */
  lemma {:induction false} SignalsAreLinear(a: string, b: string)
    ensures SubstringFires(a, b) ==>
      (SubstringScore(a, b) - 0.6) * Max(|a|, |b|) as real == 0.25 * Min(|a|, |b|) as real
    ensures TokensFire(Tokens(a), Tokens(b)) ==>
      var ta, tb := Tokens(a), Tokens(b);
      (TokenScore(ta, tb) - 0.32) * (|ta| + |tb|) as real == 1.12 * |ta * tb| as real
    ensures EditFires(a, b) ==>
      (2.0 - EditScore(a, b) - 1.12) * Max(|a|, |b|) as real == 1.4 * E.Dist(a, b) as real
  {
    hide *;
    if SubstringFires(a, b) { SubstringIsLinear(a, b); }
    if TokensFire(Tokens(a), Tokens(b)) { TokensAreLinear(Tokens(a), Tokens(b)); }
    if EditFires(a, b) { EditIsLinear(a, b); }
  }

  lemma {:induction false} PartOf(x: nat, n: nat, c: real)
    requires n > 0
    ensures (c * (x as real / n as real)) * n as real == c * x as real
  {
    var q := x as real / n as real;
    assert q * n as real == x as real;
  }

  /** Close spelling, in whole numbers: at least four characters each, no CJK, and at most a fifth of
      the longer one to edit. */
  lemma {:induction false} EditFiresIff(a: string, b: string)
    ensures EditFires(a, b) <==>
      && (forall c :: c in a || c in b ==> !IsCjk(c)) && |a| >= 4 && |b| >= 4
      && 5 * E.Dist(a, b) <= Max(|a|, |b|)
  {
    hide E.Dist;
    LatinBoth(a, b);
    assert LatinOnly(a) <==> forall c :: c in a ==> !IsCjk(c);
    assert LatinOnly(b) <==> forall c :: c in b ==> !IsCjk(c);
    if Max(|a|, |b|) > 0 { SimilarityFacts(a, b); }
    hide LatinOnly, IsCjk, Similarity;
  }

  /** A name of two characters or more inside the other one. */
  lemma {:induction false} SubstringFiresIff(a: string, b: string)
    ensures SubstringFires(a, b) <==> a != b && |a| >= 2 && |b| >= 2 && (IsPart(a, b) || IsPart(b, a))
  {
    if IsPart(a, b) { PartIsShorter(a, b); }
    if IsPart(b, a) { PartIsShorter(b, a); }
    hide IsPart;
  }

  /** The common tokens are at least a quarter of the tokens of both names together. */
  lemma {:induction false} TokensFireIff(ta: set<string>, tb: set<string>)
    ensures TokensFire(ta, tb) <==> ta != {} && tb != {} && |ta| + |tb| <= 4 * |ta * tb|
  {
    if ta != {} && tb != {} { HalfOf(2 * |ta * tb|, |ta| + |tb|); }
  }

  lemma {:induction false} HalfOf(x: nat, n: nat)
    requires n > 0
    ensures x as real / n as real >= 0.5 <==> n <= 2 * x
  {
    var q := x as real / n as real;
    assert q * n as real == x as real;
    if q >= 0.5 { assert q * n as real >= 0.5 * n as real; } else { assert q * n as real < 0.5 * n as real; }
  }

  lemma {:induction false} PartIsShorter(t: string, s: string)
    requires IsPart(t, s)
    ensures |t| <= |s| && (|t| == |s| ==> t == s)
  {
    var k: nat :| k <= |s| && PartAt(t, s, k);
    assert |t| == |s| ==> s[0..|s|] == s;
  }

  /** The score of a pair, level by level. */
  lemma {:induction false} PairScoreIs(a: string, b: string, aliasesA: set<string>, aliasesB: set<string>)
    ensures PairScore(a, b, aliasesA, aliasesB) ==
      if a == b then 0.98
      else if aliasesA * aliasesB != {} then 0.95
      else if a in aliasesB || b in aliasesA then 0.92
      else NameScore(a, b)
  {
    NameScoreFacts(a, b);
    hide NameScore, Tokens, Compact, SubstringFires, EditFires, TokensFire;
  }

  /** What a reason says. */
  predicate Holds(r: Reason, a: string, b: string, aliasesA: set<string>, aliasesB: set<string>) {
    match r
    case NameMatch => a == b
    case SharedAlias => aliasesA * aliasesB != {}
    case CanonicalIsAlias => a != b && (a in aliasesB || b in aliasesA)
    case NameSubstring => SubstringFires(a, b)
    case TokenOverlap => TokensFire(Tokens(a), Tokens(b))
    case EditClose => EditFires(Compact(a), Compact(b))
  }

  function Place(r: Reason): nat {
    match r
    case NameMatch => 0
    case SharedAlias => 1
    case CanonicalIsAlias => 2
    case NameSubstring => 3
    case TokenOverlap => 4
    case EditClose => 5
  }

  predicate Rising(rs: seq<Reason>, n: nat) {
    (forall i, j :: 0 <= i < j < |rs| ==> Place(rs[i]) < Place(rs[j])) && forall i :: 0 <= i < |rs| ==> Place(rs[i]) < n
  }

  lemma {:induction false} OneReasonMore(rs: seq<Reason>, fires: bool, r: Reason)
    requires Rising(rs, Place(r))
    ensures Rising(rs + ReasonFor(fires, r), Place(r) + 1)
    ensures forall x :: x in rs + ReasonFor(fires, r) <==> x in rs || (fires && x == r)
  {
    hide Place;
  }

  lemma {:induction false} NameReasonsAfter(rs: seq<Reason>, a: string, b: string)
    requires Rising(rs, Place(NameSubstring))
    ensures Rising(rs + NameReasons(a, b), Place(EditClose) + 1)
    ensures forall r :: r in rs + NameReasons(a, b) <==>
      r in rs || (SubstringFires(a, b) && r == NameSubstring) ||
        (TokensFire(Tokens(a), Tokens(b)) && r == TokenOverlap) ||
        (EditFires(Compact(a), Compact(b)) && r == EditClose)
  {
    hide Tokens, Compact, SubstringFires, TokensFire, EditFires, ReasonFor, Rising;
    var substring := ReasonFor(SubstringFires(a, b), NameSubstring);
    var tokens := ReasonFor(TokensFire(Tokens(a), Tokens(b)), TokenOverlap);
    var edit := ReasonFor(EditFires(Compact(a), Compact(b)), EditClose);
    OneReasonMore(rs, SubstringFires(a, b), NameSubstring);
    OneReasonMore(rs + substring, TokensFire(Tokens(a), Tokens(b)), TokenOverlap);
    OneReasonMore(rs + substring + tokens, EditFires(Compact(a), Compact(b)), EditClose);
    Assoc(rs, substring, tokens);
    Assoc(rs, substring + tokens, edit);
  }

  /** The reasons given are exactly those that hold, strongest kind first. */
  lemma {:induction false} ReasonsAre(a: string, b: string, aliasesA: set<string>, aliasesB: set<string>)
    ensures forall r :: r in Reasons(a, b, aliasesA, aliasesB) <==> Holds(r, a, b, aliasesA, aliasesB)
    ensures
      var rs := Reasons(a, b, aliasesA, aliasesB);
      forall i, j :: 0 <= i < j < |rs| ==> Place(rs[i]) < Place(rs[j])
  {
    hide Tokens, Compact, SubstringFires, TokensFire, EditFires, ReasonFor, NameReasons;
    var same, shared := ReasonFor(a == b, NameMatch), ReasonFor(aliasesA * aliasesB != {}, SharedAlias);
    var alias := ReasonFor(a != b && AliasFires(a, b, aliasesA, aliasesB), CanonicalIsAlias);
    OneReasonMore([], a == b, NameMatch);
    assert [] + same == same;
    OneReasonMore(same, aliasesA * aliasesB != {}, SharedAlias);
    OneReasonMore(same + shared, a != b && AliasFires(a, b, aliasesA, aliasesB), CanonicalIsAlias);
    NameReasonsAfter(same + shared + alias, a, b);
    assert Reasons(a, b, aliasesA, aliasesB) == same + shared + alias + NameReasons(a, b);
  }

  method AddSubstring(a: string, b: string) returns (score: real, reasons: seq<Reason>)
    ensures score == if SubstringFires(a, b) then SubstringScore(a, b) else 0.0
    ensures reasons == ReasonFor(SubstringFires(a, b), NameSubstring)
  {
    SubstringFacts(a, b);
    score, reasons := 0.0, [];
    var short, long := a, b;
    if |b| < |a| {
      short, long := b, a;
    }
    if |short| >= 2 && short != long && IsPart(short, long) {
      score := MaxR(score, 0.6 + 0.25 * (|short| as real / |long| as real));
      reasons := reasons + [NameSubstring];
    }
  }

  method AddTokens(a: string, b: string, score0: real, reasons0: seq<Reason>)
    returns (score: real, reasons: seq<Reason>)
    requires score0 >= 0.0
    ensures score == MaxR(score0, if TokensFire(Tokens(a), Tokens(b)) then TokenScore(Tokens(a), Tokens(b)) else 0.0)
    ensures reasons == reasons0 + ReasonFor(TokensFire(Tokens(a), Tokens(b)), TokenOverlap)
  {
    score, reasons := score0, reasons0;
    var ta := NameTokens(a);
    var tb := NameTokens(b);
    hide Tokens;
    if ta != {} && tb != {} {
      var overlap := |ta * tb|;
      var dice := (2 * overlap) as real / (|ta| + |tb|) as real;
      if dice >= 0.5 {
        score := MaxR(score, 0.6 + 0.28 * (dice - 0.5) / 0.5);
        reasons := reasons + [TokenOverlap];
      }
    }
  }

  method AddEdit(a: string, b: string, score0: real, reasons0: seq<Reason>) returns (score: real, reasons: seq<Reason>)
    requires score0 >= 0.0
    ensures score == MaxR(score0, if EditFires(Compact(a), Compact(b)) then EditScore(Compact(a), Compact(b)) else 0.0)
    ensures reasons == reasons0 + ReasonFor(EditFires(Compact(a), Compact(b)), EditClose)
  {
    score, reasons := score0, reasons0;
    var ca, cb := Compact(a), Compact(b);
    hide Compact, E.Dist, LatinOnly;
    if LatinOnly(ca + cb) && Min(|ca|, |cb|) >= 4 {
      var d := E.Levenshtein(ca, cb);
      var similarity := Closeness(d, Max(|ca|, |cb|));
      if similarity >= 0.8 {
        score := MaxR(score, 0.6 + 0.28 * (similarity - 0.8) / 0.2);
        reasons := reasons + [EditClose];
      }
    }
  }

  /** The three middle signals in the code's order, each raising the running score. */
  method ScoreNamePair(a: string, b: string) returns (score: real, reasons: seq<Reason>)
    ensures score == NameScore(a, b) && reasons == NameReasons(a, b)
  {
    SubstringFacts(a, b);
    hide Compact, Tokens, SubstringFires, TokensFire, EditFires, SubstringScore, TokenScore, EditScore;
    score, reasons := AddSubstring(a, b);
    score, reasons := AddTokens(a, b, score, reasons);
    score, reasons := AddEdit(a, b, score, reasons);
  }

  method ScoreCandidatePair(a: string, b: string, aliasesA: set<string>, aliasesB: set<string>)
    returns (score: real, reasons: seq<Reason>)
    ensures score == PairScore(a, b, aliasesA, aliasesB)
    ensures reasons == Reasons(a, b, aliasesA, aliasesB)
  {
    hide NameScore, NameReasons, E.Dist, Tokens, Compact, SubstringFires, TokensFire, EditFires;
    score, reasons := 0.0, [];
    if a == b {
      score := 0.98;
      reasons := [NameMatch];
    }
    if aliasesA * aliasesB != {} {
      score := MaxR(score, 0.95);
      reasons := reasons + [SharedAlias];
    }
    if a in aliasesB || b in aliasesA {
      score := MaxR(score, 0.92);
      if NameMatch !in reasons {
        reasons := reasons + [CanonicalIsAlias];
      }
    }
    var nameScore, nameReasons := ScoreNamePair(a, b);
    NameScoreFacts(a, b);
    score := MaxR(score, nameScore);
    reasons := reasons + nameReasons;
  }

  // ----- what the blocking keeps -----

  predicate ShareKey(a: string, b: string, aliasesA: set<string>, aliasesB: set<string>) {
    BlockingKeys(a, aliasesA) * BlockingKeys(b, aliasesB) != {}
  }

  lemma {:induction false} CommonKey(key: string, a: string, b: string, aliasesA: set<string>, aliasesB: set<string>)
    requires key in BlockingKeys(a, aliasesA) && key in BlockingKeys(b, aliasesB)
    ensures ShareKey(a, b, aliasesA, aliasesB)
  {
    assert key in BlockingKeys(a, aliasesA) * BlockingKeys(b, aliasesB);
  }

  lemma {:induction false} ShareKeySymmetric(a: string, b: string, aliasesA: set<string>, aliasesB: set<string>)
    ensures ShareKey(a, b, aliasesA, aliasesB) == ShareKey(b, a, aliasesB, aliasesA)
  {
    var x, y := BlockingKeys(a, aliasesA), BlockingKeys(b, aliasesB);
    assert x * y == y * x;
  }

  lemma {:induction false} SubstringSharesKey(a: string, b: string, aliasesA: set<string>, aliasesB: set<string>)
    requires SubstringFires(a, b) && |Compact(a)| >= 2 && |Compact(b)| >= 2
    ensures ShareKey(a, b, aliasesA, aliasesB)
  {
    var short, long := a, b;
    if |b| < |a| { short, long := b, a; }
    assert IsPart(short, long);
    var k: nat :| k <= |long| && PartAt(short, long, k);
    CompactAround(long, k, k + |short|);
    var p := |Compact(long[..k])|;
    var c, d := Compact(short), Compact(long);
    hide Compact, IsPart, SubstringFires, ShareKey, BlockingKeys;
    var key := PairAt(c, 0);
    assert key in Bigrams(c);
    assert PairAt(d, p) == key by {
      assert d[p] == d[p..p + |c|][0] && d[p + 1] == d[p..p + |c|][1];
    }
    assert key in Bigrams(d);
    CommonKey(key, a, b, aliasesA, aliasesB);
  }

  lemma {:induction false} EditSharesKey(a: string, b: string, aliasesA: set<string>, aliasesB: set<string>)
    requires EditFires(Compact(a), Compact(b))
    ensures ShareKey(a, b, aliasesA, aliasesB)
  {
    var c, d := Compact(a), Compact(b);
    hide Compact, E.Dist;
    SimilarityFacts(c, d);
    E.CloseNamesShareBigram(c, d);
    var p, q :| 0 <= p < |c| - 1 && 0 <= q < |d| - 1 && c[p] == d[q] && c[p + 1] == d[q + 1];
    assert PairAt(c, p) == PairAt(d, q);
    assert PairAt(c, p) in Bigrams(c) && PairAt(d, q) in Bigrams(d);
    CommonKey(PairAt(c, p), a, b, aliasesA, aliasesB);
  }

  lemma {:induction false} LongTokenSharesKey(t: string, a: string, b: string, aliasesA: set<string>,
          aliasesB: set<string>)
    requires t in Tokens(a) && t in Tokens(b) && |t| >= 2
    ensures ShareKey(a, b, aliasesA, aliasesB)
  {
    hide Tokens;
    var i, j := TokenPlace(a, t);
    var k, m := TokenPlace(b, t);
    assert IsSpace(' ');
    StretchIsBigram(a, i, j);
    StretchIsBigram(b, k, m);
    assert a[i..i + 2] == t[..2] == b[k..k + 2] by {
      assert a[i..j][..2] == a[i..i + 2] && b[k..m][..2] == b[k..k + 2];
    }
    CommonKey(t[..2], a, b, aliasesA, aliasesB);
  }

  lemma {:induction false} PlainAliasSharesKey(a: string, b: string, aliasesA: set<string>, aliasesB: set<string>)
    requires a in aliasesB && ' ' !in a
    ensures ShareKey(a, b, aliasesA, aliasesB)
  {
    CompactIsSelf(a);
    CommonKey(a, a, b, aliasesA, aliasesB);
  }

  /** The blocking loses a pair worth suggesting only if all its evidence is of two kinds: a
      name with a space in it that is an alias of the other, or common tokens of a single
      character. Equal names, shared aliases and close spellings are never lost, nor are
      substrings of two characters that are not spaces, as in every normalised name. */
  lemma {:induction false} BlockingLosesOnly(a: string, b: string, aliasesA: set<string>, aliasesB: set<string>)
    requires !ShareKey(a, b, aliasesA, aliasesB)
    ensures a != b && aliasesA * aliasesB == {} && !EditFires(Compact(a), Compact(b))
    ensures SubstringFires(a, b) ==> |Compact(a)| < 2 || |Compact(b)| < 2
    ensures (a in aliasesB ==> ' ' in a) && (b in aliasesA ==> ' ' in b)
    ensures forall t :: t in Tokens(a) * Tokens(b) ==> |t| == 1
    ensures PairScore(a, b, aliasesA, aliasesB) < 0.6 <==>
      !AliasFires(a, b, aliasesA, aliasesB) && !TokensFire(Tokens(a), Tokens(b)) && !SubstringFires(a, b)
    ensures Stripped(a) && Stripped(b) ==> !SubstringFires(a, b)
  {
    hide ShareKey, EditFires, TokensFire, PairScore;
    if a == b { CommonKey(Compact(a), a, b, aliasesA, aliasesB); }
    if t :| t in aliasesA * aliasesB { CommonKey(t, a, b, aliasesA, aliasesB); }
    if SubstringFires(a, b) && |Compact(a)| >= 2 && |Compact(b)| >= 2 { SubstringSharesKey(a, b, aliasesA, aliasesB); }
    if Stripped(a) && |a| >= 2 { CompactOfStripped(a); }
    if Stripped(b) && |b| >= 2 { CompactOfStripped(b); }
    if EditFires(Compact(a), Compact(b)) { EditSharesKey(a, b, aliasesA, aliasesB); }
    if a in aliasesB && ' ' !in a { PlainAliasSharesKey(a, b, aliasesA, aliasesB); }
    ShareKeySymmetric(a, b, aliasesA, aliasesB);
    if b in aliasesA && ' ' !in b { PlainAliasSharesKey(b, a, aliasesB, aliasesA); }
    forall t | t in Tokens(a) * Tokens(b) ensures |t| == 1 {
      var i, j := TokenPlace(a, t);
      if |t| >= 2 { LongTokenSharesKey(t, a, b, aliasesA, aliasesB); }
    }
    EvidenceLeft(a, b, aliasesA, aliasesB);
  }

  lemma {:induction false} EvidenceLeft(a: string, b: string, aliasesA: set<string>, aliasesB: set<string>)
    requires a != b && aliasesA * aliasesB == {} && !EditFires(Compact(a), Compact(b))
    ensures PairScore(a, b, aliasesA, aliasesB) < 0.6 <==>
      !AliasFires(a, b, aliasesA, aliasesB) && !TokensFire(Tokens(a), Tokens(b)) && !SubstringFires(a, b)
  {
    hide Tokens, Compact, SubstringFires, EditFires, TokensFire, NameScore;
    NameScoreFacts(a, b);
  }

  /** An entity that was not merged away has its own name among its aliases. */
  predicate Live(name: string, aliases: set<string>) { name in aliases }

  /** Between live entities no alias hit is lost: single-character tokens are all that is. */
  lemma {:induction false} LiveLosesOnly(a: string, b: string, aliasesA: set<string>, aliasesB: set<string>)
    requires Live(a, aliasesA) && Live(b, aliasesB) && Stripped(a) && Stripped(b)
    requires !ShareKey(a, b, aliasesA, aliasesB)
    ensures a != b && !AliasFires(a, b, aliasesA, aliasesB) && !EditFires(Compact(a), Compact(b)) &&
      !SubstringFires(a, b)
    ensures forall t :: t in Tokens(a) * Tokens(b) ==> |t| == 1
    ensures PairScore(a, b, aliasesA, aliasesB) < 0.6 <==> !TokensFire(Tokens(a), Tokens(b))
  {
    hide ShareKey, EditFires, SubstringFires, TokensFire, Tokens, Compact, PairScore;
    BlockingLosesOnly(a, b, aliasesA, aliasesB);
    assert a !in aliasesA * aliasesB && b !in aliasesA * aliasesB;
  }

  /** The row of an entity that was merged away stays, without aliases. If its name has a space
      and the survivor got it as an alias, the pair is lost. */
  lemma {:induction false} SpacedAliasIsLost(a: string)
    requires Stripped(a) && ' ' in a
    ensures Live("x", {"x", a})
    ensures PairScore(a, "x", {}, {"x", a}) >= 0.92 && !ShareKey(a, "x", {}, {"x", a})
  {
    hide PairScore, ShareKey;
    AliasScore(a, "x", {}, {"x", a});
    SpacedAliasHasNoKey(a);
  }

  lemma {:induction false} SpacedAliasHasNoKey(a: string)
    requires Stripped(a) && ' ' in a
    ensures !ShareKey(a, "x", {}, {"x", a})
  {
    CompactOfStripped(a);
    CompactIsSelf(a);
    CompactIsSelf("x");
    hide Compact, Bigrams;
    DisjointKeys(Compact(a), "x", a);
  }

  lemma {:induction false} AliasScore(a: string, b: string, aliasesA: set<string>, aliasesB: set<string>)
    requires a in aliasesB
    ensures PairScore(a, b, aliasesA, aliasesB) >= 0.92
  {
    hide NameScore;
  }

  lemma {:induction false} DisjointKeys(c: string, x: string, a: string)
    requires |c| >= 2 && |x| == 1 && ' ' !in c && ' ' in a
    ensures ({c} + Bigrams(c) + {}) * ({x} + Bigrams(x) + {x, a}) == {}
  {
    assert Bigrams(x) == {};
    forall key | key in Bigrams(c) ensures key != x && key != a {
      var k: nat :| k < |c| - 1 && PairAt(c, k) == key;
      assert key[0] == c[k] && key[1] == c[k + 1];
    }
  }

  /** A live entity, and a row merged away, share a key with every live entity that has the name
      as an alias exactly if the name has no space or the entity is live. */
  lemma {:induction false} AliasIsSafeIff(a: string, aliasesA: set<string>)
    requires Stripped(a) && (Live(a, aliasesA) || aliasesA == {})
    ensures
      (forall b, aliasesB :: Live(b, aliasesB) && a in aliasesB ==> ShareKey(a, b, aliasesA, aliasesB)) <==>
      ' ' !in a || Live(a, aliasesA)
  {
    if ' ' in a && !Live(a, aliasesA) {
      SpacedAliasIsLost(a);
    } else {
      forall b, aliasesB | Live(b, aliasesB) && a in aliasesB ensures ShareKey(a, b, aliasesA, aliasesB) {
        if Live(a, aliasesA) {
          CommonKey(a, a, b, aliasesA, aliasesB);
        } else {
          PlainAliasSharesKey(a, b, aliasesA, aliasesB);
        }
      }
    }
  }

  lemma {:induction false} TwoLetterName(c: char, x: char)
    requires !IsSpace(c) && !IsSpace(x)
    ensures Stripped([c, ' ', x]) && Tokens([c, ' ', x]) == {[c], [x]} && Compact([c, ' ', x]) == [c, x]
    ensures BlockingKeys([c, ' ', x], {[c, ' ', x]}) == {[c, x], [c, ' ', x]}
  {
    var s := [c, ' ', x];
    assert IsSpace(' ');
    assert TokensTo(s, 0) == {};
    assert OpenRun(s, 0, 1) && Ends(s, 1) && OpenRun(s, 2, 3) && Ends(s, 3);
    hide IsSpace, IsCjk;
    CloseRun(s, 0, 1);
    SkipSpace(s, 1);
    CloseRun(s, 2, 3);
    assert s[0..1] == [c] && s[2..3] == [x];
    assert RunTokens(s, 0, 1) == {[c]} && RunTokens(s, 2, 3) == {[x]};
    hide TokensTo, RunTokens;
    CompactTwo(c, x);
  }

  lemma {:induction false} CompactTwo(c: char, x: char)
    requires c != ' ' && x != ' '
    ensures Compact([c, ' ', x]) == [c, x] && Bigrams([c, x]) == {[c, x]}
  {
    CompactConcat([c], [' ', x]);
    CompactConcat([' '], [x]);
    assert [c, ' ', x] == [c] + [' ', x] && [' ', x] == [' '] + [x];
    assert Compact([c]) == [c] && Compact([' ']) == [] && Compact([x]) == [x];
    assert PairAt([c, x], 0) == [c, x];
  }

  /** A single-character token can be the whole evidence of a pair that is lost. */
  lemma {:induction false} SingleTokenIsLost(c: char) returns (a: string, b: string)
    requires !IsSpace(c)
    ensures Stripped(a) && Stripped(b) && [c] in Tokens(a) * Tokens(b)
    ensures PairScore(a, b, {a}, {b}) >= 0.6 && !ShareKey(a, b, {a}, {b})
  {
    var x := if c == 'x' then 'z' else 'x';
    var y := if c == 'y' then 'z' else 'y';
    assert !IsSpace(x) && !IsSpace(y);
    a, b := [c, ' ', x], [c, ' ', y];
    TwoLetterName(c, x);
    TwoLetterName(c, y);
    hide Tokens, Compact, IsSpace, BlockingKeys;
    assert [c, x][1] == x && [c, y][1] == y && a[2] == x && b[2] == y;
    assert |[c, x]| == |[c, y]| == 2 && |a| == |b| == 3;
    assert !ShareKey(a, b, {a}, {b});
    hide ShareKey, TokensFire;
    HalfDice([c], [x], [y]);
    PairScoreOfTokens(a, b);
    hide PairScore;
  }

  lemma {:induction false} PairScoreOfTokens(a: string, b: string)
    requires TokensFire(Tokens(a), Tokens(b))
    ensures PairScore(a, b, {a}, {b}) >= 0.6
  {
    NameScoreFacts(a, b);
    hide Tokens, NameScore;
  }

  lemma {:induction false} HalfDice(c: string, x: string, y: string)
    requires c != x && c != y && x != y
    ensures TokensFire({c, x}, {c, y})
  {
    assert {c, x} * {c, y} == {c};
  }

  /** Exactly the tokens of two or more characters are safe as common tokens of live entities. */
  lemma {:induction false} TokenIsSafeIffLong(t: string)
    requires t != [] && !IsSpace(t[0])
    ensures
      (forall a, b, aliasesA, aliasesB :: t in Tokens(a) * Tokens(b) && Live(a, aliasesA) && Live(b, aliasesB) ==>
         ShareKey(a, b, aliasesA, aliasesB)) <==> |t| >= 2
  {
    hide Tokens, ShareKey, PairScore, Stripped;
    if |t| >= 2 {
      forall a, b, aliasesA, aliasesB | t in Tokens(a) * Tokens(b) ensures ShareKey(a, b, aliasesA, aliasesB) {
        LongTokenSharesKey(t, a, b, aliasesA, aliasesB);
      }
    } else {
      var a, b := SingleTokenIsLost(t[0]);
      assert t == [t[0]];
      assert Live(a, {a}) && Live(b, {b});
    }
  }

  // ----- the pairs that are scored -----

  /** An entity of one knowledge base: its type, normalised name and normalised aliases. */
  datatype Entity = Entity(kind: string, name: string, aliases: set<string>)

  type Key = (string, string)

  function Keys(e: Entity): set<Key> {
    set k | k in BlockingKeys(e.name, e.aliases) :: (e.kind, k)
  }

  predicate Has(entities: seq<Entity>, i: nat, key: Key) {
    i < |entities| && key in Keys(entities[i])
  }

  predicate Increasing(s: seq<nat>) { forall p, q :: 0 <= p < q < |s| ==> s[p] < s[q] }

  /** Every pair of entities, earlier first, that shares a type and a key. */
  ghost predicate IsPair(entities: seq<Entity>, i: nat, j: nat) {
    i < j && exists key :: Has(entities, i, key) && Has(entities, j, key)
  }

  ghost predicate Indexes(entities: seq<Entity>, n: nat, index: map<Key, seq<nat>>) {
    && (forall key :: key in index ==> Increasing(index[key]) && index[key] != [])
    && (forall key, i :: key in index && i in index[key] ==> i < n && Has(entities, i, key))
    && (forall i: nat, key :: i < n && Has(entities, i, key) ==> key in index && i in index[key])
  }

  method BuildIndex(entities: seq<Entity>) returns (index: map<Key, seq<nat>>)
    ensures Indexes(entities, |entities|, index)
  {
    index := map[];
    var n: nat := 0;
    while n < |entities|
      invariant n <= |entities| && Indexes(entities, n, index)
    {
      index := IndexOne(entities, n, index);
      n := n + 1;
    }
  }

  /** The index while the keys in `rest` of entity `n` are still to be added. */
  ghost predicate PartIndex(entities: seq<Entity>, n: nat, index: map<Key, seq<nat>>, rest: set<Key>) {
    && (forall key :: key in index ==> Increasing(index[key]) && index[key] != [])
    && (forall key, i :: key in index && i in index[key] ==>
          Has(entities, i, key) && (i < n || (i == n && key !in rest)))
    && (forall i: nat, key :: i < n && Has(entities, i, key) ==> key in index && i in index[key])
    && (forall key :: Has(entities, n, key) && key !in rest ==> key in index && n in index[key])
  }

  lemma {:induction false} AddKey(entities: seq<Entity>, n: nat, index: map<Key, seq<nat>>, rest: set<Key>, key: Key,
          list: seq<nat>)
    requires PartIndex(entities, n, index, rest) && key in rest && Has(entities, n, key)
    requires list == if key in index then index[key] else []
    ensures PartIndex(entities, n, index[key := list + [n]], rest - {key})
  {
    hide Has;
    assert forall i :: i in list ==> i < n && Has(entities, i, key);
    assert Increasing(list + [n]) by {
      forall p | 0 <= p < |list| ensures list[p] < n { assert list[p] in list; }
    }
  }

  method IndexOne(entities: seq<Entity>, n: nat, index0: map<Key, seq<nat>>) returns (index: map<Key, seq<nat>>)
    requires n < |entities| && Indexes(entities, n, index0)
    ensures Indexes(entities, n + 1, index)
  {
    index := index0;
    var rest := Keys(entities[n]);
    hide Keys;
    while rest != {}
      invariant rest <= Keys(entities[n]) && PartIndex(entities, n, index, rest)
      decreases |rest|
    {
      var key :| key in rest;
      var list := if key in index then index[key] else [];
      AddKey(entities, n, index, rest, key, list);
      index := index[key := list + [n]];
      rest := rest - {key};
    }
  }

  /** The types and keys of all entities. */
  function AllKeys(entities: seq<Entity>): set<Key> {
    set i, key | 0 <= i < |entities| && key in Keys(entities[i]) :: key
  }

  lemma {:induction false} IndexedKeys(entities: seq<Entity>, index: map<Key, seq<nat>>)
    requires Indexes(entities, |entities|, index)
    ensures |index.Keys| <= |AllKeys(entities)|
  {
    hide Keys;
    forall key | key in index ensures key in AllKeys(entities) {
      var i := index[key][0];
      assert i in index[key] && Has(entities, i, key);
    }
    Subset(index.Keys, AllKeys(entities));
  }

  /** The scored pairs: sound, complete while fewer than `cap` pairs were found, and from then on one
      more at most for each key. */
  method CandidatePairs(entities: seq<Entity>, cap: nat) returns (pairs: set<(nat, nat)>)
    ensures forall i, j :: (i, j) in pairs ==> IsPair(entities, i, j)
    ensures |pairs| < cap ==> forall i: nat, j: nat :: IsPair(entities, i, j) ==> (i, j) in pairs
    ensures |pairs| <= cap + |AllKeys(entities)|
  {
    var index := BuildIndex(entities);
    hide Keys, AllKeys;
    IndexedKeys(entities, index);
    pairs := {};
    var rest := index.Keys;
    while rest != {}
      invariant rest <= index.Keys
      invariant forall i, j :: (i, j) in pairs ==> IsPair(entities, i, j)
      invariant |pairs| < cap ==>
        forall key, i: nat, j: nat ::
          key in index && key !in rest && i < j && Has(entities, i, key) && Has(entities, j, key) ==> (i, j) in pairs
      invariant |pairs| <= cap + |index.Keys| - |rest|
      decreases |rest|
    {
      var key :| key in rest;
      rest := rest - {key};
      var was := pairs;
      pairs := PairsOf(entities, key, index[key], cap, pairs);
    }
  }

  /** The pairs of one index entry, with the code's two early exits. */
  method PairsOf(entities: seq<Entity>, key: Key, found: seq<nat>, cap: nat, pairs0: set<(nat, nat)>)
    returns (pairs: set<(nat, nat)>)
    requires Increasing(found) && forall i :: i in found ==> Has(entities, i, key)
    requires forall i, j :: (i, j) in pairs0 ==> IsPair(entities, i, j)
    ensures pairs0 <= pairs && |pairs0| <= |pairs| <= Max(cap, |pairs0| + 1)
    ensures forall i, j :: (i, j) in pairs ==> IsPair(entities, i, j)
    ensures |pairs| < cap ==> forall i, j :: i in found && j in found && i < j ==> (i, j) in pairs
  {
    pairs := pairs0;
    var p: nat := 0;
    while p < |found|
      invariant p <= |found| && pairs0 <= pairs && (pairs == pairs0 || |pairs| < cap)
      invariant forall i, j :: (i, j) in pairs ==> IsPair(entities, i, j)
      invariant |pairs| < cap ==> forall a, b :: 0 <= a < p && a < b < |found| ==> (found[a], found[b]) in pairs
    {
      var q: nat := p + 1;
      while q < |found|
        invariant p < q <= |found| && pairs0 <= pairs && (pairs == pairs0 || |pairs| < cap)
        invariant forall i, j :: (i, j) in pairs ==> IsPair(entities, i, j)
        invariant |pairs| < cap ==> forall a, b :: 0 <= a < p && a < b < |found| ==> (found[a], found[b]) in pairs
        invariant |pairs| < cap ==> forall b :: p < b < q ==> (found[p], found[b]) in pairs
      {
        assert Has(entities, found[p], key) && Has(entities, found[q], key);
        pairs := AddPair(pairs, found[p], found[q]);
        q := q + 1;
        if |pairs| >= cap {
          break;
        }
      }
      p := p + 1;
      if |pairs| >= cap {
        break;
      }
    }
    Subset(pairs0, pairs);
  }

  function AddPair(pairs: set<(nat, nat)>, i: nat, j: nat): (r: set<(nat, nat)>)
    ensures |pairs| <= |r| <= |pairs| + 1
  {
    Subset(pairs, pairs + {(i, j)});
    pairs + {(i, j)}
  }

  lemma {:induction false} Subset<T>(a: set<T>, b: set<T>)
    requires a <= b
    ensures |a| <= |b|
  {
    assert b == a + (b - a);
  }

  /** Before the cap every pair of one type with an equal name, a shared alias, a substring or a
      close spelling is scored. */
  lemma {:induction false} StrongPairsAreCandidates(entities: seq<Entity>, i: nat, j: nat)
    requires i < j < |entities| && entities[i].kind == entities[j].kind
    requires
      var a, b := entities[i], entities[j];
      a.name == b.name || a.aliases * b.aliases != {} || EditFires(Compact(a.name), Compact(b.name)) ||
      (SubstringFires(a.name, b.name) && |Compact(a.name)| >= 2 && |Compact(b.name)| >= 2)
    ensures IsPair(entities, i, j)
  {
    var a, b := entities[i], entities[j];
    if !ShareKey(a.name, b.name, a.aliases, b.aliases) {
      BlockingLosesOnly(a.name, b.name, a.aliases, b.aliases);
    }
    var key :| key in BlockingKeys(a.name, a.aliases) * BlockingKeys(b.name, b.aliases);
    assert Has(entities, i, (a.kind, key)) && Has(entities, j, (a.kind, key));
  }
}
