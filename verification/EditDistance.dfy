/** The edit distance of `levenshtein`: the two-row dynamic program, the recursive distance
    it computes, and proofs that this distance is the least number of single-character
    edits, a metric, and bounded below by what two names share (the q-gram bound). */
module EditDistance {
  import opened Text

  function Min3(a: nat, b: nat, c: nat): nat { Min(Min(a, b), c) }

  function Differ(a: string, b: string, i: nat, j: nat): nat
    requires 0 < i <= |a| && 0 < j <= |b|
  {
    if a[i - 1] != b[j - 1] then 1 else 0
  }

  /** Distance between the first `i` characters of `a` and the first `j` of `b`. */
  function D(a: string, b: string, i: nat, j: nat): nat
    requires i <= |a| && j <= |b|
    decreases i + j
  {
    if i == 0 then j
    else if j == 0 then i
    else Min3(D(a, b, i - 1, j) + 1, D(a, b, i, j - 1) + 1,
              D(a, b, i - 1, j - 1) + Differ(a, b, i, j))
  }

  function Dist(a: string, b: string): nat { D(a, b, |a|, |b|) }

  // ----- the metric -----

  lemma {:induction false} Unfold(a: string, b: string, i: nat, j: nat)
    requires i <= |a| && j <= |b|
    ensures i == 0 || j == 0 ==> D(a, b, i, j) == i + j
    ensures i > 0 && j > 0 ==>
      D(a, b, i, j) == Min3(D(a, b, i - 1, j) + 1, D(a, b, i, j - 1) + 1, D(a, b, i - 1, j - 1) + Differ(a, b, i, j))
  {
  }

  lemma {:induction false} Symmetric(a: string, b: string, i: nat, j: nat)
    requires i <= |a| && j <= |b|
    ensures D(a, b, i, j) == D(b, a, j, i)
    decreases i + j
  {
    hide D;
    Unfold(a, b, i, j);
    Unfold(b, a, j, i);
    if i > 0 && j > 0 {
      Symmetric(a, b, i - 1, j);
      Symmetric(a, b, i, j - 1);
      Symmetric(a, b, i - 1, j - 1);
    }
  }

  lemma {:induction false} Bounds(a: string, b: string, i: nat, j: nat)
    requires i <= |a| && j <= |b|
    ensures D(a, b, i, j) <= Max(i, j)
    ensures i <= D(a, b, i, j) + j && j <= D(a, b, i, j) + i
    decreases i + j
  {
    hide D;
    Unfold(a, b, i, j);
    if i > 0 && j > 0 {
      Bounds(a, b, i - 1, j);
      Bounds(a, b, i, j - 1);
      Bounds(a, b, i - 1, j - 1);
    }
  }

  lemma {:induction false} ZeroIffEqual(a: string, b: string, i: nat, j: nat)
    requires i <= |a| && j <= |b|
    ensures D(a, b, i, j) == 0 <==> i == j && forall k :: 0 <= k < i ==> a[k] == b[k]
    decreases i + j
  {
    Bounds(a, b, i, j);
    if i == j && i > 0 {
      Bounds(a, b, i - 1, j);
      Bounds(a, b, i, j - 1);
      assert D(a, b, i, j) == 0 <==> D(a, b, i - 1, j - 1) == 0 && a[i - 1] == b[j - 1];
      hide D;
      ZeroIffEqual(a, b, i - 1, j - 1);
    }
  }

  /** The three ways a prefix pair can end, one of them the cheapest. */
  lemma {:induction false} Steps(a: string, b: string, i: nat, j: nat)
    requires i <= |a| && j <= |b|
    ensures i > 0 ==> D(a, b, i, j) <= D(a, b, i - 1, j) + 1
    ensures j > 0 ==> D(a, b, i, j) <= D(a, b, i, j - 1) + 1
    ensures i > 0 && j > 0 ==> D(a, b, i, j) <= D(a, b, i - 1, j - 1) + Differ(a, b, i, j)
    ensures (i == 0 && j == 0)
            || (i > 0 && D(a, b, i, j) == D(a, b, i - 1, j) + 1)
            || (j > 0 && D(a, b, i, j) == D(a, b, i, j - 1) + 1)
            || (i > 0 && j > 0 && D(a, b, i, j) == D(a, b, i - 1, j - 1) + Differ(a, b, i, j))
  {
    if i == 0 && j > 0 {
      assert D(a, b, 0, j - 1) == j - 1;
    } else if j == 0 && i > 0 {
      assert D(a, b, i - 1, 0) == i - 1;
    }
  }

  lemma {:induction false} DropLeft(a: string, b: string, i: nat, j: nat)
    requires 0 < i <= |a| && j <= |b|
    ensures D(a, b, i, j) <= D(a, b, i - 1, j) + 1
  {
    Steps(a, b, i, j);
  }

  lemma {:induction false} DropRight(a: string, b: string, i: nat, j: nat)
    requires i <= |a| && 0 < j <= |b|
    ensures D(a, b, i, j) <= D(a, b, i, j - 1) + 1
  {
    Steps(a, b, i, j);
  }

  lemma {:induction false} DropBoth(a: string, b: string, i: nat, j: nat)
    requires 0 < i <= |a| && 0 < j <= |b|
    ensures D(a, b, i, j) <= D(a, b, i - 1, j - 1) + Differ(a, b, i, j)
  {
    Steps(a, b, i, j);
  }

  lemma {:induction false} DifferTriangle(a: string, b: string, c: string, i: nat, j: nat, k: nat)
    requires 0 < i <= |a| && 0 < j <= |b| && 0 < k <= |c|
    ensures Differ(a, c, i, k) <= Differ(a, b, i, j) + Differ(b, c, j, k)
  {
  }

  /** The middle string gives up its last character on both sides. */
  lemma {:induction false} TriangleMiddle(a: string, b: string, c: string, i: nat, j: nat, k: nat)
    requires i <= |a| && 0 < j <= |b| && k <= |c|
    requires D(a, b, i, j) == D(a, b, i, j - 1) + 1
             || (i > 0 && D(a, b, i, j) == D(a, b, i - 1, j - 1) + Differ(a, b, i, j))
    requires D(b, c, j, k) == D(b, c, j - 1, k) + 1
             || (k > 0 && D(b, c, j, k) == D(b, c, j - 1, k - 1) + Differ(b, c, j, k))
    ensures D(a, c, i, k) <= D(a, b, i, j) + D(b, c, j, k)
    decreases i + j + k, 0
  {
    hide D, Differ;
    if D(a, b, i, j) == D(a, b, i, j - 1) + 1 {
      if D(b, c, j, k) == D(b, c, j - 1, k) + 1 {
        Triangle(a, b, c, i, j - 1, k);
      } else {
        Triangle(a, b, c, i, j - 1, k - 1);
        DropRight(a, c, i, k);
      }
    } else if D(b, c, j, k) == D(b, c, j - 1, k) + 1 {
      Triangle(a, b, c, i - 1, j - 1, k);
      DropLeft(a, c, i, k);
    } else {
      DifferTriangle(a, b, c, i, j, k);
      Triangle(a, b, c, i - 1, j - 1, k - 1);
      DropBoth(a, c, i, k);
    }
  }

  lemma {:induction false} Triangle(a: string, b: string, c: string, i: nat, j: nat, k: nat)
    requires i <= |a| && j <= |b| && k <= |c|
    ensures D(a, c, i, k) <= D(a, b, i, j) + D(b, c, j, k)
    decreases i + j + k, 1
  {
    Steps(a, b, i, j);
    Steps(b, c, j, k);
    assert D(a, c, 0, 0) == 0;
    hide D, Differ;
    if i > 0 && D(a, b, i, j) == D(a, b, i - 1, j) + 1 {
      Triangle(a, b, c, i - 1, j, k);
      DropLeft(a, c, i, k);
    } else if k > 0 && D(b, c, j, k) == D(b, c, j, k - 1) + 1 {
      Triangle(a, b, c, i, j, k - 1);
      DropRight(a, c, i, k);
    } else if j > 0 {
      TriangleMiddle(a, b, c, i, j, k);
    }
  }

  /** The distance is a metric, bounded by the longer length. */
  lemma {:induction false} DistIsMetric(a: string, b: string, c: string)
    ensures Dist(a, b) == 0 <==> a == b
    ensures Dist(a, b) == Dist(b, a)
    ensures Dist(a, c) <= Dist(a, b) + Dist(b, c)
    ensures Dist(a, b) <= Max(|a|, |b|)
  {
    ZeroIffEqual(a, b, |a|, |b|);
    Symmetric(a, b, |a|, |b|);
    Triangle(a, b, c, |a|, |b|, |c|);
    Bounds(a, b, |a|, |b|);
  }

  // ----- edits: what the distance means -----

  datatype Edit = Insert(at: nat, c: char) | Delete(at: nat) | Replace(at: nat, c: char)

  predicate Applies(e: Edit, s: string) {
    if e.Insert? then e.at <= |s| else e.at < |s|
  }

  function Apply(e: Edit, s: string): string
    requires Applies(e, s)
  {
    match e
    case Insert(k, c) => s[..k] + [c] + s[k..]
    case Delete(k) => s[..k] + s[k + 1..]
    case Replace(k, c) => s[k := c]
  }

  /** `edits`, in order, turn `a` into `b`. */
  predicate Transforms(edits: seq<Edit>, a: string, b: string)
    decreases |edits|
  {
    if edits == [] then a == b
    else Applies(edits[0], a) && Transforms(edits[1..], Apply(edits[0], a), b)
  }

  lemma {:induction false} AlongEqual(a: string, b: string, i: nat, j: nat, n: nat)
    requires i + n <= |a| && j + n <= |b| && a[i..i + n] == b[j..j + n]
    ensures D(a, b, i + n, j + n) <= D(a, b, i, j)
  {
    if n > 0 {
      Steps(a, b, i + n, j + n);
      hide D;
      assert a[i..i + n][n - 1] == b[j..j + n][n - 1];
      assert a[i..i + n][..n - 1] == a[i..i + (n - 1)] && b[j..j + n][..n - 1] == b[j..j + (n - 1)];
      AlongEqual(a, b, i, j, n - 1);
    }
  }

  lemma {:induction false} CommonFront(s: string, t: string, k: nat)
    requires k <= |s| && k <= |t| && s[..k] == t[..k]
    ensures D(s, t, k, k) == 0
  {
    forall m | 0 <= m < k ensures s[m] == t[m] {
      assert s[..k][m] == t[..k][m];
    }
    ZeroIffEqual(s, t, k, k);
  }

  lemma {:induction false} CommonRest(s: string, t: string, i: nat, j: nat)
    requires i <= |s| && j <= |t| && s[i..] == t[j..]
    ensures Dist(s, t) <= D(s, t, i, j)
  {
    var n := |s| - i;
    assert |t[j..]| == n;
    assert s[i..i + n] == s[i..] && t[j..j + n] == t[j..];
    hide D;
    AlongEqual(s, t, i, j, n);
  }

  /** A common front, one step, and a common rest. */
  lemma {:induction false} AroundOneStep(s: string, t: string, k: nat, i: nat, j: nat)
    requires k <= |s| && k <= |t| && k <= i <= k + 1 && k <= j <= k + 1 && i <= |s| && j <= |t|
    requires s[..k] == t[..k] && s[i..] == t[j..]
    ensures Dist(s, t) <= 1
  {
    CommonFront(s, t, k);
    CommonRest(s, t, i, j);
    Steps(s, t, i, j);
    hide D, Dist;
    if i > k && j > k {
      assert D(s, t, i, j) <= D(s, t, k, k) + Differ(s, t, i, j);
    }
  }

  /** One edit moves the distance by at most one. */
  lemma {:induction false} OneEdit(e: Edit, s: string)
    requires Applies(e, s)
    ensures Dist(s, Apply(e, s)) <= 1
  {
    hide D;
    var t, k := Apply(e, s), e.at;
    match e {
      case Insert(_, _) => AroundOneStep(s, t, k, k, k + 1);
      case Delete(_) => AroundOneStep(s, t, k, k + 1, k);
      case Replace(_, _) => AroundOneStep(s, t, k, k + 1, k + 1);
    }
  }

  /** No script of edits is shorter than the distance. */
  lemma {:induction false} NoShorterScript(edits: seq<Edit>, a: string, b: string)
    requires Transforms(edits, a, b)
    ensures Dist(a, b) <= |edits|
    decreases |edits|
  {
    if edits == [] {
      DistIsMetric(a, b, b);
    } else {
      var next := Apply(edits[0], a);
      OneEdit(edits[0], a);
      NoShorterScript(edits[1..], next, b);
      DistIsMetric(a, next, b);
    }
  }

  lemma {:induction false} TransformsThen(edits: seq<Edit>, more: seq<Edit>, a: string, b: string, c: string)
    requires Transforms(edits, a, b) && Transforms(more, b, c)
    ensures Transforms(edits + more, a, c)
    decreases |edits|
  {
    if edits == [] {
      assert edits + more == more;
    } else {
      assert (edits + more)[1..] == edits[1..] + more && (edits + more)[0] == edits[0];
      hide Apply;
      TransformsThen(edits[1..], more, Apply(edits[0], a), b, c);
    }
  }

  /** A script still works when a tail is appended to the string it starts from. */
  lemma {:induction false} TransformsWithTail(edits: seq<Edit>, a: string, b: string, tail: string)
    requires Transforms(edits, a, b)
    ensures Transforms(edits, a + tail, b + tail)
    decreases |edits|
  {
    if edits != [] {
      var e := edits[0];
      assert Apply(e, a + tail) == Apply(e, a) + tail by { ApplyWithTail(e, a, tail); }
      TransformsWithTail(edits[1..], Apply(e, a), b, tail);
    }
  }

  lemma {:induction false} ApplyWithTail(e: Edit, a: string, tail: string)
    requires Applies(e, a)
    ensures Applies(e, a + tail) && Apply(e, a + tail) == Apply(e, a) + tail
  {
    match e {
      case Insert(k, _) => assert (a + tail)[..k] == a[..k] && (a + tail)[k..] == a[k..] + tail;
      case Delete(k) => assert (a + tail)[..k] == a[..k] && (a + tail)[k + 1..] == a[k + 1..] + tail;
      case Replace(k, c) => assert (a + tail)[k := c] == a[k := c] + tail;
    }
  }

  lemma {:induction false} OneScript(e: Edit, a: string, b: string)
    requires Applies(e, a) && Apply(e, a) == b
    ensures Transforms([e], a, b)
  {
    assert [e][1..] == [];
  }

  lemma {:induction false} AppendLast(s: string, c: char)
    ensures Transforms([Insert(|s|, c)], s, s + [c])
  {
    assert Apply(Insert(|s|, c), s) == s + [c];
    OneScript(Insert(|s|, c), s, s + [c]);
  }

  lemma {:induction false} DropLast(s: string, c: char)
    ensures Transforms([Delete(|s|)], s + [c], s)
  {
    assert Apply(Delete(|s|), s + [c]) == s;
    OneScript(Delete(|s|), s + [c], s);
  }

  lemma {:induction false} ReplaceLast(s: string, c: char, d: char)
    ensures Transforms([Replace(|s|, d)], s + [c], s + [d])
  {
    assert Apply(Replace(|s|, d), s + [c]) == s + [d];
    OneScript(Replace(|s|, d), s + [c], s + [d]);
  }

  lemma {:induction false} Snoc(s: string, i: nat)
    requires 0 < i <= |s|
    ensures s[..i] == s[..i - 1] + [s[i - 1]]
  {
  }

  lemma {:induction false} NoScript(a: string, b: string)
    ensures D(a, b, 0, 0) == 0 && Transforms([], a[..0], b[..0])
  {
  }

  /** A script of exactly the distance's length, read off the recursion. */
  lemma {:induction false} BestScript(a: string, b: string, i: nat, j: nat) returns (edits: seq<Edit>)
    requires i <= |a| && j <= |b|
    ensures Transforms(edits, a[..i], b[..j]) && |edits| == D(a, b, i, j)
    decreases i + j
  {
    hide D, Transforms, Apply, Applies;
    Steps(a, b, i, j);
    NoScript(a, b);
    if i == 0 && j == 0 {
      edits := [];
    } else if i > 0 && D(a, b, i, j) == D(a, b, i - 1, j) + 1 {
      var rest := BestScript(a, b, i - 1, j);
      Snoc(a, i);
      DropLast(a[..i - 1], a[i - 1]);
      edits := [Delete(i - 1)] + rest;
      TransformsThen([Delete(i - 1)], rest, a[..i], a[..i - 1], b[..j]);
    } else if j > 0 && D(a, b, i, j) == D(a, b, i, j - 1) + 1 {
      var rest := BestScript(a, b, i, j - 1);
      Snoc(b, j);
      AppendLast(b[..j - 1], b[j - 1]);
      edits := rest + [Insert(j - 1, b[j - 1])];
      TransformsThen(rest, [Insert(j - 1, b[j - 1])], a[..i], b[..j - 1], b[..j]);
    } else {
      var rest := BestScript(a, b, i - 1, j - 1);
      var x, y := a[i - 1], b[j - 1];
      Snoc(a, i);
      Snoc(b, j);
      TransformsWithTail(rest, a[..i - 1], b[..j - 1], [x]);
      edits := rest;
      if x != y {
        ReplaceLast(b[..j - 1], x, y);
        edits := rest + [Replace(j - 1, y)];
        TransformsThen(rest, [Replace(j - 1, y)], a[..i], b[..j - 1] + [x], b[..j]);
      }
    }
  }

  /** The distance is the least number of insertions, deletions and replacements. */
  lemma {:induction false} DistIsLeastEdits(a: string, b: string) returns (best: seq<Edit>)
    ensures Transforms(best, a, b) && |best| == Dist(a, b)
    ensures forall edits :: Transforms(edits, a, b) ==> Dist(a, b) <= |edits|
  {
    best := BestScript(a, b, |a|, |b|);
    assert a[..|a|] == a && b[..|b|] == b;
    forall edits | Transforms(edits, a, b) ensures Dist(a, b) <= |edits| {
      NoShorterScript(edits, a, b);
    }
  }

  // ----- the program -----

  /** One row of the table from the row above it. */
  method NextRow(a: string, b: string, i: nat, previous: seq<nat>) returns (current: seq<nat>)
    requires i < |a| && |previous| == |b| + 1
    requires forall j :: 0 <= j <= |b| ==> previous[j] == D(a, b, i, j)
    ensures |current| == |b| + 1
    ensures forall j :: 0 <= j <= |b| ==> current[j] == D(a, b, i + 1, j)
  {
    current := [i + 1];
    for j := 1 to |b| + 1
      invariant |current| == j
      invariant forall k :: 0 <= k < j ==> current[k] == D(a, b, i + 1, k)
    {
      current := current + [Min3(previous[j] + 1, current[j - 1] + 1,
                                 previous[j - 1] + if a[i] != b[j - 1] then 1 else 0)];
    }
  }

  /** `levenshtein`: early answers, the longer string first, then row by row. */
  method Levenshtein(a0: string, b0: string) returns (d: nat)
    ensures d == Dist(a0, b0)
  {
    DistIsMetric(a0, b0, b0);
    if a0 == b0 {
      return 0;
    }
    if a0 == "" || b0 == "" {
      return |a0| + |b0|;
    }
    var a, b := a0, b0;
    if |a| < |b| {
      a, b := b, a;
    }
    var previous: seq<nat> := seq(|b| + 1, j => j);
    for i := 0 to |a|
      invariant |previous| == |b| + 1
      invariant forall j :: 0 <= j <= |b| ==> previous[j] == D(a, b, i, j)
    {
      previous := NextRow(a, b, i, previous);
    }
    d := previous[|previous| - 1];
  }

  // ----- the q-gram bound -----

  /** `a` and `b` have two adjacent characters in common. */
  predicate ShareBigram(a: string, b: string) {
    exists p, q :: 0 <= p < |a| - 1 && 0 <= q < |b| - 1 && a[p] == b[q] && a[p + 1] == b[q + 1]
  }

  lemma {:induction false} NotBoth(a: string, b: string, p: nat, q: nat)
    requires !ShareBigram(a, b) && p + 1 < |a| && q + 1 < |b|
    ensures a[p] == b[q] ==> a[p + 1] != b[q + 1]
  {
  }

  /** Every edit destroys at most two bigrams: strings without a common bigram are at least
      half a length apart, one more if they end differently. */
  lemma {:induction false} QGramBound(a: string, b: string, i: nat, j: nat)
    requires i <= |a| && j <= |b| && !ShareBigram(a, b)
    ensures 2 * D(a, b, i, j) + 1 >= Max(i, j)
    ensures i == 0 || j == 0 || a[i - 1] != b[j - 1] ==> 2 * D(a, b, i, j) >= Max(i, j)
    decreases i + j
  {
    Bounds(a, b, i, j);
    hide D, ShareBigram;
    if i > 0 && j > 0 {
      Steps(a, b, i, j);
      if D(a, b, i, j) == D(a, b, i - 1, j) + 1 {
        QGramBound(a, b, i - 1, j);
      } else if D(a, b, i, j) == D(a, b, i, j - 1) + 1 {
        QGramBound(a, b, i, j - 1);
      } else {
        QGramBound(a, b, i - 1, j - 1);
        if i > 1 && j > 1 { NotBoth(a, b, i - 2, j - 2); }
      }
    }
  }

  /** Names as close as the edit-distance signal asks share a bigram. */
  lemma {:induction false} CloseNamesShareBigram(a: string, b: string)
    requires Max(|a|, |b|) >= 2 && 5 * Dist(a, b) <= Max(|a|, |b|)
    ensures ShareBigram(a, b)
  {
    if !ShareBigram(a, b) {
      QGramBound(a, b, |a|, |b|);
    }
  }
}
