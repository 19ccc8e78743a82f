/** The confusion-matrix arithmetic behind the running mean-IoU tracker:
    the per-image count over a fixed label axis, the running sum of those
    counts, and the per-class IoU derived from the sum. */
module Confusion {
  import opened Types

  /** Pixel counts indexed [ground-truth class][predicted class]. */
  type Matrix = seq<seq<nat>>

  predicate IsSquare(m: Matrix, n: nat)
  {
    |m| == n && forall i :: 0 <= i < n ==> |m[i]| == n
  }

  // ---------------------------------------------------------------------------
  // One image
  // ---------------------------------------------------------------------------

  /** The number of pixels whose ground truth is a and whose prediction is b. */
  function Count(gt: LabelMap, pred: LabelMap, a: int, b: int): (n: nat)
    ensures n <= |gt| && n <= |pred|
  {
    if gt == [] || pred == [] then 0
    else (if gt[0] == a && pred[0] == b then 1 else 0) + Count(gt[1..], pred[1..], a, b)
  }

  /** The count of one image: entry (i, j) counts the pixels labelled labels[i]
      in the ground truth and labels[j] in the prediction. */
  function ConfusionMatrix(labels: seq<int>, gt: LabelMap, pred: LabelMap): (m: Matrix)
    ensures IsSquare(m, |labels|)
    ensures forall i, j :: 0 <= i < |labels| && 0 <= j < |labels| ==>
              m[i][j] == Count(gt, pred, labels[i], labels[j])
  {
    seq(|labels|, i requires 0 <= i < |labels| =>
      seq(|labels|, j requires 0 <= j < |labels| => Count(gt, pred, labels[i], labels[j])))
  }

  /** True when every ground-truth pixel carries the ignore label (vacuously
      so for an empty image). */
  predicate AllIgnore(gt: LabelMap, ignoreLabel: int)
  {
    forall k :: 0 <= k < |gt| ==> gt[k] == ignoreLabel
  }

  lemma {:induction false} CountSplit(g1: LabelMap, p1: LabelMap, g2: LabelMap, p2: LabelMap, a: int, b: int)
    requires |g1| == |p1|
    ensures Count(g1 + g2, p1 + p2, a, b) == Count(g1, p1, a, b) + Count(g2, p2, a, b)
  {
    if g1 == [] {
      assert g1 + g2 == g2 && p1 + p2 == p2;
    } else {
      assert (g1 + g2)[1..] == g1[1..] + g2;
      assert (p1 + p2)[1..] == p1[1..] + p2;
      CountSplit(g1[1..], p1[1..], g2, p2, a, b);
    }
  }

  lemma CountOne(x: int, y: int, a: int, b: int)
    ensures Count([x], [y], a, b) == if x == a && y == b then 1 else 0
  {
    assert [x][1..] == [];
  }

  lemma SquareEquality(m: Matrix, n: Matrix, k: nat)
    requires IsSquare(m, k) && IsSquare(n, k)
    requires forall i, j :: 0 <= i < k && 0 <= j < k ==> m[i][j] == n[i][j]
    ensures m == n
  {
    forall i | 0 <= i < k
      ensures m[i] == n[i]
    {
      assert forall j :: 0 <= j < k ==> m[i][j] == n[i][j];
    }
  }

  /** A pixel whose ground truth or prediction lies outside labels (the ignore
      label, say) is counted in no entry of the image's matrix. */
  lemma PixelOutsideLabelsNotCounted(labels: seq<int>, g1: LabelMap, p1: LabelMap, x: int, y: int,
                                     g2: LabelMap, p2: LabelMap)
    requires |g1| == |p1|
    requires x !in labels || y !in labels
    ensures ConfusionMatrix(labels, g1 + [x] + g2, p1 + [y] + p2) == ConfusionMatrix(labels, g1 + g2, p1 + p2)
  {
    var with := ConfusionMatrix(labels, g1 + [x] + g2, p1 + [y] + p2);
    var without := ConfusionMatrix(labels, g1 + g2, p1 + p2);
    forall i, j | 0 <= i < |labels| && 0 <= j < |labels|
      ensures with[i][j] == without[i][j]
    {
      CountSplit(g1 + [x], p1 + [y], g2, p2, labels[i], labels[j]);
      CountSplit(g1, p1, [x], [y], labels[i], labels[j]);
      CountSplit(g1, p1, g2, p2, labels[i], labels[j]);
      CountOne(x, y, labels[i], labels[j]);
    }
    SquareEquality(with, without, |labels|);
  }

  predicate Distinct(labels: seq<int>)
  {
    forall i, j :: 0 <= i < j < |labels| ==> labels[i] != labels[j]
  }

  /** With distinct labels, a pixel labelled labels[i] in the ground truth and
      labels[j] in the prediction adds one to entry (i, j) and to no other. */
  lemma PixelInsideLabelsCountedOnce(labels: seq<int>, g1: LabelMap, p1: LabelMap, i: nat, j: nat,
                                     g2: LabelMap, p2: LabelMap)
    requires |g1| == |p1| && Distinct(labels)
    requires i < |labels| && j < |labels|
    ensures var with := ConfusionMatrix(labels, g1 + [labels[i]] + g2, p1 + [labels[j]] + p2);
            var without := ConfusionMatrix(labels, g1 + g2, p1 + p2);
            forall r, c :: 0 <= r < |labels| && 0 <= c < |labels| ==>
              with[r][c] == without[r][c] + (if r == i && c == j then 1 else 0)
  {
    forall r, c | 0 <= r < |labels| && 0 <= c < |labels|
      ensures Count(g1 + [labels[i]] + g2, p1 + [labels[j]] + p2, labels[r], labels[c])
              == Count(g1 + g2, p1 + p2, labels[r], labels[c]) + (if r == i && c == j then 1 else 0)
    {
      CountSplit(g1 + [labels[i]], p1 + [labels[j]], g2, p2, labels[r], labels[c]);
      CountSplit(g1, p1, [labels[i]], [labels[j]], labels[r], labels[c]);
      CountSplit(g1, p1, g2, p2, labels[r], labels[c]);
      CountOne(labels[i], labels[j], labels[r], labels[c]);
    }
  }

  // ---------------------------------------------------------------------------
  // The running matrix
  // ---------------------------------------------------------------------------

  function Add(a: Matrix, b: Matrix): (c: Matrix)
    requires IsSquare(a, |a|) && IsSquare(b, |a|)
    ensures IsSquare(c, |a|)
    ensures forall i, j :: 0 <= i < |a| && 0 <= j < |a| ==> c[i][j] == a[i][j] + b[i][j]
  {
    seq(|a|, i requires 0 <= i < |a| => seq(|a|, j requires 0 <= j < |a| => a[i][j] + b[i][j]))
  }

  /** The running matrix after one more update that passed the shape check:
      unchanged for an all-ignore ground truth, set by the first counted image,
      incremented by every later one. */
  function Step(labels: seq<int>, ignoreLabel: int, acc: Option<Matrix>, x: Sample): (r: Option<Matrix>)
    requires acc.Some? ==> IsSquare(acc.value, |labels|)
    ensures r.Some? ==> IsSquare(r.value, |labels|)
  {
    if AllIgnore(x.gt, ignoreLabel) then acc
    else
      var current := ConfusionMatrix(labels, x.gt, x.pred);
      match acc
      case None => Some(current)
      case Some(m) => Some(Add(m, current))
  }

  /** The running matrix after the updates s, in order, starting from None. */
  function Accumulate(labels: seq<int>, ignoreLabel: int, s: seq<Sample>): (r: Option<Matrix>)
    ensures r.Some? ==> IsSquare(r.value, |labels|)
  {
    if s == [] then None
    else Step(labels, ignoreLabel, Accumulate(labels, ignoreLabel, s[..|s| - 1]), s[|s| - 1])
  }

  predicate AllIgnored(ignoreLabel: int, s: seq<Sample>)
  {
    forall k :: 0 <= k < |s| ==> AllIgnore(s[k].gt, ignoreLabel)
  }

  /** What one update adds to the pixels counted for (a, b). */
  function Contribution(ignoreLabel: int, x: Sample, a: int, b: int): nat
  {
    if AllIgnore(x.gt, ignoreLabel) then 0 else Count(x.gt, x.pred, a, b)
  }

  /** The pixels counted for (a, b) over all the updates s: an independent
      statement of what the running matrix holds. */
  function Total(ignoreLabel: int, s: seq<Sample>, a: int, b: int): nat
  {
    if s == [] then 0
    else Total(ignoreLabel, s[..|s| - 1], a, b) + Contribution(ignoreLabel, s[|s| - 1], a, b)
  }

  lemma {:induction false} TotalConcat(ignoreLabel: int, s: seq<Sample>, t: seq<Sample>, a: int, b: int)
    ensures Total(ignoreLabel, s + t, a, b) == Total(ignoreLabel, s, a, b) + Total(ignoreLabel, t, a, b)
    decreases |t|
  {
    if t == [] {
      assert s + t == s;
    } else {
      assert (s + t)[..|s + t| - 1] == s + t[..|t| - 1];
      assert (s + t)[|s + t| - 1] == t[|t| - 1];
      TotalConcat(ignoreLabel, s, t[..|t| - 1], a, b);
    }
  }

  lemma {:induction false} TotalOfIgnored(ignoreLabel: int, s: seq<Sample>, a: int, b: int)
    requires AllIgnored(ignoreLabel, s)
    ensures Total(ignoreLabel, s, a, b) == 0
  {
    if s != [] {
      TotalOfIgnored(ignoreLabel, s[..|s| - 1], a, b);
    }
  }

  /** Totals depend on the multiset of updates only, not on their order. */
  lemma TotalRemoveAt(ignoreLabel: int, t: seq<Sample>, j: nat, a: int, b: int)
    requires j < |t|
    ensures Total(ignoreLabel, t, a, b) ==
            Total(ignoreLabel, t[..j] + t[j + 1..], a, b) + Contribution(ignoreLabel, t[j], a, b)
  {
    var l, x, r := t[..j], t[j], t[j + 1..];
    SplitAt(t, j);
    TotalConcat(ignoreLabel, l, r, a, b);
    TotalConcat(ignoreLabel, l, [x], a, b);
    TotalConcat(ignoreLabel, l + [x], r, a, b);
    assert [x][..0] == [];
  }

  lemma {:induction false} TotalPermutation(ignoreLabel: int, s: seq<Sample>, t: seq<Sample>, a: int, b: int)
    requires multiset(s) == multiset(t)
    ensures Total(ignoreLabel, s, a, b) == Total(ignoreLabel, t, a, b)
    decreases |s|
  {
    if s == [] {
      assert |t| == |multiset(t)| == 0;
    } else {
      var x, s' := s[|s| - 1], s[..|s| - 1];
      RemoveLast(s);
      assert x in multiset(t);
      var j :| 0 <= j < |t| && t[j] == x;
      RemoveAt(t, j);
      TotalRemoveAt(ignoreLabel, s, |s| - 1, a, b);
      TotalRemoveAt(ignoreLabel, t, j, a, b);
      assert s[..|s| - 1] + s[|s|..] == s';
      TotalPermutation(ignoreLabel, s', t[..j] + t[j + 1..], a, b);
    }
  }

  /** The running matrix is None exactly while every update so far had an
      all-ignore ground truth; otherwise entry (i, j) is the sum over the
      counted images of their (i, j) counts. */
  lemma {:induction false} AccumulateIsSum(labels: seq<int>, ignoreLabel: int, s: seq<Sample>)
    ensures Accumulate(labels, ignoreLabel, s).None? <==> AllIgnored(ignoreLabel, s)
    ensures Accumulate(labels, ignoreLabel, s).Some? ==>
              forall i, j :: 0 <= i < |labels| && 0 <= j < |labels| ==>
                Accumulate(labels, ignoreLabel, s).value[i][j] == Total(ignoreLabel, s, labels[i], labels[j])
  {
    if s != [] {
      var s' := s[..|s| - 1];
      var x := s[|s| - 1];
      AccumulateIsSum(labels, ignoreLabel, s');
      assert AllIgnored(ignoreLabel, s) <==> AllIgnored(ignoreLabel, s') && AllIgnore(x.gt, ignoreLabel) by {
        assert forall k :: 0 <= k < |s'| ==> s'[k] == s[k];
      }
      var before := Accumulate(labels, ignoreLabel, s');
      if !AllIgnore(x.gt, ignoreLabel) && before.None? {
        forall i, j | 0 <= i < |labels| && 0 <= j < |labels|
          ensures Total(ignoreLabel, s', labels[i], labels[j]) == 0
        {
          TotalOfIgnored(ignoreLabel, s', labels[i], labels[j]);
        }
      }
    }
  }

  /** Feeding the same updates in any order gives the same running matrix. */
  lemma AccumulateOrderIndependent(labels: seq<int>, ignoreLabel: int, s: seq<Sample>, t: seq<Sample>)
    requires multiset(s) == multiset(t)
    ensures Accumulate(labels, ignoreLabel, s) == Accumulate(labels, ignoreLabel, t)
  {
    AccumulateIsSum(labels, ignoreLabel, s);
    AccumulateIsSum(labels, ignoreLabel, t);
    assert AllIgnored(ignoreLabel, s) <==> AllIgnored(ignoreLabel, t) by {
      forall k | 0 <= k < |t| ensures t[k] in s {
        assert t[k] in multiset(s);
      }
      forall k | 0 <= k < |s| ensures s[k] in t {
        assert s[k] in multiset(t);
      }
    }
    var ms, mt := Accumulate(labels, ignoreLabel, s), Accumulate(labels, ignoreLabel, t);
    if ms.Some? {
      forall i, j | 0 <= i < |labels| && 0 <= j < |labels|
        ensures ms.value[i][j] == mt.value[i][j]
      {
        TotalPermutation(ignoreLabel, s, t, labels[i], labels[j]);
      }
      SquareEquality(ms.value, mt.value, |labels|);
    }
  }

  /** An update with an all-ignore ground truth leaves no trace, wherever it
      stands among the updates. */
  lemma IgnoredSampleVanishes(labels: seq<int>, ignoreLabel: int, s: seq<Sample>, k: nat)
    requires k < |s| && AllIgnore(s[k].gt, ignoreLabel)
    ensures Accumulate(labels, ignoreLabel, s) == Accumulate(labels, ignoreLabel, s[..k] + s[k + 1..])
  {
    var t := s[..k] + s[k + 1..];
    assert s == s[..k] + [s[k]] + s[k + 1..];
    assert multiset(s) == multiset(t + [s[k]]);
    AccumulateOrderIndependent(labels, ignoreLabel, s, t + [s[k]]);
    assert (t + [s[k]])[..|t|] == t;
  }

  // ---------------------------------------------------------------------------
  // Intersection over union
  // ---------------------------------------------------------------------------

  function SumSeq(s: seq<nat>): nat
  {
    if s == [] then 0 else SumSeq(s[..|s| - 1]) + s[|s| - 1]
  }

  lemma {:induction false} SumSeqAtLeast(s: seq<nat>, k: nat)
    requires k < |s|
    ensures s[k] <= SumSeq(s)
  {
    if k < |s| - 1 {
      SumSeqAtLeast(s[..|s| - 1], k);
    }
  }

  lemma {:induction false} SumSeqOfOne(s: seq<nat>, k: nat)
    requires k < |s|
    requires forall j :: 0 <= j < |s| && j != k ==> s[j] == 0
    ensures SumSeq(s) == s[k]
  {
    var s' := s[..|s| - 1];
    if k < |s| - 1 {
      SumSeqOfOne(s', k);
    } else {
      SumSeqOfZeros(s');
    }
  }

  lemma {:induction false} SumSeqOfZeros(s: seq<nat>)
    requires forall j :: 0 <= j < |s| ==> s[j] == 0
    ensures SumSeq(s) == 0
  {
    if s != [] {
      SumSeqOfZeros(s[..|s| - 1]);
    }
  }

  function Column(m: Matrix, j: nat): (c: seq<nat>)
    requires IsSquare(m, |m|) && j < |m|
    ensures |c| == |m| && forall i :: 0 <= i < |m| ==> c[i] == m[i][j]
  {
    seq(|m|, i requires 0 <= i < |m| => m[i][j])
  }

  /** Pixels of class i predicted as class i. */
  function Intersection(m: Matrix, i: nat): nat
    requires IsSquare(m, |m|) && i < |m|
  {
    m[i][i]
  }

  /** Pixels of class i in the ground truth, or predicted as class i, or both. */
  function Union(m: Matrix, i: nat): int
    requires IsSquare(m, |m|) && i < |m|
  {
    SumSeq(m[i]) + SumSeq(Column(m, i)) - Intersection(m, i)
  }

  lemma IntersectionWithinUnion(m: Matrix, i: nat)
    requires IsSquare(m, |m|) && i < |m|
    ensures 0 <= Intersection(m, i) <= Union(m, i)
  {
    SumSeqAtLeast(m[i], i);
    SumSeqAtLeast(Column(m, i), i);
  }

  /** IoU of class i; a class with an empty union yields NaN, as 0/0 does in
      floating point. */
  function ClassIoU(m: Matrix, i: nat): (r: Score)
    requires IsSquare(m, |m|) && i < |m|
    ensures r.Num? <==> Union(m, i) > 0
    ensures r.Num? ==> 0.0 <= r.value <= 1.0
  {
    IntersectionWithinUnion(m, i);
    var u := Union(m, i);
    if u > 0 then
      FractionInUnit(Intersection(m, i) as real, u as real);
      Num(Intersection(m, i) as real / u as real)
    else NaN
  }

  function IoUs(m: Matrix): (r: seq<Score>)
    requires IsSquare(m, |m|)
    ensures |r| == |m| && forall i :: 0 <= i < |m| ==> r[i] == ClassIoU(m, i)
  {
    seq(|m|, i requires 0 <= i < |m| => ClassIoU(m, i))
  }

  predicate AllNum(xs: seq<Score>)
  {
    forall k :: 0 <= k < |xs| ==> xs[k].Num?
  }

  predicate WithinUnit(xs: seq<Score>)
  {
    forall k :: 0 <= k < |xs| ==> xs[k].Num? ==> 0.0 <= xs[k].value <= 1.0
  }

  function SumScores(xs: seq<Score>): (r: real)
    requires AllNum(xs)
    ensures WithinUnit(xs) ==> 0.0 <= r <= |xs| as real
  {
    if xs == [] then 0.0 else SumScores(xs[..|xs| - 1]) + xs[|xs| - 1].value
  }

  /** The arithmetic mean; NaN when a term is NaN or there is no term. */
  function Mean(xs: seq<Score>): (r: Score)
    ensures r.Num? <==> |xs| > 0 && AllNum(xs)
    ensures WithinUnit(xs) && r.Num? ==> 0.0 <= r.value <= 1.0
  {
    if |xs| > 0 && AllNum(xs) then
      var n := |xs| as real;
      var x := SumScores(xs) / n;
      assert WithinUnit(xs) ==> x <= 1.0 by {
        if WithinUnit(xs) {
          assert SumScores(xs) <= n;
        }
      }
      Num(x)
    else NaN
  }

  /** Mean IoU over all classes: a number in [0, 1] exactly when there is a
      class and every class has a nonempty union, NaN otherwise. */
  function MeanIoU(m: Matrix): (r: Score)
    requires IsSquare(m, |m|)
    ensures r.Num? <==> |m| > 0 && forall i :: 0 <= i < |m| ==> Union(m, i) > 0
    ensures r.Num? ==> 0.0 <= r.value <= 1.0
  {
    var xs := IoUs(m);
    assert WithinUnit(xs);
    assert AllNum(xs) <==> forall i :: 0 <= i < |m| ==> Union(m, i) > 0 by {
      if AllNum(xs) {
        forall i | 0 <= i < |m| ensures Union(m, i) > 0 {
          assert xs[i].Num?;
        }
      }
    }
    Mean(xs)
  }

  // ---------------------------------------------------------------------------
  // A perfect prediction, and a worked example
  // ---------------------------------------------------------------------------

  predicate Perfect(s: seq<Sample>)
  {
    forall k :: 0 <= k < |s| ==> s[k].pred == s[k].gt
  }

  /** Some ground-truth pixel among the updates s carries the value v. */
  predicate Occurs(s: seq<Sample>, v: int)
  {
    exists k, p :: 0 <= k < |s| && 0 <= p < |s[k].gt| && s[k].gt[p] == v
  }

  lemma {:induction false} CountPerfectOffDiagonal(g: LabelMap, a: int, b: int)
    requires a != b
    ensures Count(g, g, a, b) == 0
  {
    if g != [] {
      CountPerfectOffDiagonal(g[1..], a, b);
    }
  }

  lemma {:induction false} CountPerfectPresent(g: LabelMap, p: nat)
    requires p < |g|
    ensures Count(g, g, g[p], g[p]) >= 1
  {
    if p > 0 {
      CountPerfectPresent(g[1..], p - 1);
    }
  }

  lemma {:induction false} TotalPerfectOffDiagonal(ignoreLabel: int, s: seq<Sample>, a: int, b: int)
    requires Perfect(s) && a != b
    ensures Total(ignoreLabel, s, a, b) == 0
  {
    if s != [] {
      TotalPerfectOffDiagonal(ignoreLabel, s[..|s| - 1], a, b);
      CountPerfectOffDiagonal(s[|s| - 1].gt, a, b);
    }
  }

  lemma {:induction false} TotalAtLeast(ignoreLabel: int, s: seq<Sample>, k: nat, a: int, b: int)
    requires k < |s|
    ensures Contribution(ignoreLabel, s[k], a, b) <= Total(ignoreLabel, s, a, b)
  {
    if k < |s| - 1 {
      TotalAtLeast(ignoreLabel, s[..|s| - 1], k, a, b);
    }
  }

  lemma {:induction false} SumScoresOfOnes(xs: seq<Score>)
    requires forall k :: 0 <= k < |xs| ==> xs[k] == Num(1.0)
    ensures AllNum(xs) && SumScores(xs) == |xs| as real
  {
    if xs != [] {
      SumScoresOfOnes(xs[..|xs| - 1]);
    }
  }

  predicate Diagonal(m: Matrix)
    requires IsSquare(m, |m|)
  {
    forall i, j :: 0 <= i < |m| && 0 <= j < |m| && i != j ==> m[i][j] == 0
  }

  lemma PerfectIsDiagonal(labels: seq<int>, ignoreLabel: int, s: seq<Sample>)
    requires Distinct(labels) && Perfect(s)
    requires Accumulate(labels, ignoreLabel, s).Some?
    ensures Diagonal(Accumulate(labels, ignoreLabel, s).value)
  {
    AccumulateIsSum(labels, ignoreLabel, s);
    forall i, j | 0 <= i < |labels| && 0 <= j < |labels| && i != j
      ensures Total(ignoreLabel, s, labels[i], labels[j]) == 0
    {
      TotalPerfectOffDiagonal(ignoreLabel, s, labels[i], labels[j]);
    }
  }

  lemma PerfectDiagonalPositive(labels: seq<int>, ignoreLabel: int, s: seq<Sample>, i: nat)
    requires Perfect(s) && i < |labels| && ignoreLabel !in labels && Occurs(s, labels[i])
    ensures Accumulate(labels, ignoreLabel, s).Some?
    ensures Accumulate(labels, ignoreLabel, s).value[i][i] > 0
  {
    AccumulateIsSum(labels, ignoreLabel, s);
    var k, p :| 0 <= k < |s| && 0 <= p < |s[k].gt| && s[k].gt[p] == labels[i];
    assert !AllIgnore(s[k].gt, ignoreLabel);
    CountPerfectPresent(s[k].gt, p);
    TotalAtLeast(ignoreLabel, s, k, labels[i], labels[i]);
  }

  lemma UnionOfDiagonal(m: Matrix, i: nat)
    requires IsSquare(m, |m|) && Diagonal(m) && i < |m|
    ensures Union(m, i) == m[i][i]
  {
    SumSeqOfOne(m[i], i);
    SumSeqOfOne(Column(m, i), i);
  }

  lemma MeanIoUOfDiagonal(m: Matrix)
    requires IsSquare(m, |m|) && |m| > 0 && Diagonal(m)
    requires forall i :: 0 <= i < |m| ==> m[i][i] > 0
    ensures MeanIoU(m) == Num(1.0)
  {
    var xs := IoUs(m);
    forall i | 0 <= i < |m|
      ensures xs[i] == Num(1.0)
    {
      UnionOfDiagonal(m, i);
      DivideBySelf(m[i][i] as real);
    }
    SumScoresOfOnes(xs);
    DivideBySelf(|xs| as real);
    assert Mean(xs) == Num(|xs| as real / |xs| as real);
  }

  lemma DivideBySelf(x: real)
    requires x > 0.0
    ensures x / x == 1.0
  {
  }

  /** When every prediction equals its ground truth and every class occurs
      somewhere, the mean IoU is exactly 1. */
  lemma PerfectPredictionScoresOne(labels: seq<int>, ignoreLabel: int, s: seq<Sample>)
    requires Distinct(labels) && |labels| > 0 && ignoreLabel !in labels
    requires Perfect(s)
    requires forall i :: 0 <= i < |labels| ==> Occurs(s, labels[i])
    ensures Accumulate(labels, ignoreLabel, s).Some?
    ensures MeanIoU(Accumulate(labels, ignoreLabel, s).value) == Num(1.0)
  {
    PerfectDiagonalPositive(labels, ignoreLabel, s, 0);
    PerfectIsDiagonal(labels, ignoreLabel, s);
    var m := Accumulate(labels, ignoreLabel, s).value;
    forall i | 0 <= i < |labels|
      ensures m[i][i] > 0
    {
      PerfectDiagonalPositive(labels, ignoreLabel, s, i);
    }
    MeanIoUOfDiagonal(m);
  }

  /** Ground truth [0, 0, 1, 1] against prediction [0, 1, 1, 1] over labels
      [0, 1] gives the matrix [[1, 1], [0, 2]] ... */
  lemma WorkedExampleMatrix()
    ensures Accumulate([0, 1], 255, [Sample([0, 0, 1, 1], [0, 1, 1, 1])]) == Some([[1, 1], [0, 2]])
  {
    var gt, pred := [0, 0, 1, 1], [0, 1, 1, 1];
    assert gt[1..] == [0, 1, 1] && gt[1..][1..] == [1, 1] && gt[1..][1..][1..] == [1];
    assert pred[1..] == [1, 1, 1] && pred[1..][1..] == [1, 1] && pred[1..][1..][1..] == [1];
    assert [1][1..] == [];
    assert Count(gt, pred, 0, 0) == 1 && Count(gt, pred, 0, 1) == 1;
    assert Count(gt, pred, 1, 0) == 0 && Count(gt, pred, 1, 1) == 2;
    SquareEquality(ConfusionMatrix([0, 1], gt, pred), [[1, 1], [0, 2]], 2);
    assert !AllIgnore(gt, 255);
    assert [Sample(gt, pred)][..0] == [];
  }

  /** ... and the mean IoU (1/2 + 2/3) / 2. */
  lemma WorkedExampleMeanIoU()
    ensures MeanIoU([[1, 1], [0, 2]]) == Num((1.0 / 2.0 + 2.0 / 3.0) / 2.0)
  {
    var m: Matrix := [[1, 1], [0, 2]];
    assert m[0][..1] == [1] && m[1][..1] == [0];
    assert Column(m, 0) == [1, 0] && Column(m, 1) == [1, 2];
    assert [1, 0][..1] == [1] && [1, 2][..1] == [1];
    assert [1][..0] == [] && [0][..0] == [];
    assert Union(m, 0) == 2 && Union(m, 1) == 3;
    var xs := IoUs(m);
    assert xs == [Num(1.0 / 2.0), Num(2.0 / 3.0)];
    assert xs[..1] == [Num(1.0 / 2.0)] && xs[..1][..0] == [];
  }
}
