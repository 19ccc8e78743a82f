/** The arithmetic of the pixel-accuracy tracker: per-image accuracy and its
    macro average over images. */
module Accuracy {
  import opened Types

  /** The number of pixels whose prediction equals the ground truth. The
      ignore label is an ordinary value here: a pixel labelled 255 in both
      counts as correct. */
  function Correct(gt: LabelMap, pred: LabelMap): (n: nat)
    ensures n <= |gt| && n <= |pred|
  {
    if gt == [] || pred == [] then 0
    else (if gt[0] == pred[0] then 1 else 0) + Correct(gt[1..], pred[1..])
  }

  lemma {:induction false} CorrectSplit(g1: LabelMap, p1: LabelMap, g2: LabelMap, p2: LabelMap)
    requires |g1| == |p1|
    ensures Correct(g1 + g2, p1 + p2) == Correct(g1, p1) + Correct(g2, p2)
  {
    if g1 == [] {
      assert g1 + g2 == g2 && p1 + p2 == p2;
    } else {
      assert (g1 + g2)[1..] == g1[1..] + g2;
      assert (p1 + p2)[1..] == p1[1..] + p2;
      CorrectSplit(g1[1..], p1[1..], g2, p2);
    }
  }

  /** The accuracy of one image: correct pixels over all its pixels. */
  function ImageAccuracy(x: Sample): (r: real)
    requires |x.gt| > 0
    ensures 0.0 <= r <= 1.0
  {
    var n := |x.gt| as real;
    var c := Correct(x.gt, x.pred) as real;
    FractionInUnit(c, n);
    c / n
  }

  predicate AllNonEmpty(s: seq<Sample>)
  {
    forall x | x in s :: |x.gt| > 0
  }

  /** The running sum of per-image accuracies after the updates s. */
  function SumAccuracy(s: seq<Sample>): (r: real)
    requires AllNonEmpty(s)
    ensures 0.0 <= r <= |s| as real
  {
    if s == [] then 0.0 else SumAccuracy(s[..|s| - 1]) + ImageAccuracy(s[|s| - 1])
  }

  /** The macro average over the images seen, each weighing the same whatever
      its size; 0 when no image has been seen. */
  function MeanAccuracy(s: seq<Sample>): (r: real)
    requires AllNonEmpty(s)
    ensures 0.0 <= r <= 1.0
    ensures s == [] ==> r == 0.0
  {
    if |s| == 0 then 0.0
    else
      var n := |s| as real;
      FractionInUnit(SumAccuracy(s), n);
      SumAccuracy(s) / n
  }

  lemma {:induction false} SumAccuracyConcat(s: seq<Sample>, t: seq<Sample>)
    requires AllNonEmpty(s) && AllNonEmpty(t)
    ensures AllNonEmpty(s + t)
    ensures SumAccuracy(s + t) == SumAccuracy(s) + SumAccuracy(t)
    decreases |t|
  {
    if t == [] {
      assert s + t == s;
    } else {
      assert (s + t)[..|s + t| - 1] == s + t[..|t| - 1];
      SumAccuracyConcat(s, t[..|t| - 1]);
    }
  }

  lemma AllNonEmptyPermutation(s: seq<Sample>, t: seq<Sample>)
    requires multiset(s) == multiset(t) && AllNonEmpty(s)
    ensures AllNonEmpty(t)
  {
    forall x | x in t
      ensures |x.gt| > 0
    {
      assert x in multiset(s);
    }
  }

  /** Taking the image at j out of the updates takes its accuracy out of
      the sum. */
  lemma SumAccuracyRemoveAt(t: seq<Sample>, j: nat)
    requires AllNonEmpty(t) && j < |t|
    ensures AllNonEmpty(t[..j] + t[j + 1..])
    ensures SumAccuracy(t) == SumAccuracy(t[..j] + t[j + 1..]) + ImageAccuracy(t[j])
  {
    var l, x, r := t[..j], t[j], t[j + 1..];
    SplitAt(t, j);
    assert AllNonEmpty(l) && AllNonEmpty(r) && AllNonEmpty([x]) by {
      forall y | y in l || y in r || y == x ensures |y.gt| > 0 { assert y in t; }
    }
    SumAccuracyConcat(l, r);
    SumAccuracyConcat(l, [x]);
    SumAccuracyConcat(l + [x], r);
    assert [x][..0] == [];
  }

  /** The running sum depends on the multiset of updates only. */
  lemma {:induction false} SumAccuracyPermutation(s: seq<Sample>, t: seq<Sample>)
    requires multiset(s) == multiset(t) && AllNonEmpty(s)
    ensures AllNonEmpty(t) && SumAccuracy(s) == SumAccuracy(t)
    decreases |s|
  {
    AllNonEmptyPermutation(s, t);
    if s == [] {
      assert |t| == |multiset(t)| == 0;
    } else {
      var x, s' := s[|s| - 1], s[..|s| - 1];
      RemoveLast(s);
      assert x in multiset(t);
      var j :| 0 <= j < |t| && t[j] == x;
      RemoveAt(t, j);
      SumAccuracyRemoveAt(s, |s| - 1);
      SumAccuracyRemoveAt(t, j);
      assert s[..|s| - 1] + s[|s|..] == s';
      SumAccuracyPermutation(s', t[..j] + t[j + 1..]);
    }
  }

  /** Feeding the same images in any order gives the same accuracy. */
  lemma MeanAccuracyOrderIndependent(s: seq<Sample>, t: seq<Sample>)
    requires multiset(s) == multiset(t) && AllNonEmpty(s)
    ensures AllNonEmpty(t) && MeanAccuracy(s) == MeanAccuracy(t)
  {
    SumAccuracyPermutation(s, t);
    assert |s| == |multiset(s)| == |multiset(t)| == |t|;
  }

  /** A pixel carrying the same value in ground truth and prediction, the
      ignore label included, adds one correct pixel and one pixel to the
      denominator. */
  lemma MatchingPixelCountsAsCorrect(g1: LabelMap, p1: LabelMap, v: int, g2: LabelMap, p2: LabelMap)
    requires |g1| == |p1|
    ensures Correct(g1 + [v] + g2, p1 + [v] + p2) == Correct(g1 + g2, p1 + p2) + 1
    ensures |g1 + [v] + g2| == |g1 + g2| + 1
  {
    CorrectSplit(g1 + [v], p1 + [v], g2, p2);
    CorrectSplit(g1, p1, [v], [v]);
    CorrectSplit(g1, p1, g2, p2);
    assert [v][1..] == [];
  }

  /** A pixel whose prediction differs from its ground truth adds no
      correct pixel. */
  lemma MismatchingPixelNotCorrect(g1: LabelMap, p1: LabelMap, x: int, y: int, g2: LabelMap, p2: LabelMap)
    requires |g1| == |p1| && x != y
    ensures Correct(g1 + [x] + g2, p1 + [y] + p2) == Correct(g1 + g2, p1 + p2)
    ensures |g1 + [x] + g2| == |g1 + g2| + 1
  {
    CorrectSplit(g1 + [x], p1 + [y], g2, p2);
    CorrectSplit(g1, p1, [x], [y]);
    CorrectSplit(g1, p1, g2, p2);
    assert [x][1..] == [];
  }

  lemma {:induction false} CorrectOfPerfect(g: LabelMap)
    ensures Correct(g, g) == |g|
  {
    if g != [] {
      CorrectOfPerfect(g[1..]);
    }
  }

  /** When every prediction equals its ground truth the accuracy is 1,
      ignore-labelled pixels included. */
  lemma {:induction false} PerfectPredictionIsAccurate(s: seq<Sample>)
    requires AllNonEmpty(s) && |s| > 0
    requires forall k :: 0 <= k < |s| ==> s[k].pred == s[k].gt
    ensures MeanAccuracy(s) == 1.0
  {
    SumAccuracyOfPerfect(s);
    var n := |s| as real;
    assert n / n == 1.0;
  }

  lemma {:induction false} SumAccuracyOfPerfect(s: seq<Sample>)
    requires AllNonEmpty(s)
    requires forall k :: 0 <= k < |s| ==> s[k].pred == s[k].gt
    ensures SumAccuracy(s) == |s| as real
  {
    if s != [] {
      SumAccuracyOfPerfect(s[..|s| - 1]);
      ImageAccuracyOfPerfect(s[|s| - 1]);
    }
  }

  lemma ImageAccuracyOfPerfect(x: Sample)
    requires |x.gt| > 0 && x.pred == x.gt
    ensures ImageAccuracy(x) == 1.0
  {
    CorrectOfPerfect(x.gt);
    var n := |x.gt| as real;
    assert n / n == 1.0;
  }

  /** Ground truth [0, 0, 1, 1] against prediction [0, 1, 1, 1]: accuracy 3/4. */
  lemma WorkedExample()
    ensures ImageAccuracy(Sample([0, 0, 1, 1], [0, 1, 1, 1])) == 0.75
  {
    var gt, pred := [0, 0, 1, 1], [0, 1, 1, 1];
    assert gt[1..] == [0, 1, 1] && gt[1..][1..] == [1, 1] && gt[1..][1..][1..] == [1];
    assert pred[1..] == [1, 1, 1] && pred[1..][1..] == [1, 1] && pred[1..][1..][1..] == [1];
    assert [1][1..] == [];
    assert Correct(gt, pred) == 3;
  }
}
