/** Values shared by the metric engine and the evaluation driver. */
module Types {

  /** An optional value. */
  datatype Option<+T> = None | Some(value: T)

  /** The value of an operation that may raise one of the errors E. */
  datatype Result<+T, +E> = Ok(value: T) | Err(error: E)

  /** A floating-point score: a number, or the non-finite value a division by
      zero or the mean of no values produces. */
  datatype Score = Num(value: real) | NaN

  /** A label map flattened to one dimension: one class id per pixel. */
  type LabelMap = seq<int>

  /** One (ground truth, prediction) pair handed to a tracker's update. */
  datatype Sample = Sample(gt: LabelMap, pred: LabelMap)

  /** The errors the trackers raise. */
  datatype MetricError =
    | ShapeMismatch(gtLength: nat, predLength: nat)  // ground truth and prediction differ in shape
    | EmptyImage                                    // accuracy of an image with no pixels
    | NoConfusionMatrix                             // mean IoU asked for before any counted update

  /** Removing the last element of a sequence removes it from its multiset. */
  lemma RemoveLast<T>(s: seq<T>)
    requires |s| > 0
    ensures multiset(s[..|s| - 1]) == multiset(s) - multiset{s[|s| - 1]}
  {
    assert s == s[..|s| - 1] + [s[|s| - 1]];
  }

  /** A sequence is its prefix before j, its element at j and its suffix. */
  lemma SplitAt<T>(t: seq<T>, j: nat)
    requires j < |t|
    ensures t == t[..j] + [t[j]] + t[j + 1..]
  {
  }

  /** Removing the element at j of a sequence removes it from its multiset. */
  lemma RemoveAt<T>(t: seq<T>, j: nat)
    requires j < |t|
    ensures multiset(t[..j] + t[j + 1..]) == multiset(t) - multiset{t[j]}
  {
    assert t == t[..j] + [t[j]] + t[j + 1..];
    assert multiset(t) == multiset(t[..j]) + multiset{t[j]} + multiset(t[j + 1..]);
  }

  lemma MultisetAround<T>(l: seq<T>, m: seq<T>, r: seq<T>)
    ensures multiset(l + m + r) == multiset(l + r) + multiset(m)
  {
    assert multiset(l + m + r) == multiset(l) + multiset(m) + multiset(r);
    assert multiset(l + r) == multiset(l) + multiset(r);
  }

  /** A ratio of a part to a positive whole lies in [0, 1]. */
  lemma FractionInUnit(a: real, n: real)
    requires 0.0 <= a <= n && n > 0.0
    ensures 0.0 <= a / n <= 1.0
  {
    var q := a / n;
    assert q * n == a;
    assert (1.0 - q) * n == n - a;
  }
}
