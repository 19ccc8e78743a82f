/** The streaming trackers: the shape check every update shares, the running
    mean-IoU tracker and the running pixel-accuracy tracker. */
module Metrics {
  import opened Types
  import opened Confusion
  import opened Accuracy

  const DEFAULT_IGNORE_LABEL: int := 255

  /** The check every tracker's update runs before it touches its state:
      ground truth and prediction must have the same shape. */
  function CheckShape(gt: LabelMap, pred: LabelMap): (r: Option<MetricError>)
    ensures r.None? <==> |gt| == |pred|
    ensures r.Some? ==> r.value == ShapeMismatch(|gt|, |pred|)
  {
    if |gt| != |pred| then Some(ShapeMismatch(|gt|, |pred|)) else None
  }

  /** The mean-IoU tracker's result after the accepted updates s, stated on
      the updates alone: an error while no update has counted a pixel
      (every ground truth so far all-ignore, or no update at all), otherwise
      the mean IoU of the summed counts. */
  function MeanIoUAfter(labels: seq<int>, ignoreLabel: int, s: seq<Sample>): (r: Result<Score, MetricError>)
    ensures r.Err? <==> AllIgnored(ignoreLabel, s)
    ensures r.Err? ==> r.error == NoConfusionMatrix
    ensures r.Ok? && r.value.Num? ==> 0.0 <= r.value.value <= 1.0
  {
    AccumulateIsSum(labels, ignoreLabel, s);
    match Accumulate(labels, ignoreLabel, s)
    case None => Err(NoConfusionMatrix)
    case Some(m) => Ok(MeanIoU(m))
  }

  /** The order of the updates does not change the mean IoU. */
  lemma MeanIoUAfterOrderIndependent(labels: seq<int>, ignoreLabel: int, s: seq<Sample>, t: seq<Sample>)
    requires multiset(s) == multiset(t)
    ensures MeanIoUAfter(labels, ignoreLabel, s) == MeanIoUAfter(labels, ignoreLabel, t)
  {
    AccumulateOrderIndependent(labels, ignoreLabel, s, t);
  }

  /** Running confusion matrix over a fixed label axis, from which the mean
      IoU is derived on demand. */
  class RunningMIoU {
    const labels: seq<int>
    const ignoreLabel: int
    /** None until the first update whose ground truth is not all-ignore. */
    var overallConfusionMatrix: Option<Matrix>
    /** The updates that passed the shape check, in order. */
    ghost var updates: seq<Sample>

    ghost predicate Valid()
      reads this
    {
      overallConfusionMatrix == Accumulate(labels, ignoreLabel, updates)
    }

    constructor (labels: seq<int>, ignoreLabel: int := DEFAULT_IGNORE_LABEL)
      ensures Valid()
      ensures this.labels == labels && this.ignoreLabel == ignoreLabel
      ensures overallConfusionMatrix == None && updates == []
    {
      this.labels := labels;
      this.ignoreLabel := ignoreLabel;
      overallConfusionMatrix := None;
      updates := [];
    }

    /** Adds one image's counts to the running matrix. A shape mismatch is
        reported before anything changes; an all-ignore ground truth changes
        nothing else. */
    method Update(gt: LabelMap, pred: LabelMap) returns (err: Option<MetricError>)
      requires Valid()
      modifies this
      ensures Valid()
      ensures err == CheckShape(gt, pred)
      ensures err.Some? ==> overallConfusionMatrix == old(overallConfusionMatrix) && updates == old(updates)
      ensures err.None? ==> updates == old(updates) + [Sample(gt, pred)]
      ensures err.None? && AllIgnore(gt, ignoreLabel) ==> overallConfusionMatrix == old(overallConfusionMatrix)
      ensures err.None? && !AllIgnore(gt, ignoreLabel) && old(overallConfusionMatrix).None? ==>
                overallConfusionMatrix == Some(ConfusionMatrix(labels, gt, pred))
      ensures err.None? && !AllIgnore(gt, ignoreLabel) && old(overallConfusionMatrix).Some? ==>
                overallConfusionMatrix == Some(Add(old(overallConfusionMatrix).value, ConfusionMatrix(labels, gt, pred)))
    {
      err := CheckShape(gt, pred);
      if err.Some? {
        return;
      }
      updates := updates + [Sample(gt, pred)];
      assert updates[..|updates| - 1] == old(updates);
      if AllIgnore(gt, ignoreLabel) {
        return;
      }
      var current := ConfusionMatrix(labels, gt, pred);
      if overallConfusionMatrix.Some? {
        overallConfusionMatrix := Some(Add(overallConfusionMatrix.value, current));
      } else {
        overallConfusionMatrix := Some(current);
      }
    }

    /** The mean IoU of the running matrix; an error before any counted update. */
    function Result(): (r: Result<Score, MetricError>)
      reads this
      requires Valid()
      ensures r == MeanIoUAfter(labels, ignoreLabel, updates)
    {
      match overallConfusionMatrix
      case None => Err(NoConfusionMatrix)
      case Some(m) => Ok(MeanIoU(m))
    }
  }

  /** The outcome of a pixel-accuracy update, stated on its inputs. */
  function AccuracyCheck(gt: LabelMap, pred: LabelMap): (r: Option<MetricError>)
    ensures r.None? <==> |gt| == |pred| && |gt| > 0
    ensures |gt| != |pred| ==> r == CheckShape(gt, pred)
  {
    if |gt| != |pred| then CheckShape(gt, pred)
    else if |gt| == 0 then Some(EmptyImage)
    else None
  }

  /** Running sum of per-image accuracies and the number of images seen. */
  class PixelAccuracy {
    var numSamples: nat
    var pixelAcc: real
    /** The updates accepted so far, in order. */
    ghost var updates: seq<Sample>

    ghost predicate Valid()
      reads this
    {
      AllNonEmpty(updates) && numSamples == |updates| && pixelAcc == SumAccuracy(updates)
    }

    constructor ()
      ensures Valid()
      ensures numSamples == 0 && pixelAcc == 0.0 && updates == []
    {
      numSamples := 0;
      pixelAcc := 0.0;
      updates := [];
    }

    /** Counts one more image and adds its accuracy to the running sum. A
        shape mismatch or an empty image is reported and changes nothing. */
    method Update(gt: LabelMap, pred: LabelMap) returns (err: Option<MetricError>)
      requires Valid()
      modifies this
      ensures Valid()
      ensures err == AccuracyCheck(gt, pred)
      ensures err.Some? ==> numSamples == old(numSamples) && pixelAcc == old(pixelAcc) && updates == old(updates)
      ensures err.None? ==> numSamples == old(numSamples) + 1 && updates == old(updates) + [Sample(gt, pred)]
      ensures err.None? ==> pixelAcc == old(pixelAcc) + ImageAccuracy(Sample(gt, pred))
    {
      err := CheckShape(gt, pred);
      if err.Some? {
        return;
      }
      if |gt| == 0 {
        err := Some(EmptyImage);
        return;
      }
      numSamples := numSamples + 1;
      var correct := Correct(gt, pred);
      pixelAcc := pixelAcc + correct as real / |gt| as real;
      updates := updates + [Sample(gt, pred)];
      assert updates[..|updates| - 1] == old(updates);
    }

    /** The macro-averaged accuracy, 0 before any image. */
    function Result(): (r: real)
      reads this
      requires Valid()
      ensures r == MeanAccuracy(updates)
      ensures 0.0 <= r <= 1.0
    {
      if numSamples == 0 then 0.0 else pixelAcc / numSamples as real
    }
  }
}
