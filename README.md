# Streaming segmentation metrics and the scoring driver

A Dafny model of the evaluation core of the VisDA-2022 segmentation challenge.

The metric engine has two trackers. A running mean-IoU tracker keeps a confusion matrix over a fixed label axis. It skips ground truths made entirely of the ignore label (255). A running pixel-accuracy tracker keeps the sum of per-image accuracies and an image count. Both run the same shape check before they touch their state.

The driver checks that the ground truth has `val` and `test` and that the submission has `source_only` and `uda`. It selects the phase: only `"val"` picks val. It pairs each ground-truth label map with the prediction of the same basename under each condition and feeds every pair to that condition's two trackers. It then builds the report `{<phase>_source_only: {mIoU, Acc}, <phase>_uda: {mIoU, Acc}}`.

Layout:

- `types.dfy` (`Types`): `Option`, `Result` and `Score`, a real number or `NaN`, plus samples and the trackers' errors.
- `confusion.dfy` (`Confusion`): the per-image pixel count that stands in for `sklearn.metrics.confusion_matrix`, the running sum over updates and the IoU arithmetic.
- `accuracy.dfy` (`Accuracy`): per-image accuracy and its macro average.
- `metrics.dfy` (`Metrics`): the shape check and the two tracker classes. Their mutable fields are tied, through a ghost history of accepted updates, to the functions above.
- `evaluate.dfy` (`Evaluate`): the driver as a specification function `Scored`, and as the imperative method `Evaluate` proved equal to it. `Evaluate` is built from `ScoreFiles`, the loop over the ground-truth files; `ScoreFile`, one file under both conditions; and `ScoreCondition`, one file under one condition.

How the driver's inputs are modelled:

- Archives and directories are maps. The ground truth maps a partition name to the files found under it, in listing order.
- A submission maps a condition to a map from basename to label map.
- A label map is the flattened image, a `seq<int>`.

## Model

| member | source | states |
|---|---|---|
| `Metrics.CheckShape` | _eval/metrics.py:13-15 | the check passes exactly when ground truth and prediction have the same length; otherwise the error carries both lengths |
| `Metrics.RunningMIoU.constructor` | _eval/metrics.py:40-44 | a new tracker keeps the given labels and ignore label, 255 unless given, and has no matrix |
| `Metrics.RunningMIoU.Update` | _eval/metrics.py:46-73 | a shape mismatch is reported and changes nothing; an all-ignore ground truth leaves the matrix as it was (`None` included); otherwise the first counted update sets the matrix to that image's counts and later ones add element-wise; the matrix always equals the sum over accepted updates |
| `Metrics.RunningMIoU.Result` | _eval/metrics.py:75-84 | the tracker's result is `MeanIoUAfter` of its accepted updates: an error while no matrix exists, else the mean IoU of the matrix |
| `Metrics.MeanIoUAfter` | _eval/metrics.py:64-84 | an error exactly when every update so far was all-ignore (or none happened); a numeric result lies in [0, 1] |
| `Metrics.MeanIoUAfterOrderIndependent` | _eval/metrics.py:70-84 | the same updates in any order give the same mean IoU |
| `Metrics.AccuracyCheck` | _eval/metrics.py:92-95 | an accuracy update is accepted exactly when lengths agree and the image is nonempty; a mismatch is the shared shape error |
| `Metrics.PixelAccuracy.constructor` | _eval/metrics.py:87-89 | a new tracker has seen no image and has sum 0 |
| `Metrics.PixelAccuracy.Update` | _eval/metrics.py:91-95 | a rejected update changes nothing; an accepted one adds one image and adds its correct/length to the sum |
| `Metrics.PixelAccuracy.Result` | _eval/metrics.py:97-100 | the result is the macro average of the accepted updates, 0 before any; it lies in [0, 1] |
| `Confusion.Count` | _eval/metrics.py:66-68 | the number of pixels with a given (gt, pred) pair is at most the length of either map |
| `Confusion.ConfusionMatrix` | _eval/metrics.py:66-68 | one image's matrix is K×K over the label axis; entry (i, j) counts pixels with gt = labels[i] and pred = labels[j] |
| `Confusion.PixelOutsideLabelsNotCounted` | _eval/metrics.py:66-68 | a pixel whose gt or pred is not on the label axis (such as 255) changes no entry |
| `Confusion.PixelInsideLabelsCountedOnce` | _eval/metrics.py:66-68 | with distinct labels, a pixel (labels[i], labels[j]) adds one to entry (i, j) and nothing elsewhere |
| `Confusion.Add` | _eval/metrics.py:70-71 | the in-place `+=` is element-wise addition of square matrices |
| `Confusion.Step` | _eval/metrics.py:64-73 | one update keeps the running matrix square over the label axis |
| `Confusion.Accumulate` | _eval/metrics.py:64-73 | the matrix after a sequence of updates is square over the label axis whenever it exists |
| `Confusion.AccumulateIsSum` | _eval/metrics.py:64-73 | the matrix is absent exactly when every update was all-ignore; otherwise entry (i, j) is the sum of that entry over the non-ignored updates |
| `Confusion.TotalPermutation` | _eval/metrics.py:70-73 | the summed count of any (a, b) pair depends only on the multiset of updates |
| `Confusion.AccumulateOrderIndependent` | _eval/metrics.py:70-73 | updates that are a permutation of each other give the same matrix |
| `Confusion.IgnoredSampleVanishes` | _eval/metrics.py:64-65 | removing an all-ignore update from anywhere in the history leaves the matrix unchanged |
| `Confusion.AllIgnore` | _eval/metrics.py:64 | the all-ignore test on a ground truth: every pixel equals the ignore label, which holds vacuously for an empty map; `Metrics.RunningMIoU.Update` and `Confusion.AccumulateIsSum` state what it switches off |
| `Confusion.Intersection` | _eval/metrics.py:76 | the intersection of class i is the diagonal entry (i, i); bounded by `Confusion.IntersectionWithinUnion` |
| `Confusion.Union` | _eval/metrics.py:77-79 | the union of class i is row sum + column sum − diagonal entry; `Confusion.IntersectionWithinUnion` puts it above the intersection |
| `Confusion.IntersectionWithinUnion` | _eval/metrics.py:76-79 | for every class, 0 ≤ diagonal entry ≤ row sum + column sum − diagonal entry |
| `Confusion.ClassIoU` | _eval/metrics.py:81 | a class's IoU is a number exactly when its union is nonzero, and then lies in [0, 1]; otherwise NaN |
| `Confusion.IoUs` | _eval/metrics.py:81 | the IoU vector has one entry per class, each that class's IoU |
| `Confusion.Mean` | _eval/metrics.py:82 | the mean is a number exactly when the vector is nonempty and NaN-free, and stays in [0, 1] when every entry does |
| `Confusion.MeanIoU` | _eval/metrics.py:76-84 | the mean IoU is a number exactly when there is a class and every union is nonzero, and then lies in [0, 1] |
| `Confusion.PerfectPredictionScoresOne` | _eval/metrics.py:75-84 | with distinct labels, predictions equal to ground truth and every label occurring, the matrix exists and its mean IoU is 1 |
| `Confusion.WorkedExampleMatrix` | _eval/metrics.py:66-73 | gt [0,0,1,1], pred [0,1,1,1], labels [0,1] give the matrix [[1,1],[0,2]] |
| `Confusion.WorkedExampleMeanIoU` | _eval/metrics.py:76-82 | the matrix [[1,1],[0,2]] has mean IoU (1/2 + 2/3)/2 |
| `Accuracy.Correct` | _eval/metrics.py:94 | the count of matching pixels is at most the length of either map |
| `Accuracy.ImageAccuracy` | _eval/metrics.py:94-95 | per-image accuracy, correct over length, lies in [0, 1] |
| `Accuracy.SumAccuracy` | _eval/metrics.py:93-95 | the running sum after n images lies in [0, n] |
| `Accuracy.MeanAccuracy` | _eval/metrics.py:97-100 | the macro average lies in [0, 1] and is 0 with no image |
| `Accuracy.SumAccuracyPermutation` | _eval/metrics.py:93-95 | the running sum depends only on the multiset of images |
| `Accuracy.MeanAccuracyOrderIndependent` | _eval/metrics.py:93-100 | the same images in any order give the same accuracy |
| `Accuracy.MatchingPixelCountsAsCorrect` | _eval/metrics.py:94-95 | the ignore label gets no special treatment: a pixel equal in both maps, 255 included, adds one correct pixel and one pixel to the denominator |
| `Accuracy.MismatchingPixelNotCorrect` | _eval/metrics.py:94-95 | a pixel that differs between the maps adds nothing to the correct count and one pixel to the denominator |
| `Accuracy.PerfectPredictionIsAccurate` | _eval/metrics.py:97-100 | predictions equal to ground truth give accuracy 1 |
| `Accuracy.WorkedExample` | _eval/metrics.py:94-95 | gt [0,0,1,1] against pred [0,1,1,1] has accuracy 3/4 |
| `Evaluate.ConditionError` | _eval/evaluate.py:98-106 | the failure for one file under one condition, in the order the driver meets it: a missing prediction naming basename and condition, then the IoU update's error, then the accuracy update's error |
| `Evaluate.PhaseFiles` | _eval/evaluate.py:73-76 | the files scored are the val partition's for the phase "val" and the test partition's for any other; `Evaluate.ValPhaseIgnoresTest` and `Evaluate.OtherPhaseIgnoresVal` state each partition's irrelevance |
| `Evaluate.FileError` | _eval/evaluate.py:97-106 | a file fails exactly when it fails under source_only or under uda; source_only is met first |
| `Evaluate.FirstError` | _eval/evaluate.py:94-106 | the first failure met while scoring the files in order; `Evaluate.FirstErrorNoneIff` and `Evaluate.FirstErrorIsEarliest` state what it is |
| `Evaluate.FirstErrorIsEarliest` | _eval/evaluate.py:94-106 | when files before index k all pass and file k fails, the run's failure is file k's |
| `Evaluate.ConditionReport` | _eval/evaluate.py:113-116 | one condition's entry fails exactly when every ground truth was all-ignore, with the no-matrix error; otherwise it has exactly the keys `mIoU` and `Acc`, and `Acc` is the macro average of the updates |
| `Evaluate.Scored` | _eval/evaluate.py:69-118 | the outcome of the driver as a function of its inputs: the partition and condition checks in source order, then the first failing file, then the report; the method `Evaluate.Evaluate` is proved to return it and the lemmas below state its properties |
| `Evaluate.Pairs` | _eval/evaluate.py:94-106 | one update per ground-truth file, in order, carrying its labels and the prediction of the same basename |
| `Evaluate.FirstErrorNoneIff` | _eval/evaluate.py:94-106 | the loop over files finishes without failure exactly when no file fails under either condition |
| `Evaluate.CleanFilesArePaired` | _eval/evaluate.py:94-106 | when no file fails, every file has a prediction under both conditions of the same length as its ground truth, and every update is nonempty, so every update is accepted |
| `Evaluate.SameGroundTruths` | _eval/evaluate.py:94-106 | both conditions' IoU trackers see the same ground truths, so the uda mean IoU exists exactly when the source_only one does |
| `Evaluate.ScoreCondition` | _eval/evaluate.py:98-106 | the failure is `ConditionError`; on success both trackers of the condition got exactly one more update, the same pair |
| `Evaluate.ScoreFile` | _eval/evaluate.py:98-106 | the failure is the file's `FileError`, source_only first; on success each of the four trackers got exactly one more update, its condition's pair |
| `Evaluate.FilesStep` | _eval/evaluate.py:94-106 | one more file: the first failure so far is this file's, and it is the run's; with none, both conditions' updates grow by this file's pair |
| `Evaluate.ScoreFiles` | _eval/evaluate.py:94-106 | the loop returns the first failure in file order; on success each condition's two trackers got exactly the updates `Pairs` of the files |
| `Evaluate.Evaluate` | _eval/evaluate.py:69-118 | the imperative driver returns exactly `Scored`: a missing val/test partition aborts, only "val" picks val, a missing source_only/uda aborts before any update, then scoring and the report |
| `Evaluate.MissingPredictionMeansNoReport` | _eval/evaluate.py:98-100 | a phase file with no prediction under either condition makes the run fail, so no report is returned |
| `Evaluate.MissingPredictionIsNamed` | _eval/evaluate.py:99-100 | a missing-prediction failure names a condition of the submission, under which the basename is absent, and a basename of one of the phase's files |
| `Evaluate.EmptyPhaseFails` | _eval/evaluate.py:111-116 | a phase with no ground-truth file fails when the source_only mean IoU is asked for |
| `Evaluate.SuccessIsClean` | _eval/evaluate.py:69-100 | a successful run had both partitions and both conditions and no phase file without a prediction |
| `Evaluate.ReportContents` | _eval/evaluate.py:108-118 | a report has exactly the keys `<phase>_source_only` and `<phase>_uda`, each the entry built from that condition's updates, which pair every phase file |
| `Evaluate.ConditionReportContents` | _eval/evaluate.py:113-116 | each entry maps exactly `mIoU` to the IoU tracker's result and `Acc` to the accuracy tracker's result |
| `Evaluate.ValPhaseIgnoresTest` | _eval/evaluate.py:73-74 | the phase "val" gives the same outcome whatever the test partition holds |
| `Evaluate.OtherPhaseIgnoresVal` | _eval/evaluate.py:75-76 | any other phase gives the same outcome whatever the val partition holds |
| `Evaluate.PairsPermutation` | _eval/evaluate.py:94-106 | reordering the files reorders the updates and keeps every file paired |
| `Evaluate.CleanInAnyOrder` | _eval/evaluate.py:94-100 | whether some file lacks a prediction does not depend on file order |
| `Evaluate.ConditionReportOrderIndependent` | _eval/evaluate.py:104-116 | one condition's report entry does not depend on file order |
| `Evaluate.FileOrderIrrelevant` | _eval/evaluate.py:70-118 | the listing order of the phase's files changes neither success nor the report |
| `Evaluate.ScoredWhenClean` | _eval/evaluate.py:108-118 | with no failing file and a defined source_only mean IoU, the run reports both conditions' entries |
| `Evaluate.PerfectImageReport` | _eval/evaluate.py:111-116 | a perfect prediction of an image holding every class of range(5) scores mIoU 1 and Acc 1 |
| `Evaluate.SinglePerfectFile` | _eval/evaluate.py:94-118 | a phase with one such file, predicted perfectly under both conditions, reports a perfect score for both |
| `Evaluate.EndToEndVal` | _eval/evaluate.py:69-118 | val holds a.png and test holds b.png, and the submission has only a.png: the val phase reports a perfect score for both conditions |
| `Evaluate.EndToEndTest` | _eval/evaluate.py:98-100 | with the same inputs the test phase fails with a missing prediction naming b.png under source_only |

## Left out

- Zip extraction, temporary directory naming, recursive PNG globbing, PNG decoding, `reshape(-1)`, directory removal, the progress bar and the prints (_eval/evaluate.py:15-18, 59-68, 70-71, 96, 101-103, 121). These are I/O. The archives are replaced by maps, and a label map is already flat.
- The prediction lists built and never used (_eval/evaluate.py:82-83).
- The one-element list wrapping the report under `output["result"]`. The model's report is the dictionary inside it.
- `_eval/test_eval.py`: a command-line wrapper with fixed metadata; it is not part of this model.
- Internals of `sklearn.metrics.confusion_matrix`, including its own error when no label occurs in the ground truth. The call is modelled as a direct pixel count per (label, label) pair.
- The check that inputs are one-dimensional (_eval/metrics.py:11-12). A sequence is one-dimensional by construction.
- Float32 and float64 rounding. Counts are unbounded integers and scores are reals. A class with zero union yields the explicit value `NaN` instead of floating-point 0/0, and `NaN` propagates through the mean as numpy's does.
- `Metrics.PixelAccuracy.Update` rejects an empty image with an `EmptyImage` error and changes nothing. The source instead adds 0/0, which is NaN, to the running sum and poisons every later result.
- `Metrics.AccuracyCheck` is where that rejection is decided: it refuses an empty image, which the source's update accepts.
- `Evaluate.ConditionError` passes that rejection on, so in the driver a run with an empty ground-truth image fails instead of reporting NaN accuracy.
- `Confusion.ConfusionMatrix` gives each label on the axis its own row. With a repeated label on the axis, sklearn's treatment of the duplicate is not modelled. The benchmark's axis, range(5), has no repeats.
- The failures of the source are Python exceptions (an `AssertionError` for a missing partition, `FileNotFoundError`, `ValueError`). They are modelled as values of `EvalError` and `MetricError`, and the trackers are not observable after a failure.
