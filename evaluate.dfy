/** The scoring driver: checks the layout of the ground truth and of the
    submission, selects the phase, pairs every ground-truth label map with the
    prediction of the same basename under each condition, feeds each pair to
    that condition's two trackers and assembles the report. Archives, PNG
    files and directories are replaced by the maps below. */
module Evaluate {
  import opened Types
  import opened Confusion
  import opened Accuracy
  import opened Metrics

  /** The benchmark's class axis, range(5). */
  const CLASSES: seq<int> := [0, 1, 2, 3, 4]

  const VAL := "val"
  const TEST := "test"
  const SOURCE_ONLY := "source_only"
  const UDA := "uda"
  const MIOU := "mIoU"
  const ACC := "Acc"

  /** A ground-truth label map found under a partition, with its basename. */
  datatype GtFile = GtFile(basename: string, labels: LabelMap)

  /** The unpacked ground truth: top-level entry name to the label maps found
      under it, in listing order (basenames may repeat across sub-folders). */
  type GroundTruth = map<string, seq<GtFile>>

  /** One condition's predictions: basename to the label map stored at
      <condition>/<basename>. */
  type Predictions = map<string, LabelMap>

  /** The unpacked submission: top-level entry name to its predictions. */
  type Submission = map<string, Predictions>

  /** Phase-qualified condition name to metric name to score. */
  type Report = map<string, map<string, Score>>

  datatype EvalError =
    | MissingPartition                                        // ground truth lacks val or test
    | MissingCondition(condition: string)                     // submission lacks a condition
    | PredictionNotFound(basename: string, condition: string) // no <condition>/<basename>
    | Metric(error: MetricError)                              // a tracker raised

  /** Only the literal "val" selects the val partition; any other phase
      scores the test partition. */
  function PhaseFiles(gt: GroundTruth, phase: string): seq<GtFile>
    requires VAL in gt && TEST in gt
  {
    if phase == VAL then gt[VAL] else gt[TEST]
  }

  /** The failure, if any, met while scoring f under one condition, in the
      order the driver meets them: the lookup of the prediction, the IoU
      tracker's update, then the accuracy tracker's update. */
  function ConditionError(f: GtFile, condition: string, preds: Predictions): Option<EvalError>
  {
    if f.basename !in preds then Some(PredictionNotFound(f.basename, condition))
    else
      var pred := preds[f.basename];
      match CheckShape(f.labels, pred)
      case Some(e) => Some(Metric(e))
      case None =>
        match AccuracyCheck(f.labels, pred)
        case Some(e) => Some(Metric(e))
        case None => None
  }

  predicate HasConditions(sub: Submission)
  {
    SOURCE_ONLY in sub && UDA in sub
  }

  /** The failure, if any, met while scoring f: source_only first, then uda. */
  function FileError(f: GtFile, sub: Submission): (r: Option<EvalError>)
    requires HasConditions(sub)
    ensures r.None? <==>
              ConditionError(f, SOURCE_ONLY, sub[SOURCE_ONLY]).None? &&
              ConditionError(f, UDA, sub[UDA]).None?
  {
    var e := ConditionError(f, SOURCE_ONLY, sub[SOURCE_ONLY]);
    if e.Some? then e else ConditionError(f, UDA, sub[UDA])
  }

  /** The first failure met while scoring the files in order. */
  function FirstError(files: seq<GtFile>, sub: Submission): Option<EvalError>
    requires HasConditions(sub)
  {
    if files == [] then None
    else
      var e := FirstError(files[..|files| - 1], sub);
      if e.Some? then e else FileError(files[|files| - 1], sub)
  }

  predicate Paired(files: seq<GtFile>, preds: Predictions)
  {
    forall f | f in files :: f.basename in preds
  }

  /** The updates one condition's trackers receive: one per ground-truth
      file, carrying its labels and the prediction of the same basename. */
  function Pairs(files: seq<GtFile>, preds: Predictions): (s: seq<Sample>)
    requires Paired(files, preds)
    ensures |s| == |files|
    ensures forall k :: 0 <= k < |files| ==> s[k] == Sample(files[k].labels, preds[files[k].basename])
  {
    if files == [] then []
    else
      var f := files[|files| - 1];
      Pairs(files[..|files| - 1], preds) + [Sample(f.labels, preds[f.basename])]
  }

  /** One condition's entry of the report, from the updates its trackers got. */
  function ConditionReport(s: seq<Sample>): (r: Result<map<string, Score>, EvalError>)
    requires AllNonEmpty(s)
    ensures r.Err? <==> AllIgnored(DEFAULT_IGNORE_LABEL, s)
    ensures r.Err? ==> r.error == Metric(NoConfusionMatrix)
    ensures r.Ok? ==> r.value.Keys == {MIOU, ACC} && r.value[ACC] == Num(MeanAccuracy(s))
  {
    match MeanIoUAfter(CLASSES, DEFAULT_IGNORE_LABEL, s)
    case Err(e) => Err(Metric(e))
    case Ok(miou) => Ok(map[MIOU := miou, ACC := Num(MeanAccuracy(s))])
  }

  /** No failure over the files exactly when no file fails. */
  lemma {:induction false} FirstErrorNoneIff(files: seq<GtFile>, sub: Submission)
    requires HasConditions(sub)
    ensures FirstError(files, sub).None? <==> forall k :: 0 <= k < |files| ==> FileError(files[k], sub).None?
  {
    if files != [] {
      var init := files[..|files| - 1];
      FirstErrorNoneIff(init, sub);
      assert forall k :: 0 <= k < |init| ==> init[k] == files[k];
    }
  }

  /** The run's failure is that of the earliest failing file. */
  lemma {:induction false} FirstErrorIsEarliest(files: seq<GtFile>, sub: Submission, k: nat)
    requires HasConditions(sub) && k < |files| && FileError(files[k], sub).Some?
    requires forall j :: 0 <= j < k ==> FileError(files[j], sub).None?
    ensures FirstError(files, sub) == FileError(files[k], sub)
  {
    var init := files[..|files| - 1];
    assert forall j :: 0 <= j < |init| ==> init[j] == files[j];
    if k == |files| - 1 {
      FirstErrorNoneIff(init, sub);
    } else {
      FirstErrorIsEarliest(init, sub, k);
    }
  }

  /** When no file fails, every file has a prediction under both conditions
      of its own length, and every update its trackers get is accepted. */
  lemma CleanFilesArePaired(files: seq<GtFile>, sub: Submission)
    requires HasConditions(sub) && FirstError(files, sub).None?
    ensures Paired(files, sub[SOURCE_ONLY]) && Paired(files, sub[UDA])
    ensures forall k :: 0 <= k < |files| ==>
              |sub[SOURCE_ONLY][files[k].basename]| == |files[k].labels| &&
              |sub[UDA][files[k].basename]| == |files[k].labels|
    ensures AllNonEmpty(Pairs(files, sub[SOURCE_ONLY])) && AllNonEmpty(Pairs(files, sub[UDA]))
  {
    FirstErrorNoneIff(files, sub);
    forall k | 0 <= k < |files|
      ensures files[k].basename in sub[SOURCE_ONLY] && files[k].basename in sub[UDA]
      ensures |sub[SOURCE_ONLY][files[k].basename]| == |files[k].labels|
      ensures |sub[UDA][files[k].basename]| == |files[k].labels|
    {
      assert FileError(files[k], sub).None?;
    }
    forall f | f in files
      ensures f.basename in sub[SOURCE_ONLY] && f.basename in sub[UDA] && |f.labels| > 0
    {
      var k :| 0 <= k < |files| && files[k] == f;
      assert FileError(files[k], sub).None?;
    }
  }

  /** Both conditions' trackers see the same ground truths, so the uda mean
      IoU is defined exactly when the source_only one is. */
  lemma SameGroundTruths(files: seq<GtFile>, p: Predictions, q: Predictions)
    requires Paired(files, p) && Paired(files, q)
    ensures AllIgnored(DEFAULT_IGNORE_LABEL, Pairs(files, p)) <==> AllIgnored(DEFAULT_IGNORE_LABEL, Pairs(files, q))
  {
    var sp, sq := Pairs(files, p), Pairs(files, q);
    assert forall k :: 0 <= k < |files| ==> sp[k].gt == files[k].labels == sq[k].gt;
  }

  /** The outcome of one run, stated as a function of its inputs. */
  function Scored(gt: GroundTruth, sub: Submission, phase: string): Result<Report, EvalError>
  {
    if !(VAL in gt && TEST in gt) then Err(MissingPartition)
    else if SOURCE_ONLY !in sub then Err(MissingCondition(SOURCE_ONLY))
    else if UDA !in sub then Err(MissingCondition(UDA))
    else
      var files := PhaseFiles(gt, phase);
      match FirstError(files, sub)
      case Some(e) => Err(e)
      case None =>
        CleanFilesArePaired(files, sub);
        SameGroundTruths(files, sub[SOURCE_ONLY], sub[UDA]);
        var so := ConditionReport(Pairs(files, sub[SOURCE_ONLY]));
        var uda := ConditionReport(Pairs(files, sub[UDA]));
        if so.Err? then Err(so.error)
        else Ok(map[phase + "_source_only" := so.value, phase + "_uda" := uda.value])
  }

  // ---------------------------------------------------------------------------
  // The driver
  // ---------------------------------------------------------------------------

  /** Looks up f's prediction under one condition and feeds the pair to that
      condition's IoU tracker, then to its accuracy tracker. */
  method ScoreCondition(f: GtFile, condition: string, preds: Predictions, iou: RunningMIoU, acc: PixelAccuracy)
    returns (e: Option<EvalError>)
    requires iou.Valid() && acc.Valid()
    modifies iou, acc
    ensures iou.Valid() && acc.Valid()
    ensures e == ConditionError(f, condition, preds)
    ensures e.None? ==> iou.updates == old(iou.updates) + [Sample(f.labels, preds[f.basename])]
    ensures e.None? ==> acc.updates == old(acc.updates) + [Sample(f.labels, preds[f.basename])]
  {
    if f.basename !in preds {
      return Some(PredictionNotFound(f.basename, condition));
    }
    var pred := preds[f.basename];
    var err := iou.Update(f.labels, pred);
    if err.Some? {
      return Some(Metric(err.value));
    }
    err := acc.Update(f.labels, pred);
    if err.Some? {
      return Some(Metric(err.value));
    }
    e := None;
  }

  lemma {:induction false} FirstErrorPersists(files: seq<GtFile>, sub: Submission, i: nat, j: nat)
    requires HasConditions(sub) && i <= j <= |files|
    requires FirstError(files[..i], sub).Some?
    ensures FirstError(files[..j], sub) == FirstError(files[..i], sub)
    decreases j
  {
    if j > i {
      FirstErrorPersists(files, sub, i, j - 1);
      assert files[..j][..j - 1] == files[..j - 1];
    }
  }

  /** Scoring one more file: the first failure is the earlier one, or this
      file's; when there is none, both conditions' updates grow by this
      file's pair. */
  lemma FilesStep(files: seq<GtFile>, sub: Submission, i: nat)
    requires HasConditions(sub) && i < |files|
    requires FirstError(files[..i], sub).None?
    requires Paired(files[..i], sub[SOURCE_ONLY]) && Paired(files[..i], sub[UDA])
    ensures FirstError(files[..i + 1], sub) == FileError(files[i], sub)
    ensures FileError(files[i], sub).Some? ==> FirstError(files, sub) == FileError(files[i], sub)
    ensures FileError(files[i], sub).None? ==>
              Paired(files[..i + 1], sub[SOURCE_ONLY]) && Paired(files[..i + 1], sub[UDA]) &&
              Pairs(files[..i + 1], sub[SOURCE_ONLY]) == Pairs(files[..i], sub[SOURCE_ONLY]) +
                [Sample(files[i].labels, sub[SOURCE_ONLY][files[i].basename])] &&
              Pairs(files[..i + 1], sub[UDA]) == Pairs(files[..i], sub[UDA]) +
                [Sample(files[i].labels, sub[UDA][files[i].basename])]
  {
    var f := files[i];
    assert files[..i + 1] == files[..i] + [f];
    assert files[..i + 1][..i] == files[..i];
    if FileError(f, sub).Some? {
      FirstErrorPersists(files, sub, i + 1, |files|);
      assert files[..|files|] == files;
    }
  }

  /** Scores one ground-truth file: source_only first, then uda. */
  method ScoreFile(f: GtFile, sub: Submission,
                   soIoU: RunningMIoU, soAcc: PixelAccuracy, udaIoU: RunningMIoU, udaAcc: PixelAccuracy)
    returns (e: Option<EvalError>)
    requires HasConditions(sub) && soIoU != udaIoU && soAcc != udaAcc
    requires soIoU.Valid() && soAcc.Valid() && udaIoU.Valid() && udaAcc.Valid()
    modifies soIoU, soAcc, udaIoU, udaAcc
    ensures soIoU.Valid() && soAcc.Valid() && udaIoU.Valid() && udaAcc.Valid()
    ensures e == FileError(f, sub)
    ensures e.None? ==> f.basename in sub[SOURCE_ONLY] && f.basename in sub[UDA]
    ensures e.None? ==> soIoU.updates == old(soIoU.updates) + [Sample(f.labels, sub[SOURCE_ONLY][f.basename])]
    ensures e.None? ==> soAcc.updates == old(soAcc.updates) + [Sample(f.labels, sub[SOURCE_ONLY][f.basename])]
    ensures e.None? ==> udaIoU.updates == old(udaIoU.updates) + [Sample(f.labels, sub[UDA][f.basename])]
    ensures e.None? ==> udaAcc.updates == old(udaAcc.updates) + [Sample(f.labels, sub[UDA][f.basename])]
  {
    e := ScoreCondition(f, SOURCE_ONLY, sub[SOURCE_ONLY], soIoU, soAcc);
    if e.Some? {
      return;
    }
    e := ScoreCondition(f, UDA, sub[UDA], udaIoU, udaAcc);
  }

  /** The loop over the ground-truth files: each file's pair goes to the
      source_only trackers, then to the uda trackers; the first failure stops
      the run. */
  method ScoreFiles(files: seq<GtFile>, sub: Submission,
                    soIoU: RunningMIoU, soAcc: PixelAccuracy, udaIoU: RunningMIoU, udaAcc: PixelAccuracy)
    returns (e: Option<EvalError>)
    requires HasConditions(sub) && soIoU != udaIoU && soAcc != udaAcc
    requires soIoU.Valid() && soAcc.Valid() && udaIoU.Valid() && udaAcc.Valid()
    requires soIoU.updates == soAcc.updates == udaIoU.updates == udaAcc.updates == []
    modifies soIoU, soAcc, udaIoU, udaAcc
    ensures e == FirstError(files, sub)
    ensures soIoU.Valid() && soAcc.Valid() && udaIoU.Valid() && udaAcc.Valid()
    ensures e.None? ==> Paired(files, sub[SOURCE_ONLY]) && Paired(files, sub[UDA])
    ensures e.None? ==> soIoU.updates == soAcc.updates == Pairs(files, sub[SOURCE_ONLY])
    ensures e.None? ==> udaIoU.updates == udaAcc.updates == Pairs(files, sub[UDA])
  {
    var i := 0;
    while i < |files|
      invariant 0 <= i <= |files|
      invariant soIoU.Valid() && soAcc.Valid() && udaIoU.Valid() && udaAcc.Valid()
      invariant FirstError(files[..i], sub).None?
      invariant Paired(files[..i], sub[SOURCE_ONLY]) && Paired(files[..i], sub[UDA])
      invariant soIoU.updates == soAcc.updates == Pairs(files[..i], sub[SOURCE_ONLY])
      invariant udaIoU.updates == udaAcc.updates == Pairs(files[..i], sub[UDA])
    {
      FilesStep(files, sub, i);
      e := ScoreFile(files[i], sub, soIoU, soAcc, udaIoU, udaAcc);
      if e.Some? {
        return;
      }
      i := i + 1;
    }
    assert files[..i] == files;
    e := None;
  }

  /** Scores one run: the partition checks, the phase selection, the four
      trackers fed by the loop over the ground-truth files, and the report. */
  method Evaluate(gt: GroundTruth, sub: Submission, phase: string) returns (r: Result<Report, EvalError>)
    ensures r == Scored(gt, sub, phase)
  {
    if !(VAL in gt && TEST in gt) {
      return Err(MissingPartition);
    }
    var files := if phase == VAL then gt[VAL] else gt[TEST];
    if SOURCE_ONLY !in sub {
      return Err(MissingCondition(SOURCE_ONLY));
    }
    if UDA !in sub {
      return Err(MissingCondition(UDA));
    }
    var soIoU := new RunningMIoU(CLASSES);
    var soAcc := new PixelAccuracy();
    var udaIoU := new RunningMIoU(CLASSES);
    var udaAcc := new PixelAccuracy();
    var e := ScoreFiles(files, sub, soIoU, soAcc, udaIoU, udaAcc);
    if e.Some? {
      return Err(e.value);
    }
    CleanFilesArePaired(files, sub);
    SameGroundTruths(files, sub[SOURCE_ONLY], sub[UDA]);
    var soScore := soIoU.Result();
    if soScore.Err? {
      return Err(Metric(soScore.error));
    }
    var soAccuracy := soAcc.Result();
    var udaScore := udaIoU.Result();
    var udaAccuracy := udaAcc.Result();
    r := Ok(map[phase + "_source_only" := map[MIOU := soScore.value, ACC := Num(soAccuracy)],
                phase + "_uda" := map[MIOU := udaScore.value, ACC := Num(udaAccuracy)]]);
  }

  // ---------------------------------------------------------------------------
  // Properties of a run
  // ---------------------------------------------------------------------------

  /** A ground-truth file of the scored phase with no prediction under one of
      the conditions means the run fails and no report is produced. */
  lemma MissingPredictionMeansNoReport(gt: GroundTruth, sub: Submission, phase: string, k: nat, condition: string)
    requires VAL in gt && TEST in gt && HasConditions(sub)
    requires condition == SOURCE_ONLY || condition == UDA
    requires k < |PhaseFiles(gt, phase)| && PhaseFiles(gt, phase)[k].basename !in sub[condition]
    ensures Scored(gt, sub, phase).Err?
  {
    var files := PhaseFiles(gt, phase);
    FirstErrorNoneIff(files, sub);
    assert FileError(files[k], sub).Some?;
  }

  /** A phase with no ground-truth file leaves every IoU tracker without a
      matrix, so the run fails when the first result is asked for. */
  lemma EmptyPhaseFails(gt: GroundTruth, sub: Submission, phase: string)
    requires VAL in gt && TEST in gt && HasConditions(sub) && PhaseFiles(gt, phase) == []
    ensures Scored(gt, sub, phase) == Err(Metric(NoConfusionMatrix))
  {
    assert Pairs([], sub[SOURCE_ONLY]) == [];
  }

  /** A missing-prediction failure names a basename of one of the files and a
      condition of the submission under which that basename is absent. */
  lemma {:induction false} MissingPredictionIsNamed(files: seq<GtFile>, sub: Submission, basename: string, condition: string)
    requires HasConditions(sub)
    requires FirstError(files, sub) == Some(PredictionNotFound(basename, condition))
    ensures condition == SOURCE_ONLY || condition == UDA
    ensures basename !in sub[condition]
    ensures exists k :: 0 <= k < |files| && files[k].basename == basename
  {
    var init := files[..|files| - 1];
    if FirstError(init, sub).Some? {
      MissingPredictionIsNamed(init, sub, basename, condition);
      var k :| 0 <= k < |init| && init[k].basename == basename;
      assert files[k] == init[k];
    } else {
      assert files[|files| - 1].basename == basename;
    }
  }

  lemma TwoEntries<V>(k1: string, k2: string, v1: V, v2: V)
    requires |k1| != |k2|
    ensures var m := map[k1 := v1, k2 := v2];
            m.Keys == {k1, k2} && m[k1] == v1 && m[k2] == v2
  {
  }

  /** A successful run means both partitions and both conditions exist and
      no ground-truth file of the phase fails. */
  lemma SuccessIsClean(gt: GroundTruth, sub: Submission, phase: string)
    requires Scored(gt, sub, phase).Ok?
    ensures VAL in gt && TEST in gt && HasConditions(sub)
    ensures FirstError(PhaseFiles(gt, phase), sub).None?
  {
  }

  /** A report has exactly the two phase-qualified condition keys, each
      holding the entry built from that condition's updates, which are one
      pair per file of the phase. */
  lemma ReportContents(gt: GroundTruth, sub: Submission, phase: string)
    requires Scored(gt, sub, phase).Ok?
    ensures VAL in gt && TEST in gt && HasConditions(sub)
    ensures var files := PhaseFiles(gt, phase);
            var report := Scored(gt, sub, phase).value;
            Paired(files, sub[SOURCE_ONLY]) && Paired(files, sub[UDA]) &&
            AllNonEmpty(Pairs(files, sub[SOURCE_ONLY])) && AllNonEmpty(Pairs(files, sub[UDA])) &&
            report.Keys == {phase + "_source_only", phase + "_uda"} &&
            ConditionReport(Pairs(files, sub[SOURCE_ONLY])) == Ok(report[phase + "_source_only"]) &&
            ConditionReport(Pairs(files, sub[UDA])) == Ok(report[phase + "_uda"])
  {
    SuccessIsClean(gt, sub, phase);
    ScoredWhenClean(gt, sub, phase);
    var files := PhaseFiles(gt, phase);
    var so := ConditionReport(Pairs(files, sub[SOURCE_ONLY]));
    var uda := ConditionReport(Pairs(files, sub[UDA]));
    assert so.Ok?;
    TwoEntries(phase + "_source_only", phase + "_uda", so.value, uda.value);
  }

  /** Each entry of a condition's report holds exactly the two metrics: the
      IoU tracker's result and the accuracy tracker's result. */
  lemma ConditionReportContents(s: seq<Sample>)
    requires AllNonEmpty(s) && ConditionReport(s).Ok?
    ensures ConditionReport(s).value.Keys == {MIOU, ACC}
    ensures MeanIoUAfter(CLASSES, DEFAULT_IGNORE_LABEL, s) == Ok(ConditionReport(s).value[MIOU])
    ensures ConditionReport(s).value[ACC] == Num(MeanAccuracy(s))
  {
  }

  /** The phase "val" scores the val partition and never looks at test. */
  lemma ValPhaseIgnoresTest(gt: GroundTruth, sub: Submission, other: seq<GtFile>)
    requires VAL in gt && TEST in gt
    ensures Scored(gt[TEST := other], sub, VAL) == Scored(gt, sub, VAL)
  {
    assert PhaseFiles(gt[TEST := other], VAL) == PhaseFiles(gt, VAL);
  }

  /** Any phase other than the literal "val" scores the test partition and
      never looks at val. */
  lemma OtherPhaseIgnoresVal(gt: GroundTruth, sub: Submission, phase: string, other: seq<GtFile>)
    requires VAL in gt && TEST in gt && phase != VAL
    ensures Scored(gt[VAL := other], sub, phase) == Scored(gt, sub, phase)
  {
    assert PhaseFiles(gt[VAL := other], phase) == PhaseFiles(gt, phase);
  }

  lemma PairsConcat(a: seq<GtFile>, b: seq<GtFile>, preds: Predictions)
    requires Paired(a, preds) && Paired(b, preds)
    ensures Paired(a + b, preds)
    ensures Pairs(a + b, preds) == Pairs(a, preds) + Pairs(b, preds)
  {
    var l, r := Pairs(a + b, preds), Pairs(a, preds) + Pairs(b, preds);
    assert |l| == |r|;
    forall k | 0 <= k < |l|
      ensures l[k] == r[k]
    {
      if k < |a| {
        assert (a + b)[k] == a[k];
      } else {
        assert (a + b)[k] == b[k - |a|];
      }
    }
  }

  lemma PairedSubset(files: seq<GtFile>, files': seq<GtFile>, preds: Predictions)
    requires multiset(files') <= multiset(files) && Paired(files, preds)
    ensures Paired(files', preds)
  {
    forall f | f in files'
      ensures f.basename in preds
    {
      assert f in multiset(files');
    }
  }

  /** Taking the file at j out of the list takes its pair out of the
      updates. */
  lemma PairsRemoveAt(t: seq<GtFile>, j: nat, preds: Predictions)
    requires Paired(t, preds) && j < |t|
    ensures Paired(t[..j] + t[j + 1..], preds)
    ensures multiset(Pairs(t, preds)) ==
            multiset(Pairs(t[..j] + t[j + 1..], preds)) + multiset{Sample(t[j].labels, preds[t[j].basename])}
  {
    var left, x, right := t[..j], t[j], t[j + 1..];
    SplitAt(t, j);
    assert forall f | f in left || f in right || f == x :: f in t;
    PairsConcat(left, [x], preds);
    PairsConcat(left + [x], right, preds);
    PairsConcat(left, right, preds);
    var l, m, r := Pairs(left, preds), Pairs([x], preds), Pairs(right, preds);
    assert Pairs(t, preds) == l + m + r;
    assert Pairs(left + right, preds) == l + r;
    assert m == [Sample(x.labels, preds[x.basename])];
    MultisetAround(l, m, r);
  }

  /** Reordering the files reorders the updates the trackers receive. */
  lemma {:induction false} PairsPermutation(files: seq<GtFile>, files': seq<GtFile>, preds: Predictions)
    requires multiset(files) == multiset(files') && Paired(files, preds)
    ensures Paired(files', preds)
    ensures multiset(Pairs(files, preds)) == multiset(Pairs(files', preds))
    decreases |files|
  {
    PairedSubset(files, files', preds);
    if files == [] {
      assert |files'| == |multiset(files')| == 0;
    } else {
      var x, init := files[|files| - 1], files[..|files| - 1];
      RemoveLast(files);
      assert x in multiset(files');
      var j :| 0 <= j < |files'| && files'[j] == x;
      RemoveAt(files', j);
      PairsRemoveAt(files, |files| - 1, preds);
      PairsRemoveAt(files', j, preds);
      assert files[..|files| - 1] + files[|files|..] == init;
      PairsPermutation(init, files'[..j] + files'[j + 1..], preds);
    }
  }

  /** A failure-free set of files stays failure-free in any order. */
  lemma CleanInAnyOrder(files: seq<GtFile>, files': seq<GtFile>, sub: Submission)
    requires HasConditions(sub) && multiset(files) == multiset(files')
    ensures FirstError(files, sub).None? <==> FirstError(files', sub).None?
  {
    FirstErrorNoneIff(files, sub);
    FirstErrorNoneIff(files', sub);
    forall k | 0 <= k < |files'| ensures files'[k] in files {
      assert files'[k] in multiset(files);
    }
    forall k | 0 <= k < |files| ensures files[k] in files' {
      assert files[k] in multiset(files');
    }
  }

  lemma ConditionReportOrderIndependent(files: seq<GtFile>, files': seq<GtFile>, preds: Predictions)
    requires multiset(files) == multiset(files') && Paired(files, preds) && AllNonEmpty(Pairs(files, preds))
    ensures Paired(files', preds) && AllNonEmpty(Pairs(files', preds))
    ensures ConditionReport(Pairs(files, preds)) == ConditionReport(Pairs(files', preds))
  {
    var s := Pairs(files, preds);
    PairsPermutation(files, files', preds);
    var s' := Pairs(files', preds);
    MeanIoUAfterOrderIndependent(CLASSES, DEFAULT_IGNORE_LABEL, s, s');
    MeanAccuracyOrderIndependent(s, s');
  }

  /** The order in which the ground-truth files of the phase are listed does
      not change whether the run succeeds nor the report it produces. */
  lemma FileOrderIrrelevant(gt: GroundTruth, gt': GroundTruth, sub: Submission, phase: string)
    requires VAL in gt && TEST in gt && VAL in gt' && TEST in gt'
    requires multiset(PhaseFiles(gt, phase)) == multiset(PhaseFiles(gt', phase))
    ensures Scored(gt, sub, phase).Ok? <==> Scored(gt', sub, phase).Ok?
    ensures Scored(gt, sub, phase).Ok? ==> Scored(gt, sub, phase) == Scored(gt', sub, phase)
  {
    if HasConditions(sub) {
      var files, files' := PhaseFiles(gt, phase), PhaseFiles(gt', phase);
      CleanInAnyOrder(files, files', sub);
      if FirstError(files, sub).None? {
        CleanFilesArePaired(files, sub);
        CleanFilesArePaired(files', sub);
        ConditionReportOrderIndependent(files, files', sub[SOURCE_ONLY]);
        ConditionReportOrderIndependent(files, files', sub[UDA]);
      }
    }
  }

  /** A run with both partitions, both conditions, every prediction found
      and a defined source_only mean IoU reports both conditions' entries. */
  lemma ScoredWhenClean(gt: GroundTruth, sub: Submission, phase: string)
    requires VAL in gt && TEST in gt && HasConditions(sub)
    requires FirstError(PhaseFiles(gt, phase), sub).None?
    ensures var files := PhaseFiles(gt, phase);
            Paired(files, sub[SOURCE_ONLY]) && Paired(files, sub[UDA]) &&
            AllNonEmpty(Pairs(files, sub[SOURCE_ONLY])) && AllNonEmpty(Pairs(files, sub[UDA]))
    ensures var files := PhaseFiles(gt, phase);
            var so := ConditionReport(Pairs(files, sub[SOURCE_ONLY]));
            var uda := ConditionReport(Pairs(files, sub[UDA]));
            so.Ok? ==> uda.Ok? && Scored(gt, sub, phase) == Ok(map[phase + "_source_only" := so.value, phase + "_uda" := uda.value])
  {
    var files := PhaseFiles(gt, phase);
    CleanFilesArePaired(files, sub);
    SameGroundTruths(files, sub[SOURCE_ONLY], sub[UDA]);
  }

  /** A label map holding every class of the benchmark once. */
  const EXAMPLE_LABELS: LabelMap := [0, 1, 2, 3, 4]

  /** One val file a.png and one test file b.png. */
  const EXAMPLE_GROUND_TRUTH: GroundTruth :=
    map[VAL := [GtFile("a.png", EXAMPLE_LABELS)], TEST := [GtFile("b.png", EXAMPLE_LABELS)]]

  /** Predictions for a.png only, equal to its ground truth, under both
      conditions. */
  const EXAMPLE_SUBMISSION: Submission :=
    map[SOURCE_ONLY := map["a.png" := EXAMPLE_LABELS], UDA := map["a.png" := EXAMPLE_LABELS]]

  /** A perfect prediction of an image in which every class occurs scores 1
      on both metrics. */
  lemma PerfectImageReport(x: LabelMap)
    requires forall i :: 0 <= i < |CLASSES| ==> CLASSES[i] in x
    ensures AllNonEmpty([Sample(x, x)])
    ensures ConditionReport([Sample(x, x)]) == Ok(map[MIOU := Num(1.0), ACC := Num(1.0)])
  {
    var s := [Sample(x, x)];
    assert CLASSES[0] in x;
    assert Distinct(CLASSES);
    forall i | 0 <= i < |CLASSES|
      ensures Occurs(s, CLASSES[i])
    {
      var p :| 0 <= p < |x| && x[p] == CLASSES[i];
      assert s[0].gt[p] == CLASSES[i];
    }
    PerfectPredictionScoresOne(CLASSES, DEFAULT_IGNORE_LABEL, s);
    PerfectPredictionIsAccurate(s);
  }

  /** A phase holding a single file in which every class occurs, predicted
      perfectly under both conditions, reports a perfect score for both. */
  lemma SinglePerfectFile(gt: GroundTruth, sub: Submission, phase: string, f: GtFile)
    requires VAL in gt && TEST in gt && HasConditions(sub) && PhaseFiles(gt, phase) == [f]
    requires forall i :: 0 <= i < |CLASSES| ==> CLASSES[i] in f.labels
    requires f.basename in sub[SOURCE_ONLY] && sub[SOURCE_ONLY][f.basename] == f.labels
    requires f.basename in sub[UDA] && sub[UDA][f.basename] == f.labels
    ensures var perfect := map[MIOU := Num(1.0), ACC := Num(1.0)];
            Scored(gt, sub, phase) == Ok(map[phase + "_source_only" := perfect, phase + "_uda" := perfect])
  {
    var files := [f];
    assert files[..0] == [];
    assert CLASSES[0] in f.labels;
    assert FileError(f, sub).None?;
    assert FirstError(files, sub).None?;
    ScoredWhenClean(gt, sub, phase);
    assert Pairs(files, sub[SOURCE_ONLY]) == [Sample(f.labels, f.labels)];
    assert Pairs(files, sub[UDA]) == [Sample(f.labels, f.labels)];
    PerfectImageReport(f.labels);
  }

  /** The val phase of the example pairs a.png and reports a perfect score
      for both conditions. */
  lemma EndToEndVal()
    ensures var perfect := map[MIOU := Num(1.0), ACC := Num(1.0)];
            Scored(EXAMPLE_GROUND_TRUTH, EXAMPLE_SUBMISSION, VAL) == Ok(map[VAL + "_source_only" := perfect, VAL + "_uda" := perfect])
  {
    var gt, sub := EXAMPLE_GROUND_TRUTH, EXAMPLE_SUBMISSION;
    var f := GtFile("a.png", EXAMPLE_LABELS);
    assert PhaseFiles(gt, VAL) == [f];
    assert sub[SOURCE_ONLY] == sub[UDA] == map["a.png" := EXAMPLE_LABELS];
    assert forall i :: 0 <= i < |CLASSES| ==> EXAMPLE_LABELS[i] == CLASSES[i];
    SinglePerfectFile(gt, sub, VAL, f);
  }

  /** The test phase of the example fails on b.png, which has no prediction. */
  lemma EndToEndTest()
    ensures Scored(EXAMPLE_GROUND_TRUTH, EXAMPLE_SUBMISSION, TEST) == Err(PredictionNotFound("b.png", SOURCE_ONLY))
  {
    var files := PhaseFiles(EXAMPLE_GROUND_TRUTH, TEST);
    assert files == [GtFile("b.png", EXAMPLE_LABELS)];
    assert files[..0] == [];
    var sub := EXAMPLE_SUBMISSION;
    assert HasConditions(sub);
    assert "b.png" != "a.png";
    assert "b.png" !in sub[SOURCE_ONLY];
    assert ConditionError(files[0], SOURCE_ONLY, sub[SOURCE_ONLY]) == Some(PredictionNotFound("b.png", SOURCE_ONLY));
    assert FirstError(files, sub) == Some(PredictionNotFound("b.png", SOURCE_ONLY));
  }
}
