/**
 * The F-beta cases the test suite pins down with exact values: a class that
 * is neither predicted nor present scores 0, a weighted average whose only
 * supported class is ignored scores 0, and micro F-beta after top-k
 * selection scores 2/3, 5/6, 0, 5/18 and 2/9 (beta = 2) or 2/3, 2/3, 0, 2/9
 * (F1). Each step is a fact of its own so that every proof stays small.
 */
module FBetaExamples {
  import opened Wrappers
  import opened StatScores
  import opened ExampleCounts
  import opened FBetaScore
  import opened Labels
  import opened TopK
  import opened FBetaParams
  import opened FBetaReduce
  import opened FBetaMetric
  import Averages

  /** Scores of the multiclass top-k case: one row per sample. */
  const McScores: seq<seq<real>> := [[0.35, 0.4, 0.25], [0.1, 0.5, 0.4], [0.2, 0.1, 0.7]]
  /** Scores of the multilabel top-k case. */
  const MlScores: seq<seq<real>> := [[0.9, 0.2, 0.75], [0.1, 0.7, 0.8], [0.6, 0.1, 0.7]]

  lemma McTop1Row0() ensures Select([0.35, 0.4, 0.25], 1) == [false, true, false] { assert NoneSet(3) == [false, false, false]; }
  lemma McTop1Row1() ensures Select([0.1, 0.5, 0.4], 1) == [false, true, false] { assert NoneSet(3) == [false, false, false]; }
  lemma McTop1Row2() ensures Select([0.2, 0.1, 0.7], 1) == [false, false, true] { assert NoneSet(3) == [false, false, false]; }

  lemma McTop2Row0() ensures Select([0.35, 0.4, 0.25], 2) == [true, true, false] { McTop1Row0(); }
  lemma McTop2Row1() ensures Select([0.1, 0.5, 0.4], 2) == [false, true, true] { McTop1Row1(); }
  lemma McTop2Row2() ensures Select([0.2, 0.1, 0.7], 2) == [true, false, true] { McTop1Row2(); }

  lemma MlTop1Row0() ensures Select([0.9, 0.2, 0.75], 1) == [true, false, false] { assert NoneSet(3) == [false, false, false]; }
  lemma MlTop1Row1() ensures Select([0.1, 0.7, 0.8], 1) == [false, false, true] { assert NoneSet(3) == [false, false, false]; }
  lemma MlTop1Row2() ensures Select([0.6, 0.1, 0.7], 1) == [false, false, true] { assert NoneSet(3) == [false, false, false]; }
  lemma MlTop2Row0() ensures Select([0.9, 0.2, 0.75], 2) == [true, false, true] { MlTop1Row0(); }
  lemma MlTop2Row1() ensures Select([0.1, 0.7, 0.8], 2) == [false, true, true] { MlTop1Row1(); }
  lemma MlTop2Row2() ensures Select([0.6, 0.1, 0.7], 2) == [true, false, true] { MlTop1Row2(); }

  const McTop1: seq<seq<bool>> := [[false, true, false], [false, true, false], [false, false, true]]
  const McTop2: seq<seq<bool>> := [[true, true, false], [false, true, true], [true, false, true]]
  const MlTop1: seq<seq<bool>> := [[true, false, false], [false, false, true], [false, false, true]]
  const MlTop2: seq<seq<bool>> := [[true, false, true], [false, true, true], [true, false, true]]
  const McTarget: seq<seq<bool>> := [[true, false, false], [false, true, false], [false, false, true]]
  const MlTarget: seq<seq<bool>> := [[false, true, false], [true, true, false], [false, false, false]]

  /** Top-k selection of three samples, row by row. */
  lemma SelectThree(probs: seq<seq<real>>, k: nat, r0: seq<bool>, r1: seq<bool>, r2: seq<bool>)
    requires |probs| == 3 && Select(probs[0], k) == r0 && Select(probs[1], k) == r1 && Select(probs[2], k) == r2
    ensures SelectRows(probs, k) == [r0, r1, r2]
  {
  }

  lemma McSelected1() ensures SelectRows(McScores, 1) == McTop1
  {
    McTop1Row0(); McTop1Row1(); McTop1Row2();
    SelectThree(McScores, 1, McTop1[0], McTop1[1], McTop1[2]);
  }

  lemma McSelected2() ensures SelectRows(McScores, 2) == McTop2
  {
    McTop2Row0(); McTop2Row1(); McTop2Row2();
    SelectThree(McScores, 2, McTop2[0], McTop2[1], McTop2[2]);
  }

  lemma MlSelected1() ensures SelectRows(MlScores, 1) == MlTop1
  {
    MlTop1Row0(); MlTop1Row1(); MlTop1Row2();
    SelectThree(MlScores, 1, MlTop1[0], MlTop1[1], MlTop1[2]);
  }

  lemma MlSelected2() ensures SelectRows(MlScores, 2) == MlTop2
  {
    MlTop2Row0(); MlTop2Row1(); MlTop2Row2();
    SelectThree(MlScores, 2, MlTop2[0], MlTop2[1], MlTop2[2]);
  }

  /** The multiclass target [0, 1, 2] one-hot encoded. */
  lemma McTargetRows() ensures OneHotRows([0, 1, 2], 3) == McTarget
  {
    assert OneHot(0, 3) == [true, false, false];
    assert OneHot(1, 3) == [false, true, false];
    assert OneHot(2, 3) == [false, false, true];
  }

  lemma AllLabels() ensures LabelSet(3, None) == [0, 1, 2]
  {
    assert Range(3) == [0, 1, 2];
  }

  // The totals of each case: true positives, predicted positives, support.

  lemma McHits1() ensures HitCells(McTop1, McTarget, [0, 1, 2]) == 2 { }
  lemma McHits2() ensures HitCells(McTop2, McTarget, [0, 1, 2]) == 3 { }
  lemma MlHits1() ensures HitCells(MlTop1, MlTarget, [0, 1, 2]) == 0 { }
  lemma MlHits2() ensures HitCells(MlTop2, MlTarget, [0, 1, 2]) == 1 { }
  lemma McPredicted1() ensures SetCells(McTop1, [0, 1, 2]) == 3 { }
  lemma McPredicted2() ensures SetCells(McTop2, [0, 1, 2]) == 6 { }
  lemma MlPredicted2() ensures SetCells(MlTop2, [0, 1, 2]) == 6 { }
  lemma McSupport() ensures SetCells(McTarget, [0, 1, 2]) == 3 { }
  lemma MlSupport() ensures SetCells(MlTarget, [0, 1, 2]) == 3 { }

  /** The score each case is expected to have, from its totals alone. */

  lemma McScoresAs1(beta: real)
    ensures ScoresAs(HitCells(McTop1, McTarget, [0, 1, 2]), SetCells(McTop1, [0, 1, 2]), SetCells(McTarget, [0, 1, 2]), beta, 2.0 / 3.0)
  {
    McHits1(); McPredicted1(); McSupport();
  }

  lemma McScoresAs2()
    ensures ScoresAs(HitCells(McTop2, McTarget, [0, 1, 2]), SetCells(McTop2, [0, 1, 2]), SetCells(McTarget, [0, 1, 2]), 2.0, 5.0 / 6.0)
    ensures ScoresAs(HitCells(McTop2, McTarget, [0, 1, 2]), SetCells(McTop2, [0, 1, 2]), SetCells(McTarget, [0, 1, 2]), 1.0, 2.0 / 3.0)
  {
    McHits2(); McPredicted2(); McSupport();
    assert Weight(2.0) == 4.0 && Weight(1.0) == 1.0;
  }

  lemma MlScoresAs2()
    ensures ScoresAs(HitCells(MlTop2, MlTarget, [0, 1, 2]), SetCells(MlTop2, [0, 1, 2]), SetCells(MlTarget, [0, 1, 2]), 2.0, 5.0 / 18.0)
    ensures ScoresAs(HitCells(MlTop2, MlTarget, [0, 1, 2]), SetCells(MlTop2, [0, 1, 2]), SetCells(MlTarget, [0, 1, 2]), 1.0, 2.0 / 9.0)
  {
    MlHits2(); MlPredicted2(); MlSupport();
    assert Weight(2.0) == 4.0 && Weight(1.0) == 1.0;
  }

  /** Micro F-beta of a case from its totals. */
  lemma MicroFromTotals(preds: seq<seq<bool>>, target: seq<seq<bool>>, beta: real, q: real)
    requires |preds| == |target|
    requires ScoresAs(HitCells(preds, target, [0, 1, 2]), SetCells(preds, [0, 1, 2]), SetCells(target, [0, 1, 2]), beta, q)
    ensures FBetaReduce.Micro(preds, target, [0, 1, 2], beta) == q
  {
    var c := MicroCounts(preds, target, [0, 1, 2]);
    MicroHits(preds, target, [0, 1, 2]);
    MicroPredicted(preds, target, [0, 1, 2]);
    MicroSupport(preds, target, [0, 1, 2]);
    FBetaFromTotals(c, beta, HitCells(preds, target, [0, 1, 2]), SetCells(preds, [0, 1, 2]), SetCells(target, [0, 1, 2]), q);
  }

  /** Micro F-beta of a case without a true positive. */
  lemma MicroWithoutHits(preds: seq<seq<bool>>, target: seq<seq<bool>>, beta: real)
    requires |preds| == |target| && HitCells(preds, target, [0, 1, 2]) == 0
    ensures FBetaReduce.Micro(preds, target, [0, 1, 2], beta) == 0.0
  {
    MicroHits(preds, target, [0, 1, 2]);
  }

  /**
   * The functional metric with `micro` averaging over three classes, on the
   * rows a top-k selection produced: the configuration is accepted and the
   * result is micro F-beta over the labels 0, 1, 2.
   */
  lemma MicroOfThree(preds: seq<seq<bool>>, target: seq<seq<bool>>, beta: real)
    requires |preds| == |target|
    ensures FBetaOf(preds, target, beta, Some("micro"), None, Some(3), None) == Success(Scalar(FBetaReduce.Micro(preds, target, [0, 1, 2], beta)))
  {
    assert Validate(Some("micro"), None, Some(3), None) == Success(Config(Average.Micro, None, Some(3), None));
    AllLabels();
  }

  /** Multiclass, top-1: micro F-beta is 2/3 whatever beta. */
  lemma TopKMulticlass1(beta: real)
    ensures FBetaOf(SelectRows(McScores, 1), OneHotRows([0, 1, 2], 3), beta, Some("micro"), None, Some(3), None)
            == Success(Scalar(2.0 / 3.0))
  {
    McSelected1();
    McTargetRows();
    McScoresAs1(beta);
    MicroFromTotals(McTop1, McTarget, beta, 2.0 / 3.0);
    MicroOfThree(McTop1, McTarget, beta);
  }

  /** Multiclass, top-2: 5/6 with beta = 2. */
  lemma TopKMulticlass2()
    ensures FBetaOf(SelectRows(McScores, 2), OneHotRows([0, 1, 2], 3), 2.0, Some("micro"), None, Some(3), None)
            == Success(Scalar(5.0 / 6.0))
  {
    McSelected2();
    McTargetRows();
    McScoresAs2();
    MicroFromTotals(McTop2, McTarget, 2.0, 5.0 / 6.0);
    MicroOfThree(McTop2, McTarget, 2.0);
  }

  /** Multiclass, top-2: 2/3 for F1. */
  lemma TopKMulticlass2F1()
    ensures FBetaOf(SelectRows(McScores, 2), OneHotRows([0, 1, 2], 3), 1.0, Some("micro"), None, Some(3), None)
            == Success(Scalar(2.0 / 3.0))
  {
    McSelected2();
    McTargetRows();
    McScoresAs2();
    MicroFromTotals(McTop2, McTarget, 1.0, 2.0 / 3.0);
    MicroOfThree(McTop2, McTarget, 1.0);
  }

  /** Multilabel, top-1: no true positive, so 0 whatever beta. */
  lemma TopKMultilabel1(beta: real)
    ensures FBetaOf(SelectRows(MlScores, 1), MlTarget, beta, Some("micro"), None, Some(3), None) == Success(Scalar(0.0))
  {
    MlSelected1();
    MlHits1();
    MicroWithoutHits(MlTop1, MlTarget, beta);
    MicroOfThree(MlTop1, MlTarget, beta);
  }

  /** Multilabel, top-2: 5/18 with beta = 2. */
  lemma TopKMultilabel2()
    ensures FBetaOf(SelectRows(MlScores, 2), MlTarget, 2.0, Some("micro"), None, Some(3), None) == Success(Scalar(5.0 / 18.0))
  {
    MlSelected2();
    MlScoresAs2();
    MicroFromTotals(MlTop2, MlTarget, 2.0, 5.0 / 18.0);
    MicroOfThree(MlTop2, MlTarget, 2.0);
  }

  /** Multilabel, top-2: 2/9 for F1. */
  lemma TopKMultilabel2F1()
    ensures FBetaOf(SelectRows(MlScores, 2), MlTarget, 1.0, Some("micro"), None, Some(3), None) == Success(Scalar(2.0 / 9.0))
  {
    MlSelected2();
    MlScoresAs2();
    MicroFromTotals(MlTop2, MlTarget, 1.0, 2.0 / 9.0);
    MicroOfThree(MlTop2, MlTarget, 1.0);
  }

  /** No one-hot row of labels other than `c` sets column `c`. */
  lemma OneHotColumnUnset(labels: seq<int>, numClasses: nat, c: nat)
    requires c !in labels
    ensures ColumnCount(OneHotRows(labels, numClasses), c) == 0
  {
    var m := OneHotRows(labels, numClasses);
    forall i | 0 <= i < |m|
      ensures !At(m[i], c)
    {
      assert labels[i] != c;
    }
    ColumnUnset(m, c);
  }

  /**
   * With no averaging, a class that is never predicted scores 0 (not NaN),
   * whether or not it occurs in the target.
   */
  lemma UnpredictedScoresZero(predLabels: seq<int>, targetLabels: seq<int>, numClasses: nat, ignore: Option<int>, beta: real, c: nat)
    requires |predLabels| == |targetLabels| && numClasses != 1 && c < numClasses && ignore != Some(c) && c !in predLabels
    ensures var r := ReferenceScore(OneHotRows(predLabels, numClasses), OneHotRows(targetLabels, numClasses), numClasses, NoAverage, ignore, beta);
            r.PerClass? && |r.values| == numClasses && r.values[c] == Some(0.0)
  {
    var preds, target := OneHotRows(predLabels, numClasses), OneHotRows(targetLabels, numClasses);
    ReferencePerClass(preds, target, numClasses, ignore, beta, c);
    OneHotColumnUnset(predLabels, numClasses, c);
    ClassPredicted(preds, target, c);
  }

  /**
   * `weighted` averaging when every target is the ignored class: no label
   * left has any support, the weights sum to 0, and the score is 0 (not NaN).
   */
  lemma OnlyIgnoredSupported(predLabels: seq<int>, targetLabels: seq<int>, numClasses: nat, v: nat, beta: real)
    requires |predLabels| == |targetLabels| && numClasses != 1 && v < numClasses
    requires forall i :: 0 <= i < |targetLabels| ==> targetLabels[i] == v
    ensures ReferenceScore(OneHotRows(predLabels, numClasses), OneHotRows(targetLabels, numClasses), numClasses, Weighted, Some(v), beta)
            == Scalar(0.0)
  {
    var preds, target := OneHotRows(predLabels, numClasses), OneHotRows(targetLabels, numClasses);
    var labels := LabelSet(numClasses, Some(v));
    forall j | 0 <= j < |labels|
      ensures Support(ClassCounts(preds, target, labels[j])) == 0
    {
      LabelSetMembers(numClasses, Some(v), labels[j]);
      assert labels[j] != v;
      OneHotColumnUnset(targetLabels, numClasses, labels[j]);
      ClassSupport(preds, target, labels[j]);
    }
  }

  /**
   * Class 0 is neither predicted nor present (predictions 1, 2, 1, 1 against
   * targets 2, 1, 2, 1): with no averaging its score is 0.
   */
  lemma ZeroDivision(beta: real)
    ensures var r := FBetaOf(OneHotRows([1, 2, 1, 1], 3), OneHotRows([2, 1, 2, 1], 3), beta, Some("none"), None, Some(3), None);
            r.Success? && r.value.PerClass? && |r.value.values| == 3 && r.value.values[0] == Some(0.0)
  {
    assert Validate(Some("none"), None, Some(3), None) == Success(Config(NoAverage, None, Some(3), None));
    UnpredictedScoresZero([1, 2, 1, 1], [2, 1, 2, 1], 3, None, beta, 0);
  }

  /** Only class 0 occurs in the target and it is ignored: `weighted` scores 0. */
  lemma NoSupport(beta: real)
    ensures FBetaOf(OneHotRows([1, 1, 0, 0], 2), OneHotRows([0, 0, 0, 0], 2), beta, Some("weighted"), None, Some(2), Some(0))
            == Success(Scalar(0.0))
  {
    assert Validate(Some("weighted"), None, Some(2), Some(0)) == Success(Config(Weighted, None, Some(2), Some(0)));
    OnlyIgnoredSupported([1, 1, 0, 0], [0, 0, 0, 0], 2, 0, beta);
  }
}
