/**
 * Reduction of confusion counts to an F-beta result, as the reference score
 * does it: the label set is every class less the ignored one; the counts are
 * scored under the averaging method; with no averaging the per-class scores
 * get a NaN put back at the ignored class so that there is one entry per class.
 * A single class is scored as binary F-beta whatever the averaging method.
 */
module FBetaReduce {
  import opened Wrappers
  import opened StatScores
  import opened FBetaScore
  import opened Labels
  import opened FBetaParams
  import Averages

  /** A reduced score: one number, or one entry per class where `None` is NaN. */
  datatype Score = Scalar(value: real) | PerClass(values: seq<Option<real>>)

  /** Counts of each given label, in label order. */
  function LabelCounts(preds: seq<seq<bool>>, target: seq<seq<bool>>, labels: seq<nat>): (r: seq<Counts>)
    requires |preds| == |target|
    ensures |r| == |labels| && forall j :: 0 <= j < |labels| ==> r[j] == ClassCounts(preds, target, labels[j])
  {
    seq(|labels|, j requires 0 <= j < |labels| => ClassCounts(preds, target, labels[j]))
  }

  /** Counts of each sample over the given labels, in sample order. */
  function EachSampleCounts(preds: seq<seq<bool>>, target: seq<seq<bool>>, labels: seq<nat>): (r: seq<Counts>)
    requires |preds| == |target|
    ensures |r| == |preds| && forall i :: 0 <= i < |preds| ==> r[i] == SampleCounts(preds[i], target[i], labels)
  {
    seq(|preds|, i requires 0 <= i < |preds| => SampleCounts(preds[i], target[i], labels))
  }

  /** F-beta of each set of counts. */
  function Scores(cs: seq<Counts>, beta: real): (r: seq<real>)
    ensures |r| == |cs| && forall j :: 0 <= j < |cs| ==> r[j] == FBeta(cs[j], beta)
    ensures Averages.AllWithin(r, 0.0, 1.0)
  {
    seq(|cs|, j requires 0 <= j < |cs| => FBeta(cs[j], beta))
  }

  /** Support of each set of counts, as a weight. */
  function Supports(cs: seq<Counts>): (r: seq<real>)
    ensures |r| == |cs| && forall j :: 0 <= j < |cs| ==> r[j] == Support(cs[j]) as real
  {
    seq(|cs|, j requires 0 <= j < |cs| => Support(cs[j]) as real)
  }

  /** The counts that take part: of a label predicted or present at least once. */
  function PresentCounts(cs: seq<Counts>): seq<Counts>
  {
    if cs == [] then [] else (if Absent(cs[0]) then [] else [cs[0]]) + PresentCounts(cs[1..])
  }

  /** `micro`: the counts of every label and sample summed, then scored once. */
  function Micro(preds: seq<seq<bool>>, target: seq<seq<bool>>, labels: seq<nat>, beta: real): real
    requires |preds| == |target|
  {
    FBeta(MicroCounts(preds, target, labels), beta)
  }

  /**
   * `macro`: the plain mean of the scores of all given labels, in [0, 1]; 0 when no
   * label is given. A label neither predicted nor present scores 0 and still counts.
   */
  function Macro(preds: seq<seq<bool>>, target: seq<seq<bool>>, labels: seq<nat>, beta: real): (r: real)
    requires |preds| == |target|
    ensures 0.0 <= r <= 1.0
  {
    var scores := Scores(LabelCounts(preds, target, labels), beta);
    Averages.MeanOfShares(scores);
    Averages.Mean(scores)
  }

  /**
   * `weighted`: the mean of the label scores weighted by their support, in
   * [0, 1]; exactly 0 when none of the labels occurs in the target.
   */
  function Weighted(preds: seq<seq<bool>>, target: seq<seq<bool>>, labels: seq<nat>, beta: real): (r: real)
    requires |preds| == |target|
    ensures 0.0 <= r <= 1.0
    ensures (forall j :: 0 <= j < |labels| ==> Support(ClassCounts(preds, target, labels[j])) == 0) ==> r == 0.0
  {
    var cs := LabelCounts(preds, target, labels);
    NoSupportWeights(cs);
    Averages.WeightedMean(Supports(cs), Scores(cs, beta))
  }

  /** Counts without support give weights summing to nothing. */
  lemma NoSupportWeights(cs: seq<Counts>)
    ensures (forall j :: 0 <= j < |cs| ==> Support(cs[j]) == 0) ==> Averages.Sum(Supports(cs)) == 0.0
  {
    if forall j :: 0 <= j < |cs| ==> Support(cs[j]) == 0 {
      Averages.DotNone(Supports(cs), Supports(cs));
    }
  }

  /** `samples`: each sample scored over the labels, then the plain mean, in [0, 1]; 0 for no samples. */
  function Samples(preds: seq<seq<bool>>, target: seq<seq<bool>>, labels: seq<nat>, beta: real): (r: real)
    requires |preds| == |target|
    ensures 0.0 <= r <= 1.0
  {
    var scores := Scores(EachSampleCounts(preds, target, labels), beta);
    Averages.MeanOfShares(scores);
    Averages.Mean(scores)
  }

  /** Numbers wrapped as defined entries. */
  function Defined(xs: seq<real>): (r: seq<Option<real>>)
    ensures |r| == |xs| && forall i :: 0 <= i < |xs| ==> r[i] == Some(xs[i])
  {
    seq(|xs|, i requires 0 <= i < |xs| => Some(xs[i]))
  }

  /** A NaN inserted before position `at`, every other entry defined and in order. */
  function InsertNaN(xs: seq<real>, at: nat): (r: seq<Option<real>>)
    requires at <= |xs|
    ensures |r| == |xs| + 1 && r[at] == None
    ensures forall i :: 0 <= i < at ==> r[i] == Some(xs[i])
    ensures forall i :: at < i <= |xs| ==> r[i] == Some(xs[i - 1])
  {
    Defined(xs[..at]) + [None] + Defined(xs[at..])
  }

  /**
   * One entry per class from one score per label: NaN put back at the ignored
   * class when the label set lacks it.
   */
  function Reinsert(scores: seq<real>, numClasses: nat, ignore: Option<int>): seq<Option<real>>
    requires |scores| == |LabelSet(numClasses, ignore)|
  {
    LabelSetIndex(numClasses, ignore);
    if |scores| != numClasses then InsertNaN(scores, ignore.value) else Defined(scores)
  }

  /**
   * When the score of each label is the score its class has in `byClass`,
   * reinsertion gives `byClass` back with NaN at the ignored class: the NaN
   * lands where that class was, and every other class keeps its position.
   */
  lemma ReinsertIndex(scores: seq<real>, numClasses: nat, ignore: Option<int>, byClass: seq<real>)
    requires |byClass| == numClasses && |scores| == |LabelSet(numClasses, ignore)|
    requires forall j :: 0 <= j < |scores| ==>
               LabelSet(numClasses, ignore)[j] < |byClass| && scores[j] == byClass[LabelSet(numClasses, ignore)[j]]
    ensures var r := Reinsert(scores, numClasses, ignore);
            |r| == numClasses && forall c :: 0 <= c < numClasses ==> r[c] == if ignore == Some(c) then None else Some(byClass[c])
  {
    var labels := LabelSet(numClasses, ignore);
    LabelSetIndex(numClasses, ignore);
    var r := Reinsert(scores, numClasses, ignore);
    forall c | 0 <= c < numClasses
      ensures r[c] == if ignore == Some(c) then None else Some(byClass[c])
    {
      if Ignores(numClasses, ignore) {
        var v := ignore.value;
        if c < v {
          assert labels[c] == c;
        } else if c > v {
          assert labels[c - 1] == c;
        }
      } else {
        assert labels[c] == c;
      }
    }
  }

  /** F-beta of every class 0 .. numClasses - 1, in class order. */
  function ClassScores(preds: seq<seq<bool>>, target: seq<seq<bool>>, numClasses: nat, beta: real): (r: seq<real>)
    requires |preds| == |target|
    ensures |r| == numClasses && forall c :: 0 <= c < numClasses ==> r[c] == FBeta(ClassCounts(preds, target, c), beta)
  {
    Scores(LabelCounts(preds, target, Range(numClasses)), beta)
  }

  /** One entry per class: the scores of the labels, with NaN back at the ignored class. */
  function PerClassScores(preds: seq<seq<bool>>, target: seq<seq<bool>>, numClasses: nat, ignore: Option<int>, beta: real)
    : seq<Option<real>>
    requires |preds| == |target|
  {
    Reinsert(Scores(LabelCounts(preds, target, LabelSet(numClasses, ignore)), beta), numClasses, ignore)
  }

  /**
   * Entry `c` of the per-class result is NaN exactly for the ignored class
   * and otherwise the F-beta of class `c`.
   */
  lemma PerClassScoresIndex(preds: seq<seq<bool>>, target: seq<seq<bool>>, numClasses: nat, ignore: Option<int>, beta: real)
    requires |preds| == |target|
    ensures var r := PerClassScores(preds, target, numClasses, ignore, beta);
            |r| == numClasses
            && forall c :: 0 <= c < numClasses ==>
                 r[c] == if ignore == Some(c) then None else Some(FBeta(ClassCounts(preds, target, c), beta))
  {
    var labels := LabelSet(numClasses, ignore);
    LabelSetIndex(numClasses, ignore);
    var scores := Scores(LabelCounts(preds, target, labels), beta);
    var byClass := ClassScores(preds, target, numClasses, beta);
    forall j | 0 <= j < |scores|
      ensures labels[j] < |byClass| && scores[j] == byClass[labels[j]]
    {
    }
    ReinsertIndex(scores, numClasses, ignore, byClass);
  }

  /**
   * The reference score of canonical predictions and targets. One class is
   * scored as binary F-beta of that class; otherwise the averaging method
   * decides, over the label set.
   */
  function ReferenceScore(preds: seq<seq<bool>>, target: seq<seq<bool>>, numClasses: nat, average: Average,
                          ignore: Option<int>, beta: real): (r: Score)
    requires |preds| == |target|
    ensures r.Scalar? <==> numClasses == 1 || average != NoAverage
    ensures r.Scalar? ==> 0.0 <= r.value <= 1.0
    ensures r.PerClass? ==> |r.values| == numClasses
  {
    PerClassScoresIndex(preds, target, numClasses, ignore, beta);
    if numClasses == 1 then Scalar(FBeta(ClassCounts(preds, target, 0), beta))
    else
      var labels := LabelSet(numClasses, ignore);
      match average
      case Micro => Scalar(Micro(preds, target, labels, beta))
      case Macro => Scalar(Macro(preds, target, labels, beta))
      case Weighted => Scalar(Weighted(preds, target, labels, beta))
      case Samples => Scalar(Samples(preds, target, labels, beta))
      case NoAverage => PerClass(PerClassScores(preds, target, numClasses, ignore, beta))
  }

  /** With no averaging, entry `c` is the score of class `c`, and NaN at the ignored class only. */
  lemma ReferencePerClass(preds: seq<seq<bool>>, target: seq<seq<bool>>, numClasses: nat, ignore: Option<int>, beta: real, c: nat)
    requires |preds| == |target| && numClasses != 1 && c < numClasses
    ensures var r := ReferenceScore(preds, target, numClasses, NoAverage, ignore, beta);
            r.values[c] == if ignore == Some(c) then None else Some(FBeta(ClassCounts(preds, target, c), beta))
  {
    PerClassScoresIndex(preds, target, numClasses, ignore, beta);
  }

  /**
   * A single class is scored as binary F-beta of that class, whatever the averaging
   * method: the same score as micro averaging over that one label.
   */
  lemma ReferenceBinary(preds: seq<seq<bool>>, target: seq<seq<bool>>, average: Average, ignore: Option<int>, beta: real)
    requires |preds| == |target|
    ensures ReferenceScore(preds, target, 1, average, ignore, beta) == Scalar(Micro(preds, target, [0], beta))
  {
    MicroOfOneLabel(preds, target, 0);
  }

  /** F1 is F-beta with beta = 1. */
  function F1(preds: seq<seq<bool>>, target: seq<seq<bool>>, numClasses: nat, average: Average, ignore: Option<int>): Score
    requires |preds| == |target|
  {
    ReferenceScore(preds, target, numClasses, average, ignore, 1.0)
  }

  /** With beta = 1, precision and recall weigh the same: F1 is their plain harmonic mean. */
  lemma F1Harmonic(c: Counts)
    requires c.tp > 0
    ensures Precision(c) + Recall(c) > 0.0
    ensures FBeta(c, 1.0) == 2.0 * Precision(c) * Recall(c) / (Precision(c) + Recall(c))
  {
    assert Weight(1.0) == 1.0;
    HarmonicMean(c, 1.0);
  }

  /** Labels that take no part add nothing to the sum of the scores. */
  lemma {:induction false} SumOverPresent(cs: seq<Counts>, beta: real)
    ensures Averages.Sum(Scores(cs, beta)) == Averages.Sum(Scores(PresentCounts(cs), beta))
  {
    if cs != [] {
      SumOverPresent(cs[1..], beta);
      assert Scores(cs, beta)[1..] == Scores(cs[1..], beta);
      if Absent(cs[0]) {
        assert PresentCounts(cs) == PresentCounts(cs[1..]);
      } else {
        var present := PresentCounts(cs);
        assert present == [cs[0]] + PresentCounts(cs[1..]);
        assert Scores(present, beta)[1..] == Scores(PresentCounts(cs[1..]), beta);
      }
    }
  }

  /**
   * `macro` shares the summed scores of the labels taking part among all given labels:
   * an absent label pulls the mean down as a score of 0 would.
   */
  lemma MacroOverPresent(preds: seq<seq<bool>>, target: seq<seq<bool>>, labels: seq<nat>, beta: real)
    requires |preds| == |target|
    ensures Macro(preds, target, labels, beta) ==
      if labels == [] then 0.0
      else Averages.Sum(Scores(PresentCounts(LabelCounts(preds, target, labels)), beta)) / (|labels| as real)
  {
    SumOverPresent(LabelCounts(preds, target, labels), beta);
  }

  /** When every label takes part, `macro` is also the mean over the labels taking part. */
  lemma MacroAllPresent(preds: seq<seq<bool>>, target: seq<seq<bool>>, labels: seq<nat>, beta: real)
    requires |preds| == |target|
    requires forall j :: 0 <= j < |labels| ==> !Absent(ClassCounts(preds, target, labels[j]))
    ensures Macro(preds, target, labels, beta) == Averages.Mean(Scores(PresentCounts(LabelCounts(preds, target, labels)), beta))
  {
    PresentAll(LabelCounts(preds, target, labels));
  }

  lemma {:induction false} PresentAll(cs: seq<Counts>)
    requires forall j :: 0 <= j < |cs| ==> !Absent(cs[j])
    ensures PresentCounts(cs) == cs
  {
    if cs != [] {
      assert !Absent(cs[0]);
      PresentAll(cs[1..]);
    }
  }

  /** When only label `j` occurs in the target, `weighted` is the score of label `j`. */
  lemma WeightedOneSupported(preds: seq<seq<bool>>, target: seq<seq<bool>>, labels: seq<nat>, beta: real, j: nat)
    requires |preds| == |target| && j < |labels| && Support(ClassCounts(preds, target, labels[j])) > 0
    requires forall k :: 0 <= k < |labels| && k != j ==> Support(ClassCounts(preds, target, labels[k])) == 0
    ensures Weighted(preds, target, labels, beta) == FBeta(ClassCounts(preds, target, labels[j]), beta)
  {
    var cs := LabelCounts(preds, target, labels);
    Averages.WeightedMeanOne(Supports(cs), Scores(cs, beta), j);
  }

  /** A single sample: `samples` scores it as `micro` does. */
  lemma SamplesOfOne(preds: seq<seq<bool>>, target: seq<seq<bool>>, labels: seq<nat>, beta: real)
    requires |preds| == |target| == 1
    ensures Samples(preds, target, labels, beta) == Micro(preds, target, labels, beta)
  {
    Averages.MeanOfOne(Scores(EachSampleCounts(preds, target, labels), beta));
    assert preds[1..] == [] && target[1..] == [];
    assert MicroCounts(preds, target, labels) == SampleCounts(preds[0], target[0], labels);
  }

  /**
   * On single-label data every wrong prediction is one false positive and one
   * false negative, so `micro` F-beta is the accuracy for every beta: the
   * share of samples predicted right.
   */
  lemma MicroIsAccuracy(preds: seq<seq<bool>>, target: seq<seq<bool>>, labels: seq<nat>, beta: real)
    requires |preds| == |target| > 0 && OneLabelEach(preds, labels) && OneLabelEach(target, labels)
    ensures Micro(preds, target, labels, beta) == Averages.Ratio(MicroCounts(preds, target, labels).tp, |preds|)
  {
    SingleLabelCounts(preds, target, labels);
    Balanced(MicroCounts(preds, target, labels), beta);
  }
}
