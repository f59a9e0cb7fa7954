/**
 * Reference F-beta of multi-dimensional multi-class inputs: each sample is a
 * block of classes by positions (one position per pixel, say). `global`
 * turns every position of every sample into a sample of its own; `samplewise`
 * scores each sample's positions separately and averages the per-sample
 * results elementwise.
 */
module FBetaMultidim {
  import opened Wrappers
  import opened StatScores
  import opened FBetaScore
  import opened FBetaParams
  import opened FBetaReduce
  import Averages

  datatype MultidimError =
    | NothingToConcatenate  // no sample to average over
    | ShapeMismatch         // per-sample results of different shapes

  /** Cell (class `c`, position `x`) of a block; a cell outside the block reads as unset. */
  function Cell(block: seq<seq<bool>>, c: nat, x: nat): bool
  {
    c < |block| && At(block[c], x)
  }

  /** A classes-by-positions block turned into one row of classes per position. */
  function Transpose(block: seq<seq<bool>>, extent: nat): (r: seq<seq<bool>>)
    ensures |r| == extent
    ensures forall x :: 0 <= x < extent ==> |r[x]| == |block| && forall c :: 0 <= c < |block| ==> r[x][c] == Cell(block, c, x)
  {
    seq(extent, x requires 0 <= x < extent => seq(|block|, c requires 0 <= c < |block| => Cell(block, c, x)))
  }

  /** `global`: the rows of every sample's transposed block, sample after sample. */
  function Flatten(m: seq<seq<seq<bool>>>, extent: nat): seq<seq<bool>>
  {
    if m == [] then [] else Transpose(m[0], extent) + Flatten(m[1..], extent)
  }

  lemma {:induction false} FlattenLength(m: seq<seq<seq<bool>>>, extent: nat)
    ensures |Flatten(m, extent)| == |m| * extent
  {
    if m != [] {
      FlattenLength(m[1..], extent);
      assert |m| * extent == extent + (|m| - 1) * extent;
    }
  }

  /** Row `i * extent + x` of the flattened input is position `x` of sample `i`. */
  lemma {:induction false} FlattenIndex(m: seq<seq<seq<bool>>>, extent: nat, i: nat, x: nat)
    requires i < |m| && x < extent
    ensures i * extent + x < |Flatten(m, extent)|
    ensures Flatten(m, extent)[i * extent + x] == Transpose(m[i], extent)[x]
  {
    FlattenLength(m, extent);
    if i > 0 {
      FlattenIndex(m[1..], extent, i - 1, x);
      assert i * extent + x == extent + ((i - 1) * extent + x);
    }
  }

  /** The `global` reference score: the flattened inputs scored as one batch. */
  function GlobalScore(preds: seq<seq<seq<bool>>>, target: seq<seq<seq<bool>>>, extent: nat, numClasses: nat,
                       average: Average, ignore: Option<int>, beta: real): Score
    requires |preds| == |target|
  {
    FlattenLength(preds, extent);
    FlattenLength(target, extent);
    ReferenceScore(Flatten(preds, extent), Flatten(target, extent), numClasses, average, ignore, beta)
  }

  /** The reference score of one sample's positions. */
  function SampleScore(predBlock: seq<seq<bool>>, targetBlock: seq<seq<bool>>, extent: nat, numClasses: nat,
                       average: Average, ignore: Option<int>, beta: real): Score
  {
    ReferenceScore(Transpose(predBlock, extent), Transpose(targetBlock, extent), numClasses, average, ignore, beta)
  }

  /** The reference score of every sample, in sample order. */
  function PerSample(preds: seq<seq<seq<bool>>>, target: seq<seq<seq<bool>>>, extent: nat, numClasses: nat,
                     average: Average, ignore: Option<int>, beta: real): (r: seq<Score>)
    requires |preds| == |target|
    ensures |r| == |preds|
    ensures forall i :: 0 <= i < |preds| ==> r[i] == SampleScore(preds[i], target[i], extent, numClasses, average, ignore, beta)
  {
    seq(|preds|, i requires 0 <= i < |preds| => SampleScore(preds[i], target[i], extent, numClasses, average, ignore, beta))
  }

  /** All results are numbers, or all are per-class rows as long as the first: they stack. */
  predicate Uniform(scores: seq<Score>)
    requires scores != []
  {
    if scores[0].Scalar? then forall i :: 0 <= i < |scores| ==> scores[i].Scalar?
    else forall i :: 0 <= i < |scores| ==> scores[i].PerClass? && |scores[i].values| == |scores[0].values|
  }

  /** The numbers of a stack of numeric results. */
  function Scalars(scores: seq<Score>): (r: seq<real>)
    ensures |r| == |scores| && forall i :: 0 <= i < |scores| && scores[i].Scalar? ==> r[i] == scores[i].value
  {
    seq(|scores|, i requires 0 <= i < |scores| => if scores[i].Scalar? then scores[i].value else 0.0)
  }

  /** Entry `c` of every per-class result in a stack. */
  function Column(scores: seq<Score>, c: nat): (r: seq<Option<real>>)
    ensures |r| == |scores|
    ensures forall i :: 0 <= i < |scores| && scores[i].PerClass? && c < |scores[i].values| ==> r[i] == scores[i].values[c]
  {
    seq(|scores|, i requires 0 <= i < |scores| =>
      if scores[i].PerClass? && c < |scores[i].values| then scores[i].values[c] else None)
  }

  /**
   * The per-sample results stacked and averaged along the sample axis: an
   * elementwise mean, NaN wherever a sample has NaN. Stacking nothing, or
   * results of different shapes, fails.
   */
  function MeanScore(scores: seq<Score>): Result<Score, MultidimError>
  {
    if scores == [] then Failure(NothingToConcatenate)
    else if !Uniform(scores) then Failure(ShapeMismatch)
    else match scores[0]
      case Scalar(_) => Success(Scalar(Averages.Mean(Scalars(scores))))
      case PerClass(v) => Success(PerClass(seq(|v|, c requires 0 <= c < |v| => Averages.MeanOrNaN(Column(scores, c)))))
  }

  /** The `mdmc_average` methods of the reference, over blocks of `extent` positions. */
  function MultidimScore(preds: seq<seq<seq<bool>>>, target: seq<seq<seq<bool>>>, extent: nat, numClasses: nat,
                         average: Average, mdmc: MdmcAverage, ignore: Option<int>, beta: real): Result<Score, MultidimError>
    requires |preds| == |target|
  {
    match mdmc
    case Global => Success(GlobalScore(preds, target, extent, numClasses, average, ignore, beta))
    case Samplewise => MeanScore(PerSample(preds, target, extent, numClasses, average, ignore, beta))
  }

  /**
   * The reference as it runs: `global` scores the flattened inputs; `samplewise`
   * scores the samples one at a time, collecting the results, then averages them.
   */
  method Multidim(preds: seq<seq<seq<bool>>>, target: seq<seq<seq<bool>>>, extent: nat, numClasses: nat,
                  average: Average, mdmc: MdmcAverage, ignore: Option<int>, beta: real)
    returns (r: Result<Score, MultidimError>)
    requires |preds| == |target|
    ensures r == MultidimScore(preds, target, extent, numClasses, average, mdmc, ignore, beta)
  {
    if mdmc == Global {
      r := Success(GlobalScore(preds, target, extent, numClasses, average, ignore, beta));
    } else {
      var scores: seq<Score> := [];
      var i := 0;
      while i < |preds|
        invariant 0 <= i <= |preds|
        invariant scores == PerSample(preds, target, extent, numClasses, average, ignore, beta)[..i]
      {
        var s := SampleScore(preds[i], target[i], extent, numClasses, average, ignore, beta);
        scores := scores + [s];
        i := i + 1;
      }
      assert scores == PerSample(preds, target, extent, numClasses, average, ignore, beta);
      r := MeanScore(scores);
    }
  }

  /** All samples share one shape: a number each, or a row of `numClasses` entries each. */
  lemma PerSampleUniform(preds: seq<seq<seq<bool>>>, target: seq<seq<seq<bool>>>, extent: nat, numClasses: nat,
                         average: Average, ignore: Option<int>, beta: real)
    requires |preds| == |target|
    ensures var scores := PerSample(preds, target, extent, numClasses, average, ignore, beta);
            scores != [] ==> Uniform(scores)
  {
  }

  /**
   * `samplewise` over at least one sample succeeds: a number in [0, 1] under
   * an averaging method (or with a single class), otherwise one entry per
   * class; over no sample it fails.
   */
  lemma SamplewiseShape(preds: seq<seq<seq<bool>>>, target: seq<seq<seq<bool>>>, extent: nat, numClasses: nat,
                        average: Average, ignore: Option<int>, beta: real)
    requires |preds| == |target|
    ensures var r := MultidimScore(preds, target, extent, numClasses, average, Samplewise, ignore, beta);
            (r.Failure? <==> |preds| == 0)
            && (r.Success? ==> (r.value.Scalar? <==> numClasses == 1 || average != NoAverage))
            && (r.Success? && r.value.Scalar? ==> 0.0 <= r.value.value <= 1.0)
            && (r.Success? && r.value.PerClass? ==> |r.value.values| == numClasses)
  {
    var scores := PerSample(preds, target, extent, numClasses, average, ignore, beta);
    PerSampleUniform(preds, target, extent, numClasses, average, ignore, beta);
    if scores != [] {
      assert Averages.AllWithin(Scalars(scores), 0.0, 1.0) by {
        if numClasses == 1 || average != NoAverage {
          forall i | 0 <= i < |scores|
            ensures 0.0 <= Scalars(scores)[i] <= 1.0
          {
            assert scores[i].Scalar?;
          }
        }
      }
      Averages.MeanOfShares(Scalars(scores));
    }
  }

  /** F-beta of class `c` in each sample, in sample order. */
  function ClassOverSamples(preds: seq<seq<seq<bool>>>, target: seq<seq<seq<bool>>>, extent: nat, c: nat, beta: real)
    : (r: seq<real>)
    requires |preds| == |target|
    ensures |r| == |preds|
    ensures forall i :: 0 <= i < |preds| ==> r[i] == FBeta(ClassCounts(Transpose(preds[i], extent), Transpose(target[i], extent), c), beta)
  {
    seq(|preds|, i requires 0 <= i < |preds| =>
      FBeta(ClassCounts(Transpose(preds[i], extent), Transpose(target[i], extent), c), beta))
  }

  /**
   * `samplewise` without averaging: entry `c` is the mean over samples of the
   * F-beta of class `c` in each sample, and NaN at the ignored class.
   */
  lemma SamplewisePerClass(preds: seq<seq<seq<bool>>>, target: seq<seq<seq<bool>>>, extent: nat, numClasses: nat,
                           ignore: Option<int>, beta: real, c: nat)
    requires |preds| == |target| > 0 && numClasses != 1 && c < numClasses
    ensures var r := MultidimScore(preds, target, extent, numClasses, NoAverage, Samplewise, ignore, beta);
            r.Success? && r.value.PerClass? && |r.value.values| == numClasses
            && r.value.values[c] == if ignore == Some(c) then None
                                    else Some(Averages.Mean(ClassOverSamples(preds, target, extent, c, beta)))
  {
    var scores := PerSample(preds, target, extent, numClasses, NoAverage, ignore, beta);
    PerSampleUniform(preds, target, extent, numClasses, NoAverage, ignore, beta);
    SamplewiseShape(preds, target, extent, numClasses, NoAverage, ignore, beta);
    var col := Column(scores, c);
    forall i | 0 <= i < |preds|
      ensures col[i] == if ignore == Some(c) then None else Some(ClassOverSamples(preds, target, extent, c, beta)[i])
    {
      ReferencePerClass(Transpose(preds[i], extent), Transpose(target[i], extent), numClasses, ignore, beta, c);
    }
    if ignore == Some(c) {
      assert !col[0].Some?;
    } else {
      assert Averages.AllDefined(col);
      assert Averages.Values(col) == ClassOverSamples(preds, target, extent, c, beta);
    }
  }
}
