/**
 * The F-beta metric object and its functional counterpart as the tests drive
 * them: construction validates the configuration, `Update` buffers canonical
 * predictions and targets batch by batch, and `Compute` reduces everything
 * buffered so far. F1 is the same metric with beta fixed to 1.
 */
module FBetaMetric {
  import opened Wrappers
  import opened StatScores
  import opened FBetaParams
  import opened FBetaReduce
  import Labels

  /**
   * The number of classes scored: the configured one when it names at least
   * one class, otherwise the width of the first row of the data.
   */
  function Classes(numClasses: Option<int>, preds: seq<seq<bool>>): nat
  {
    if numClasses.Some? && numClasses.value >= 1 then numClasses.value
    else if preds == [] then 0
    else |preds[0]|
  }

  /**
   * On rows of one width, a configured count that agrees with that width, or
   * none at all, scores exactly the columns: the label set is 0 .. width - 1.
   */
  lemma ClassesMatchWidth(numClasses: Option<int>, preds: seq<seq<bool>>, w: nat)
    requires preds != [] && forall i :: 0 <= i < |preds| ==> |preds[i]| == w
    requires numClasses == Some(w) || !(numClasses.Some? && numClasses.value >= 1)
    ensures Classes(numClasses, preds) == w
    ensures forall c :: c in Labels.LabelSet(Classes(numClasses, preds), None) <==> 0 <= c < w
  {
    forall c: int ensures c in Labels.LabelSet(w, None) <==> 0 <= c < w {
      Labels.LabelSetMembers(w, None, c);
    }
  }

  /** The functional metric: validation, then the reduction of one batch. */
  function FBetaOf(preds: seq<seq<bool>>, target: seq<seq<bool>>, beta: real, average: Option<string>, mdmc: Option<string>,
                   numClasses: Option<int>, ignoreIndex: Option<int>): (r: Result<Score, ParamError>)
    requires |preds| == |target|
    ensures r.Failure? <==> Validate(average, mdmc, numClasses, ignoreIndex).Failure?
    ensures r.Failure? ==> r.error == Validate(average, mdmc, numClasses, ignoreIndex).error
  {
    match Validate(average, mdmc, numClasses, ignoreIndex)
    case Failure(e) => Failure(e)
    case Success(cfg) => Success(ReferenceScore(preds, target, Classes(numClasses, preds), cfg.average, ignoreIndex, beta))
  }

  class FBeta {
    const beta: real
    const config: Config
    /** Predictions and targets buffered by `Update`, row by row. */
    var preds: seq<seq<bool>>
    var target: seq<seq<bool>>

    /** Predictions and targets stay paired row for row. */
    predicate Paired()
      reads this
    {
      |preds| == |target|
    }

    constructor Init(beta: real, config: Config)
      ensures this.beta == beta && this.config == config
      ensures preds == [] && target == [] && Paired()
    {
      this.beta := beta;
      this.config := config;
      preds := [];
      target := [];
    }

    /** Validates the configuration first: an invalid one creates no metric. */
    static method New(beta: real, average: Option<string>, mdmc: Option<string>, numClasses: Option<int>,
                      ignoreIndex: Option<int>) returns (r: Result<FBeta, ParamError>)
      ensures r.Failure? <==> Validate(average, mdmc, numClasses, ignoreIndex).Failure?
      ensures r.Failure? ==> r.error == Validate(average, mdmc, numClasses, ignoreIndex).error
      ensures r.Success? ==> fresh(r.value) && r.value.beta == beta && Valid(r.value.config)
                             && Validate(average, mdmc, numClasses, ignoreIndex) == Success(r.value.config)
                             && r.value.preds == [] && r.value.target == [] && r.value.Paired()
    {
      var checked := Validate(average, mdmc, numClasses, ignoreIndex);
      if checked.Failure? {
        r := Failure(checked.error);
      } else {
        var m := new FBeta.Init(beta, checked.value);
        r := Success(m);
      }
    }

    /** F1: the metric with beta = 1. */
    static method NewF1(average: Option<string>, mdmc: Option<string>, numClasses: Option<int>, ignoreIndex: Option<int>)
      returns (r: Result<FBeta, ParamError>)
      ensures r.Failure? <==> Validate(average, mdmc, numClasses, ignoreIndex).Failure?
      ensures r.Failure? ==> r.error == Validate(average, mdmc, numClasses, ignoreIndex).error
      ensures r.Success? ==> fresh(r.value) && r.value.beta == 1.0 && Valid(r.value.config)
                             && Validate(average, mdmc, numClasses, ignoreIndex) == Success(r.value.config)
                             && r.value.preds == [] && r.value.target == [] && r.value.Paired()
    {
      r := New(1.0, average, mdmc, numClasses, ignoreIndex);
    }

    /** Buffers a batch of canonical rows after those already seen. */
    method Update(p: seq<seq<bool>>, t: seq<seq<bool>>)
      requires Paired() && |p| == |t|
      modifies this`preds, this`target
      ensures preds == old(preds) + p && target == old(target) + t && Paired()
    {
      preds := preds + p;
      target := target + t;
    }

    /** The reduction of everything buffered so far. */
    function Compute(): (r: Score)
      reads this
      requires Paired()
      ensures r.Scalar? <==> Classes(config.numClasses, preds) == 1 || config.average != NoAverage
      ensures r.Scalar? ==> 0.0 <= r.value <= 1.0
      ensures r.PerClass? ==> |r.values| == Classes(config.numClasses, preds)
    {
      ReferenceScore(preds, target, Classes(config.numClasses, preds), config.average, config.ignoreIndex, beta)
    }
  }

  /**
   * A fresh metric updated once with a batch computes what the functional
   * metric returns for that batch, and both reject the same configurations.
   */
  method OneBatch(p: seq<seq<bool>>, t: seq<seq<bool>>, beta: real, average: Option<string>, mdmc: Option<string>,
                  numClasses: Option<int>, ignoreIndex: Option<int>) returns (r: Result<Score, ParamError>)
    requires |p| == |t|
    ensures r == FBetaOf(p, t, beta, average, mdmc, numClasses, ignoreIndex)
  {
    var made := FBeta.New(beta, average, mdmc, numClasses, ignoreIndex);
    if made.Failure? {
      r := Failure(made.error);
    } else {
      var m := made.value;
      m.Update(p, t);
      assert m.preds == p && m.target == t;
      r := Success(m.Compute());
    }
  }
}
