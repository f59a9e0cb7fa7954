/**
 * The mean reciprocal rank retrieval metric: the rows buffered by the
 * retrieval base, grouped by query, each query scored by its reciprocal rank
 * after the `exclude` mask, and the scores averaged.
 */
module RetrievalMRR {
  import opened Wrappers
  import opened Ranking
  import opened Reciprocal
  import opened RetrievalMetric

  /** Reciprocal rank of one query after dropping its rows whose target equals `exclude`. */
  function QueryReciprocalRank(exclude: int, docs: seq<Doc>): (r: Option<real>)
    ensures r.Some? && 0.0 <= r.value <= 1.0
    ensures r.value == 0.0 <==> Positives(Keep(docs, exclude)) == 0
  {
    Some(ReciprocalRank(Keep(docs, exclude)))
  }

  /** On a query without excluded rows the mask changes nothing. */
  lemma QueryReciprocalRankUnmasked(exclude: int, docs: seq<Doc>)
    requires NoneExcluded(docs, exclude)
    ensures QueryReciprocalRank(exclude, docs) == Some(ReciprocalRank(docs))
  {
    KeepNothingExcluded(docs, exclude);
  }

  /** The per-query metric as the aggregation calls it. */
  function MrrMetric(exclude: int): Metric
  {
    docs => QueryReciprocalRank(exclude, docs)
  }

  class RetrievalMRR {
    const emptyTargetAction: EmptyTargetAction
    const exclude: int
    /** The rows buffered by `Update` (indexes, preds and target, row by row). */
    var rows: seq<Row>

    constructor Init(emptyTargetAction: EmptyTargetAction, exclude: int)
      ensures this.emptyTargetAction == emptyTargetAction && this.exclude == exclude
      ensures rows == []
    {
      this.emptyTargetAction := emptyTargetAction;
      this.exclude := exclude;
      rows := [];
    }

    /** Buffers a batch of rows; columns of different lengths are rejected and buffer nothing. */
    method Update(indexes: seq<int>, preds: seq<real>, target: seq<int>) returns (r: Outcome<RetrievalError>)
      modifies this`rows
      ensures r.Pass? <==> |indexes| == |preds| == |target|
      ensures r.Pass? ==> rows == old(rows) + Rows(indexes, preds, target).value
      ensures r.Fail? ==> rows == old(rows) && r.error == ShapeMismatch
    {
      match Rows(indexes, preds, target)
      case Failure(e) =>
        r := Fail(e);
      case Success(batch) =>
        rows := rows + batch;
        r := Pass;
    }

    /**
     * The mean reciprocal rank over the buffered queries: in [0, 1], never NaN,
     * 0.0 when every query is skipped, and an error exactly when the policy is
     * `Error` and some query (even one whose rows are all excluded) keeps no
     * relevant row.
     */
    function Compute(): (r: Result<Option<real>, RetrievalError>)
      reads this
      ensures r.Success? ==> r.value.Some? && 0.0 <= r.value.value <= 1.0
      ensures r.Failure? <==>
                emptyTargetAction == Error && SomeEmpty(rows, QueryIds(rows), exclude)
      ensures emptyTargetAction == Skip && NoRelevant(rows, exclude) ==> r == Success(Some(0.0))
    {
      var metric := MrrMetric(exclude);
      AggregateWithin(rows, exclude, emptyTargetAction, metric);
      AggregateFails(rows, exclude, emptyTargetAction, metric);
      AggregateDefined(rows, exclude, emptyTargetAction, metric);
      AggregateAllSkipped(rows, exclude, metric);
      Aggregate(rows, exclude, emptyTargetAction, metric)
    }
  }
}
