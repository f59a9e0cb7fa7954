/**
 * The Recall@K retrieval metric: configuration (`empty_target_action`,
 * `exclude`, `k`), the row buffer it inherits, and its per-query metric.
 */
module RetrievalRecall {
  import opened Wrappers
  import opened Ranking
  import opened Recall
  import opened RetrievalMetric

  /** The `k` argument as a caller may pass it: absent, an integer, or a float such as 1.0. */
  datatype KArg = NoK | IntK(i: int) | FloatK(x: real)

  const KMessage: string := "`k` has to be a positive integer or None"

  /** Accepts `k` when it is absent or a positive integer, and keeps it as given. */
  function ValidateK(k: KArg): (r: Result<Option<nat>, string>)
    ensures r.Success? <==> k.NoK? || (k.IntK? && k.i > 0)
    ensures r.Failure? ==> r.error == KMessage
    ensures r.Success? ==> (r.value.None? <==> k.NoK?)
    ensures r.Success? && k.IntK? ==> r.value == Some(k.i)
  {
    match k
    case NoK => Success(None)
    case IntK(i) => if i > 0 then Success(Some(i)) else Failure(KMessage)
    case FloatK(_) => Failure(KMessage)
  }

  /** Recall@K of one query after dropping its rows whose target equals `exclude`. */
  function QueryRecall(exclude: int, k: Option<nat>, docs: seq<Doc>): (r: Option<real>)
    ensures r.None? <==> Positives(Keep(docs, exclude)) == 0
    ensures r.Some? ==> 0.0 <= r.value <= 1.0
  {
    RecallAtK(Keep(docs, exclude), k)
  }

  /** On a query without excluded rows the mask changes nothing. */
  lemma QueryRecallUnmasked(exclude: int, k: Option<nat>, docs: seq<Doc>)
    requires NoneExcluded(docs, exclude)
    ensures QueryRecall(exclude, k, docs) == RecallAtK(docs, k)
  {
    KeepNothingExcluded(docs, exclude);
  }

  /** The per-query metric as the aggregation calls it. */
  function RecallMetric(exclude: int, k: Option<nat>): Metric
  {
    docs => QueryRecall(exclude, k, docs)
  }

  class RetrievalRecall {
    const emptyTargetAction: EmptyTargetAction
    const exclude: int
    const k: Option<nat>
    /** The rows buffered by `Update` (indexes, preds and target, row by row). */
    var rows: seq<Row>

    ghost predicate Valid()
      reads this
    {
      k.Some? ==> k.value > 0
    }

    constructor Init(emptyTargetAction: EmptyTargetAction, exclude: int, k: Option<nat>)
      requires k.Some? ==> k.value > 0
      ensures Valid()
      ensures this.emptyTargetAction == emptyTargetAction && this.exclude == exclude
      ensures this.k == k && rows == []
    {
      this.emptyTargetAction := emptyTargetAction;
      this.exclude := exclude;
      this.k := k;
      rows := [];
    }

    /** Construction: `k` is validated first, and a valid `k` is stored unchanged. */
    static method New(emptyTargetAction: EmptyTargetAction, exclude: int, k: KArg)
      returns (r: Result<RetrievalRecall, string>)
      ensures r.Success? <==> ValidateK(k).Success?
      ensures r.Failure? ==> r.error == KMessage
      ensures r.Success? ==> fresh(r.value) && r.value.Valid() && r.value.rows == []
      ensures r.Success? ==> r.value.k == ValidateK(k).value
      ensures r.Success? ==> r.value.emptyTargetAction == emptyTargetAction && r.value.exclude == exclude
    {
      var valid := ValidateK(k);
      if valid.Failure? {
        r := Failure(valid.error);
      } else {
        var m := new RetrievalRecall.Init(emptyTargetAction, exclude, valid.value);
        r := Success(m);
      }
    }

    /** Buffers a batch of rows; columns of different lengths are rejected and buffer nothing. */
    method Update(indexes: seq<int>, preds: seq<real>, target: seq<int>) returns (r: Outcome<RetrievalError>)
      requires Valid()
      modifies this`rows
      ensures Valid()
      ensures r.Pass? <==> |indexes| == |preds| == |target|
      ensures r.Pass? ==> rows == old(rows) + Rows(indexes, preds, target).value
      ensures r.Fail? ==> rows == old(rows) && r.error == ShapeMismatch
    {
      match Rows(indexes, preds, target)
      case Failure(e) =>
        r := Fail(e);
      case Success(batch) =>
        rows := rows + batch;
        r := Pass;
    }

    /**
     * The mean Recall@K over the buffered queries: in [0, 1], never NaN, 0.0 when
     * every query is skipped, and an error exactly when the policy is `Error` and
     * some query (even one whose rows are all excluded) keeps no relevant row.
     */
    function Compute(): (r: Result<Option<real>, RetrievalError>)
      reads this
      ensures r.Success? ==> r.value.Some? && 0.0 <= r.value.value <= 1.0
      ensures r.Failure? <==>
                emptyTargetAction == Error && SomeEmpty(rows, QueryIds(rows), exclude)
      ensures emptyTargetAction == Skip && NoRelevant(rows, exclude) ==> r == Success(Some(0.0))
    {
      var metric := RecallMetric(exclude, k);
      AggregateWithin(rows, exclude, emptyTargetAction, metric);
      AggregateFails(rows, exclude, emptyTargetAction, metric);
      AggregateDefined(rows, exclude, emptyTargetAction, metric);
      AggregateAllSkipped(rows, exclude, metric);
      Aggregate(rows, exclude, emptyTargetAction, metric)
    }
  }
}
