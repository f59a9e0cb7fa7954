/**
 * The aggregation shared by the retrieval metrics: rows arrive as
 * (query index, score, target) and are grouped by query; each query drops its
 * rows whose target equals the `exclude` sentinel and is scored by the
 * per-query metric, or by the empty-target policy when no relevant document
 * remains; the result is the arithmetic mean over the scored queries.
 */
module RetrievalMetric {
  import opened Wrappers
  import opened Ranking
  import opened Averages

  /** The default `exclude` sentinel. */
  const IgnoreIdx: int := -100

  /** What to do with a query that has no relevant document. */
  datatype EmptyTargetAction = Skip | Error | Pos | Neg

  /** One buffered row: the query it belongs to and the document it scores. */
  datatype Row = Row(query: int, doc: Doc)

  datatype RetrievalError =
    | ShapeMismatch                // `indexes`, `preds` and `target` differ in length
    | EmptyTarget(query: int)      // a query without relevant document under `Error`

  /** A per-query metric; `None` stands for a NaN score. */
  type Metric = seq<Doc> -> Option<real>

  /** Pairs the three input columns row by row; columns of different lengths are rejected. */
  function Rows(indexes: seq<int>, preds: seq<real>, target: seq<int>): (r: Result<seq<Row>, RetrievalError>)
    ensures r.Success? <==> |indexes| == |preds| == |target|
    ensures r.Success? ==> |r.value| == |indexes|
    ensures r.Success? ==> forall i :: 0 <= i < |indexes| ==> r.value[i] == Row(indexes[i], Doc(preds[i], target[i]))
  {
    if |indexes| == |preds| == |target| then
      Success(seq(|indexes|, i requires 0 <= i < |indexes| => Row(indexes[i], Doc(preds[i], target[i]))))
    else
      Failure(ShapeMismatch)
  }

  predicate Distinct(ids: seq<int>)
  {
    forall i, j :: 0 <= i < j < |ids| ==> ids[i] != ids[j]
  }

  /** Some row belongs to query `q`. */
  predicate HasQuery(rows: seq<Row>, q: int)
  {
    exists i :: 0 <= i < |rows| && rows[i].query == q
  }

  /** The queries present in `rows`, each once, in order of first appearance. */
  function QueryIds(rows: seq<Row>): (r: seq<int>)
    ensures Distinct(r)
    ensures forall q :: q in r <==> HasQuery(rows, q)
  {
    if rows == [] then []
    else
      var init := rows[..|rows| - 1];
      var ids := QueryIds(init);
      var q := rows[|rows| - 1].query;
      assert forall p :: HasQuery(init, p) ==> HasQuery(rows, p) by {
        forall p | HasQuery(init, p) ensures HasQuery(rows, p) {
          var i :| 0 <= i < |init| && init[i].query == p;
          assert rows[i].query == p;
        }
      }
      assert forall p :: HasQuery(rows, p) && p != q ==> HasQuery(init, p) by {
        forall p | HasQuery(rows, p) && p != q ensures HasQuery(init, p) {
          var i :| 0 <= i < |rows| && rows[i].query == p;
          assert init[i].query == p;
        }
      }
      assert HasQuery(rows, q) by {
        assert rows[|rows| - 1].query == q;
      }
      if q in ids then ids else ids + [q]
  }

  /** Appending a row lists its query at the end, unless the query is already listed. */
  lemma QueryIdsSnoc(rows: seq<Row>, last: Row)
    ensures QueryIds(rows + [last]) ==
      if last.query in QueryIds(rows) then QueryIds(rows) else QueryIds(rows) + [last.query]
  {
    assert (rows + [last])[..|rows|] == rows;
  }

  /** Row `i` is the first row of query `q`. */
  predicate FirstRowOf(rows: seq<Row>, q: int, i: nat)
  {
    i < |rows| && rows[i].query == q && forall j :: 0 <= j < i ==> rows[j].query != q
  }

  /** The first row of a query that already occurs in a prefix lies in that prefix. */
  lemma FirstRowInPrefix(rows: seq<Row>, n: nat, q: int, i: nat)
    requires n <= |rows| && HasQuery(rows[..n], q) && FirstRowOf(rows, q, i)
    ensures i < n && FirstRowOf(rows[..n], q, i)
  {
    var k :| 0 <= k < n && rows[..n][k].query == q;
    assert rows[k].query == q;
  }

  /**
   * The queries are listed in order of first appearance: a query listed before another
   * has its first row before the other's first row.
   */
  lemma {:induction false} QueryIdsOrder(rows: seq<Row>, i: nat, j: nat, a: nat, b: nat)
    requires i < j < |QueryIds(rows)|
    requires FirstRowOf(rows, QueryIds(rows)[i], a) && FirstRowOf(rows, QueryIds(rows)[j], b)
    ensures a < b
    decreases |rows|
  {
    var n := |rows| - 1;
    var init := rows[..n];
    var ids := QueryIds(init);
    assert QueryIds(rows) == if rows[n].query in ids then ids else ids + [rows[n].query];
    assert i < |ids|;
    FirstRowInPrefix(rows, n, ids[i], a);
    if j < |ids| {
      FirstRowInPrefix(rows, n, ids[j], b);
      QueryIdsOrder(init, i, j, a, b);
    }
  }

  /** The documents of query `q`, in their input order. */
  function Group(rows: seq<Row>, q: int): (r: seq<Doc>)
    ensures forall d :: d in r <==> Row(q, d) in rows
    ensures |r| <= |rows|
  {
    if rows == [] then []
    else (if rows[0].query == q then [rows[0].doc] else []) + Group(rows[1..], q)
  }

  /**
   * The contribution of one query: its metric, or what the empty-target policy says
   * when none of the documents it keeps under the `exclude` mask is relevant. The
   * metric receives the whole query and applies the mask itself.
   */
  function QueryScore(q: int, docs: seq<Doc>, exclude: int, action: EmptyTargetAction, metric: Metric)
    : (r: Result<seq<Option<real>>, RetrievalError>)
    ensures r.Failure? <==> Positives(Keep(docs, exclude)) == 0 && action == Error
    ensures r.Success? && Positives(Keep(docs, exclude)) > 0 ==> r.value == [metric(docs)]
    ensures r.Success? && Positives(Keep(docs, exclude)) == 0 ==>
      r.value == match action
        case Skip => []
        case Pos => [Some(1.0)]
        case Neg => [Some(0.0)]
        case Error => []
  {
    if Positives(Keep(docs, exclude)) > 0 then Success([metric(docs)])
    else match action
      case Skip => Success([])
      case Error => Failure(EmptyTarget(q))
      case Pos => Success([Some(1.0)])
      case Neg => Success([Some(0.0)])
  }

  /** The contributions of the queries `ids`, in order; the first failing query stops the computation. */
  function Contributions(rows: seq<Row>, ids: seq<int>, exclude: int, action: EmptyTargetAction, metric: Metric)
    : Result<seq<Option<real>>, RetrievalError>
  {
    if ids == [] then Success([])
    else match QueryScore(ids[0], Group(rows, ids[0]), exclude, action, metric)
      case Failure(e) => Failure(e)
      case Success(head) =>
        match Contributions(rows, ids[1..], exclude, action, metric)
        case Failure(e) => Failure(e)
        case Success(rest) => Success(head + rest)
  }

  /**
   * The metric over all buffered rows: grouping by query, per-query scores
   * (with the `exclude` mask applied inside each query) and their mean (0.0
   * when every query was skipped).
   */
  function Aggregate(rows: seq<Row>, exclude: int, action: EmptyTargetAction, metric: Metric)
    : Result<Option<real>, RetrievalError>
  {
    match Contributions(rows, QueryIds(rows), exclude, action, metric)
    case Failure(e) => Failure(e)
    case Success(scores) => Success(MeanOrNaN(scores))
  }

  /** Some query among `ids` keeps no relevant document under the `exclude` mask. */
  predicate SomeEmpty(rows: seq<Row>, ids: seq<int>, exclude: int)
  {
    exists i :: 0 <= i < |ids| && Positives(Keep(Group(rows, ids[i]), exclude)) == 0
  }

  /** The contributions fail exactly when the policy is `Error` and some query is empty. */
  lemma {:induction false} ContributionsFail(rows: seq<Row>, ids: seq<int>, exclude: int, action: EmptyTargetAction,
                                             metric: Metric)
    ensures Contributions(rows, ids, exclude, action, metric).Failure? <==> action == Error && SomeEmpty(rows, ids, exclude)
  {
    if ids != [] {
      ContributionsFail(rows, ids[1..], exclude, action, metric);
      if SomeEmpty(rows, ids[1..], exclude) {
        var i :| 0 <= i < |ids[1..]| && Positives(Keep(Group(rows, ids[1..][i]), exclude)) == 0;
        assert Positives(Keep(Group(rows, ids[i + 1]), exclude)) == 0;
      }
      if SomeEmpty(rows, ids, exclude) && Positives(Keep(Group(rows, ids[0]), exclude)) > 0 {
        var i :| 0 <= i < |ids| && Positives(Keep(Group(rows, ids[i]), exclude)) == 0;
        assert ids[1..][i - 1] == ids[i];
      }
    }
  }

  /**
   * Under `Error` the aggregate fails exactly when some query of the batch (even one
   * whose rows are all excluded) has no relevant document left; otherwise it never fails.
   */
  lemma AggregateFails(rows: seq<Row>, exclude: int, action: EmptyTargetAction, metric: Metric)
    ensures Aggregate(rows, exclude, action, metric).Failure? <==>
      action == Error && SomeEmpty(rows, QueryIds(rows), exclude)
  {
    ContributionsFail(rows, QueryIds(rows), exclude, action, metric);
  }

  /** When no query is empty, each query contributes its metric, in order. */
  lemma {:induction false} ContributionsAllScored(rows: seq<Row>, ids: seq<int>, exclude: int, action: EmptyTargetAction,
                                                  metric: Metric)
    requires !SomeEmpty(rows, ids, exclude)
    ensures Contributions(rows, ids, exclude, action, metric).Success?
    ensures var c := Contributions(rows, ids, exclude, action, metric).value;
      |c| == |ids| && forall i :: 0 <= i < |ids| ==> c[i] == metric(Group(rows, ids[i]))
  {
    if ids != [] {
      assert Positives(Keep(Group(rows, ids[0]), exclude)) > 0;
      forall i | 0 <= i < |ids[1..]| ensures Positives(Keep(Group(rows, ids[1..][i]), exclude)) > 0 {
        assert ids[1..][i] == ids[i + 1];
      }
      ContributionsAllScored(rows, ids[1..], exclude, action, metric);
    }
  }

  /** Every contribution is a score in [0, 1] when the metric's scores are. */
  lemma {:induction false} ContributionsWithin(rows: seq<Row>, ids: seq<int>, exclude: int, action: EmptyTargetAction,
                                               metric: Metric)
    requires forall g :: metric(g).Some? ==> 0.0 <= metric(g).value <= 1.0
    ensures var c := Contributions(rows, ids, exclude, action, metric);
      c.Success? ==> forall i :: 0 <= i < |c.value| && c.value[i].Some? ==> 0.0 <= c.value[i].value <= 1.0
  {
    if ids != [] {
      ContributionsWithin(rows, ids[1..], exclude, action, metric);
      var c := Contributions(rows, ids, exclude, action, metric);
      var h := QueryScore(ids[0], Group(rows, ids[0]), exclude, action, metric);
      var t := Contributions(rows, ids[1..], exclude, action, metric);
      if c.Success? {
        assert h.Success? && t.Success? && c.value == h.value + t.value;
        forall i | 0 <= i < |c.value| && c.value[i].Some? ensures 0.0 <= c.value[i].value <= 1.0 {
          if i >= |h.value| {
            assert c.value[i] == t.value[i - |h.value|];
          }
        }
      }
    }
  }

  /** The aggregate of scores in [0, 1] lies in [0, 1]. */
  lemma AggregateWithin(rows: seq<Row>, exclude: int, action: EmptyTargetAction, metric: Metric)
    requires forall g :: metric(g).Some? ==> 0.0 <= metric(g).value <= 1.0
    ensures var a := Aggregate(rows, exclude, action, metric);
      a.Success? && a.value.Some? ==> 0.0 <= a.value.value <= 1.0
  {
    var c := Contributions(rows, QueryIds(rows), exclude, action, metric);
    ContributionsWithin(rows, QueryIds(rows), exclude, action, metric);
    if c.Success? && AllDefined(c.value) && |c.value| > 0 {
      var vs := Values(c.value);
      assert AllWithin(vs, 0.0, 1.0);
      MeanWithin(vs, 0.0, 1.0);
    }
  }

  /** Under `Skip`, a batch in which no query has a relevant document scores 0.0. */
  lemma {:induction false} ContributionsAllSkipped(rows: seq<Row>, ids: seq<int>, exclude: int, metric: Metric)
    requires forall i :: 0 <= i < |ids| ==> Positives(Keep(Group(rows, ids[i]), exclude)) == 0
    ensures Contributions(rows, ids, exclude, Skip, metric) == Success([])
  {
    if ids != [] {
      forall i | 0 <= i < |ids[1..]| ensures Positives(Keep(Group(rows, ids[1..][i]), exclude)) == 0 {
        assert ids[1..][i] == ids[i + 1];
      }
      ContributionsAllSkipped(rows, ids[1..], exclude, metric);
      assert Positives(Keep(Group(rows, ids[0]), exclude)) == 0;
      assert QueryScore(ids[0], Group(rows, ids[0]), exclude, Skip, metric) == Success([]);
      var none: seq<Option<real>> := [];
      assert none + none == none;
    }
  }

  /** No query of the batch keeps a relevant document under the `exclude` mask. */
  ghost predicate NoRelevant(rows: seq<Row>, exclude: int)
  {
    forall q :: HasQuery(rows, q) ==> Positives(Keep(Group(rows, q), exclude)) == 0
  }

  lemma AggregateAllSkipped(rows: seq<Row>, exclude: int, metric: Metric)
    ensures NoRelevant(rows, exclude) ==> Aggregate(rows, exclude, Skip, metric) == Success(Some(0.0))
  {
    if NoRelevant(rows, exclude) {
      ContributionsAllSkipped(rows, QueryIds(rows), exclude, metric);
    }
  }

  /**
   * A query whose rows all carry the `exclude` target is still one of the batch's
   * queries, and it is empty: the policy decides its contribution, and under
   * `Error` the whole aggregate fails.
   */
  lemma AllExcludedQuery(rows: seq<Row>, exclude: int, q: int, metric: Metric)
    requires HasQuery(rows, q)
    requires forall i :: 0 <= i < |rows| && rows[i].query == q ==> rows[i].doc.target == exclude
    ensures q in QueryIds(rows) && Keep(Group(rows, q), exclude) == []
    ensures Aggregate(rows, exclude, Error, metric).Failure?
  {
    var g := Group(rows, q);
    forall j | 0 <= j < |g| ensures g[j].target == exclude {
      assert Row(q, g[j]) in rows;
      var i :| 0 <= i < |rows| && rows[i] == Row(q, g[j]);
    }
    KeepAllExcluded(g, exclude);
    var ids := QueryIds(rows);
    var j :| 0 <= j < |ids| && ids[j] == q;
    assert SomeEmpty(rows, ids, exclude);
    AggregateFails(rows, exclude, Error, metric);
  }

  /** No document in `docs` carries the `exclude` target. */
  predicate NoneExcluded(docs: seq<Doc>, exclude: int)
  {
    forall i :: 0 <= i < |docs| ==> docs[i].target != exclude
  }

  lemma {:induction false} GroupAppend(a: seq<Row>, b: seq<Row>, q: int)
    ensures Group(a + b, q) == Group(a, q) + Group(b, q)
  {
    if a == [] {
      assert a + b == b;
    } else {
      assert (a + b)[1..] == a[1..] + b;
      GroupAppend(a[1..], b, q);
    }
  }

  /**
   * A metric that is defined on every query that keeps a relevant document under the
   * `exclude` mask makes the aggregate a number (no NaN).
   */
  lemma AggregateDefined(rows: seq<Row>, exclude: int, action: EmptyTargetAction, metric: Metric)
    requires forall g :: Positives(Keep(g, exclude)) > 0 ==> metric(g).Some?
    ensures var a := Aggregate(rows, exclude, action, metric);
      a.Success? ==> a.value.Some?
  {
    ContributionsDefined(rows, QueryIds(rows), exclude, action, metric);
  }

  lemma {:induction false} ContributionsDefined(rows: seq<Row>, ids: seq<int>, exclude: int, action: EmptyTargetAction,
                                                metric: Metric)
    requires forall g :: Positives(Keep(g, exclude)) > 0 ==> metric(g).Some?
    ensures var c := Contributions(rows, ids, exclude, action, metric);
      c.Success? ==> AllDefined(c.value)
  {
    if ids != [] {
      ContributionsDefined(rows, ids[1..], exclude, action, metric);
    }
  }

  /** Total number of rows in the groups of `ids`. */
  function GroupSizes(rows: seq<Row>, ids: seq<int>): nat
  {
    if ids == [] then 0 else |Group(rows, ids[0])| + GroupSizes(rows, ids[1..])
  }

  /** The query groups partition the rows: every row lands in exactly one group. */
  lemma {:induction false} GroupsPartitionRows(rows: seq<Row>)
    ensures GroupSizes(rows, QueryIds(rows)) == |rows|
  {
    if rows != [] {
      var init := rows[..|rows| - 1];
      var last := rows[|rows| - 1];
      assert rows == init + [last];
      GroupsPartitionRows(init);
      var ids := QueryIds(init);
      GroupSizesSnoc(init, last, ids);
      if last.query !in ids {
        NoGroupWithoutQuery(init, last.query);
        GroupAppend(init, [last], last.query);
        GroupSizesAppend(rows, ids, [last.query]);
      }
    }
  }

  lemma {:induction false} GroupSizesAppend(rows: seq<Row>, a: seq<int>, b: seq<int>)
    ensures GroupSizes(rows, a + b) == GroupSizes(rows, a) + GroupSizes(rows, b)
  {
    if a == [] {
      assert a + b == b;
    } else {
      assert (a + b)[1..] == a[1..] + b;
      GroupSizesAppend(rows, a[1..], b);
    }
  }

  /** A row appended to the batch adds one to the group sizes when its query is listed once. */
  lemma {:induction false} GroupSizesSnoc(rows: seq<Row>, last: Row, ids: seq<int>)
    requires Distinct(ids)
    ensures GroupSizes(rows + [last], ids) == GroupSizes(rows, ids) + (if last.query in ids then 1 else 0)
  {
    if ids != [] {
      GroupAppend(rows, [last], ids[0]);
      assert Distinct(ids[1..]);
      GroupSizesSnoc(rows, last, ids[1..]);
      assert last.query in ids <==> last.query == ids[0] || last.query in ids[1..];
      assert last.query == ids[0] ==> last.query !in ids[1..];
    }
  }

  /** A query with documents is one of the listed queries. */
  lemma NoGroupWithoutQuery(rows: seq<Row>, q: int)
    ensures Group(rows, q) != [] ==> q in QueryIds(rows)
  {
    if Group(rows, q) != [] {
      var d := Group(rows, q)[0];
      assert Row(q, d) in rows;
      var i :| 0 <= i < |rows| && rows[i] == Row(q, d);
      assert HasQuery(rows, q);
    }
  }

  /** Appending a block of rows of one query lists that query at the end, unless it is already listed. */
  lemma {:induction false} QueryIdsBlock(rows: seq<Row>, block: seq<Row>, q: int)
    requires block != [] && forall i :: 0 <= i < |block| ==> block[i].query == q
    ensures QueryIds(rows + block) == if q in QueryIds(rows) then QueryIds(rows) else QueryIds(rows) + [q]
  {
    var last := block[|block| - 1];
    var init := block[..|block| - 1];
    assert rows + block == (rows + init) + [last];
    QueryIdsSnoc(rows + init, last);
    if init != [] {
      QueryIdsBlock(rows, init, q);
    } else {
      assert rows + init == rows;
    }
  }

  /** The group of a concatenation, from the groups of its two parts. */
  lemma GroupJoin(rows: seq<Row>, a: seq<Row>, b: seq<Row>, q: int, da: seq<Doc>, db: seq<Doc>)
    requires rows == a + b && Group(a, q) == da && Group(b, q) == db
    ensures Group(rows, q) == da + db
  {
    GroupAppend(a, b, q);
  }

  /** Rows that all belong to query `q` group to their documents in order. */
  lemma {:induction false} GroupSingleQuery(rows: seq<Row>, q: int)
    requires forall i :: 0 <= i < |rows| ==> rows[i].query == q
    ensures |Group(rows, q)| == |rows|
    ensures forall i :: 0 <= i < |rows| ==> Group(rows, q)[i] == rows[i].doc
  {
    if rows != [] {
      GroupSingleQuery(rows[1..], q);
    }
  }

  /** A query that owns no row has an empty group. */
  lemma {:induction false} GroupOtherQuery(rows: seq<Row>, q: int)
    requires forall i :: 0 <= i < |rows| ==> rows[i].query != q
    ensures Group(rows, q) == []
  {
    if rows != [] {
      GroupOtherQuery(rows[1..], q);
    }
  }

  /** A block of query 0 followed by a block of query 1 lists queries 0 and 1. */
  lemma TwoBlocks(a: seq<Row>, b: seq<Row>)
    requires a != [] && forall i :: 0 <= i < |a| ==> a[i].query == 0
    requires b != [] && forall i :: 0 <= i < |b| ==> b[i].query == 1
    ensures QueryIds(a + b) == [0, 1]
  {
    var none: seq<Row> := [];
    assert none + a == a;
    QueryIdsBlock(none, a, 0);
    QueryIdsBlock(a, b, 1);
    assert 1 !in [0] && [0] + [1] == [0, 1];
  }

  /** A query that does not fail contributes its part ahead of the later queries' contributions. */
  lemma ContributionsCons(rows: seq<Row>, q: int, rest: seq<int>, exclude: int, action: EmptyTargetAction,
                          metric: Metric, h: seq<Option<real>>, vs: seq<Option<real>>)
    requires QueryScore(q, Group(rows, q), exclude, action, metric) == Success(h)
    requires Contributions(rows, rest, exclude, action, metric) == Success(vs)
    ensures Contributions(rows, [q] + rest, exclude, action, metric) == Success(h + vs)
  {
    var ids := [q] + rest;
    assert ids[0] == q && ids[1..] == rest;
  }

  /** A batch of two queries aggregates the contributions of query 0 followed by those of query 1. */
  lemma TwoQueries(rows: seq<Row>, exclude: int, action: EmptyTargetAction, metric: Metric,
                   h0: seq<Option<real>>, h1: seq<Option<real>>)
    requires QueryIds(rows) == [0, 1]
    requires QueryScore(0, Group(rows, 0), exclude, action, metric) == Success(h0)
    requires QueryScore(1, Group(rows, 1), exclude, action, metric) == Success(h1)
    ensures Aggregate(rows, exclude, action, metric) == Success(MeanOrNaN(h0 + h1))
  {
    var none: seq<int> := [];
    assert Contributions(rows, none, exclude, action, metric) == Success([]);
    ContributionsCons(rows, 1, none, exclude, action, metric, h1, []);
    assert [1] + none == [1] && h1 + [] == h1;
    ContributionsCons(rows, 0, [1], exclude, action, metric, h0, h1);
    assert [0] + [1] == [0, 1];
  }

  /** Aggregation of a batch with exactly two non-empty queries is the mean of their two metric values. */
  lemma TwoQueryAggregate(rows: seq<Row>, exclude: int, action: EmptyTargetAction, metric: Metric,
                           a: real, b: real, m: real)
    requires QueryIds(rows) == [0, 1]
    requires Positives(Keep(Group(rows, 0), exclude)) > 0 && Positives(Keep(Group(rows, 1), exclude)) > 0
    requires metric(Group(rows, 0)) == Some(a) && metric(Group(rows, 1)) == Some(b)
    requires m * 2.0 == a + b
    ensures Aggregate(rows, exclude, action, metric) == Success(Some(m))
  {
    TwoQueries(rows, exclude, action, metric, [Some(a)], [Some(b)]);
    assert [Some(a)] + [Some(b)] == [Some(a), Some(b)];
    MeanOfTwo(a, b, m);
  }
}
