/**
 * The worked example of the retrieval metrics' documentation: seven rows over
 * two queries, on which Recall@2 and the mean reciprocal rank are both 0.75.
 * Every step is stated as a fact of its own so that each proof stays small.
 */
module RetrievalExamples {
  import opened Wrappers
  import opened Ranking
  import opened Recall
  import opened Reciprocal
  import opened RetrievalMetric
  import opened RetrievalRecall
  import opened RetrievalMRR
  import Averages

  /** Rows of query 0: one relevant document, scored highest. */
  function Query0(): seq<Row>
  {
    [Row(0, Doc(0.2, 0)), Row(0, Doc(0.3, 0)), Row(0, Doc(0.5, 1))]
  }

  /** Rows of query 1: two relevant documents, ranked second and third. */
  function Query1(): seq<Row>
  {
    [Row(1, Doc(0.1, 0)), Row(1, Doc(0.3, 1)), Row(1, Doc(0.5, 0)), Row(1, Doc(0.2, 1))]
  }

  /** The whole batch, query 0 first. */
  function Batch(): seq<Row>
  {
    Query0() + Query1()
  }

  const Docs0: seq<Doc> := [Doc(0.2, 0), Doc(0.3, 0), Doc(0.5, 1)]
  const Docs1: seq<Doc> := [Doc(0.1, 0), Doc(0.3, 1), Doc(0.5, 0), Doc(0.2, 1)]
  const Ranked0: seq<Doc> := [Doc(0.5, 1), Doc(0.3, 0), Doc(0.2, 0)]
  const Ranked1: seq<Doc> := [Doc(0.5, 0), Doc(0.3, 1), Doc(0.2, 1), Doc(0.1, 0)]

  /** The three input columns of the example pair up into the batch. */
  lemma ColumnsPairUp()
    ensures Rows([0, 0, 0, 1, 1, 1, 1], [0.2, 0.3, 0.5, 0.1, 0.3, 0.5, 0.2], [0, 0, 1, 0, 1, 0, 1]) == Success(Batch())
  {
    var r := Rows([0, 0, 0, 1, 1, 1, 1], [0.2, 0.3, 0.5, 0.1, 0.3, 0.5, 0.2], [0, 0, 1, 0, 1, 0, 1]);
    assert r.Success?;
    assert r.value == Batch();
  }

  /** The batch lists queries 0 and 1, in that order. */
  lemma BatchQueries()
    ensures QueryIds(Batch()) == [0, 1]
  {
    Query0Block();
    Query1Block();
    TwoBlocks(Query0(), Query1());
  }

  lemma Query0Block()
    ensures Query0() != [] && forall i :: 0 <= i < |Query0()| ==> Query0()[i].query == 0
  {
  }

  lemma Query1Block()
    ensures Query1() != [] && forall i :: 0 <= i < |Query1()| ==> Query1()[i].query == 1
  {
  }

  lemma Query0Docs()
    ensures Group(Query0(), 0) == Docs0
  {
    GroupSingleQuery(Query0(), 0);
  }

  lemma Query0Other()
    ensures Group(Query0(), 1) == []
  {
    GroupOtherQuery(Query0(), 1);
  }

  lemma Query1Docs()
    ensures Group(Query1(), 1) == Docs1
  {
    GroupSingleQuery(Query1(), 1);
  }

  lemma Query1Other()
    ensures Group(Query1(), 0) == []
  {
    GroupOtherQuery(Query1(), 0);
  }

  /** The documents of each query, in batch order. */
  lemma BatchGroups()
    ensures Group(Batch(), 0) == Docs0 && Group(Batch(), 1) == Docs1
  {
    Query0Docs();
    Query0Other();
    Query1Docs();
    Query1Other();
    GroupJoin(Batch(), Query0(), Query1(), 0, Docs0, []);
    GroupJoin(Batch(), Query0(), Query1(), 1, [], Docs1);
  }

  lemma Ranked0Facts()
    ensures Descending(Ranked0) && DistinctScores(Ranked0)
  {
  }

  lemma Ranked0SameDocs()
    ensures multiset(Ranked0) == multiset(Docs0)
  {
  }

  /** The ranking of query 0 by descending score. */
  lemma Ranking0()
    ensures SortDesc(Docs0) == Ranked0
  {
    Ranked0Facts();
    Ranked0SameDocs();
    SortDescUnique(Docs0, Ranked0);
  }

  lemma Ranked1Facts()
    ensures Descending(Ranked1) && DistinctScores(Ranked1)
  {
  }

  lemma Ranked1SameDocs()
    ensures multiset(Ranked1) == multiset(Docs1)
  {
  }

  /** The ranking of query 1 by descending score. */
  lemma Ranking1()
    ensures SortDesc(Docs1) == Ranked1
  {
    Ranked1Facts();
    Ranked1SameDocs();
    SortDescUnique(Docs1, Ranked1);
  }

  lemma Kept0()
    ensures Keep(Docs0, IgnoreIdx) == Docs0
  {
    KeepNothingExcluded(Docs0, IgnoreIdx);
  }

  lemma Kept1()
    ensures Keep(Docs1, IgnoreIdx) == Docs1
  {
    KeepNothingExcluded(Docs1, IgnoreIdx);
  }

  lemma Relevant0()
    ensures Positives(Docs0) == 1
  {
  }

  lemma Relevant1()
    ensures Positives(Docs1) == 2
  {
  }

  lemma Top0()
    ensures TopOf(Ranked0, 2) == [Doc(0.5, 1), Doc(0.3, 0)] && Positives([Doc(0.5, 1), Doc(0.3, 0)]) == 1
  {
  }

  lemma Top1()
    ensures TopOf(Ranked1, 2) == [Doc(0.5, 0), Doc(0.3, 1)] && Positives([Doc(0.5, 0), Doc(0.3, 1)]) == 1
  {
  }

  /** The shape of the batch: queries 0 and 1, nothing excluded, each with a relevant document. */
  lemma BatchShape()
    ensures QueryIds(Batch()) == [0, 1]
    ensures Group(Batch(), 0) == Docs0 && Group(Batch(), 1) == Docs1
    ensures Keep(Docs0, IgnoreIdx) == Docs0 && Keep(Docs1, IgnoreIdx) == Docs1
    ensures Positives(Docs0) > 0 && Positives(Docs1) > 0
  {
    BatchQueries();
    Kept0();
    Kept1();
    BatchGroups();
    Relevant0();
    Relevant1();
  }

  lemma Ranked0Recall()
    ensures RecallAtK(Docs0, Some(2)) == Some(Averages.Ratio(1, 1))
  {
    Ranked0Facts();
    Ranked0SameDocs();
    RecallOfDescending(Docs0, Ranked0, 2);
    Relevant0();
    Top0();
  }

  /** Recall@2 of query 0: its one relevant document is ranked first. */
  lemma Recall0()
    ensures QueryRecall(IgnoreIdx, Some(2), Docs0) == Some(1.0)
  {
    Ranked0Recall();
    Kept0();
    Averages.RatioWhole(1);
  }

  lemma Ranked1Recall()
    ensures RecallAtK(Docs1, Some(2)) == Some(Averages.Ratio(1, 2))
  {
    Ranked1Facts();
    Ranked1SameDocs();
    RecallOfDescending(Docs1, Ranked1, 2);
    Relevant1();
    Top1();
  }

  /** Recall@2 of query 1: one of its two relevant documents is in the top 2. */
  lemma Recall1()
    ensures QueryRecall(IgnoreIdx, Some(2), Docs1) == Some(0.5)
  {
    Ranked1Recall();
    Kept1();
    Averages.RatioIs(1, 2, 0.5);
  }

  /** With `k` = 2 the mean recall over the two queries of the example is 0.75. */
  lemma BatchRecall()
    ensures Aggregate(Batch(), IgnoreIdx, Skip, RecallMetric(IgnoreIdx, Some(2))) == Success(Some(0.75))
  {
    BatchQueries();
    RecallScore0();
    RecallScore1();
    TwoQueries(Batch(), IgnoreIdx, Skip, RecallMetric(IgnoreIdx, Some(2)), [Some(1.0)], [Some(0.5)]);
    BatchMean();
  }

  lemma RecallScore0()
    ensures QueryScore(0, Group(Batch(), 0), IgnoreIdx, Skip, RecallMetric(IgnoreIdx, Some(2))) == Success([Some(1.0)])
  {
    BatchShape();
    Recall0();
  }

  lemma RecallScore1()
    ensures QueryScore(1, Group(Batch(), 1), IgnoreIdx, Skip, RecallMetric(IgnoreIdx, Some(2))) == Success([Some(0.5)])
  {
    BatchShape();
    Recall1();
  }

  /** The two per-query values 1 and 0.5 average to 0.75. */
  lemma BatchMean()
    ensures Averages.MeanOrNaN([Some(1.0)] + [Some(0.5)]) == Some(0.75)
  {
    assert [Some(1.0)] + [Some(0.5)] == [Some(1.0), Some(0.5)];
    Averages.MeanOfTwo(1.0, 0.5, 0.75);
  }

  /** Reciprocal rank of query 0: its relevant document heads the ranking. */
  lemma Reciprocal0()
    ensures QueryReciprocalRank(IgnoreIdx, Docs0) == Some(1.0)
  {
    Kept0();
    Ranking0();
    ReciprocalRankPosition(Docs0, 0);
    Averages.RatioWhole(1);
  }

  lemma FirstRelevant1()
    ensures FirstRelevant(Ranked1) == Some(1)
  {
    FirstRelevantAt(Ranked1, 1);
  }

  /** Reciprocal rank of query 1: its first relevant document is ranked second. */
  lemma Reciprocal1()
    ensures QueryReciprocalRank(IgnoreIdx, Docs1) == Some(0.5)
  {
    Kept1();
    Ranking1();
    FirstRelevant1();
    RankOfFirst(Docs1, 1);
    Averages.RatioIs(1, 2, 0.5);
  }

  /** The mean reciprocal rank over the two queries of the example is 0.75. */
  lemma BatchReciprocalRank()
    ensures Aggregate(Batch(), IgnoreIdx, Skip, MrrMetric(IgnoreIdx)) == Success(Some(0.75))
  {
    BatchQueries();
    ReciprocalScore0();
    ReciprocalScore1();
    TwoQueries(Batch(), IgnoreIdx, Skip, MrrMetric(IgnoreIdx), [Some(1.0)], [Some(0.5)]);
    BatchMean();
  }

  lemma ReciprocalScore0()
    ensures QueryScore(0, Group(Batch(), 0), IgnoreIdx, Skip, MrrMetric(IgnoreIdx)) == Success([Some(1.0)])
  {
    BatchShape();
    Reciprocal0();
  }

  lemma ReciprocalScore1()
    ensures QueryScore(1, Group(Batch(), 1), IgnoreIdx, Skip, MrrMetric(IgnoreIdx)) == Success([Some(0.5)])
  {
    BatchShape();
    Reciprocal1();
  }

  /**
   * The documented session: construct Recall@K with `k` = 2 and the defaults,
   * feed the three example columns, and read the value 0.75.
   */
  method RecallSession() returns (r: Result<Option<real>, RetrievalError>)
    ensures r == Success(Some(0.75))
  {
    var made := RetrievalRecall.New(Skip, IgnoreIdx, IntK(2));
    var metric := made.value;
    ColumnsPairUp();
    var u := metric.Update([0, 0, 0, 1, 1, 1, 1], [0.2, 0.3, 0.5, 0.1, 0.3, 0.5, 0.2], [0, 0, 1, 0, 1, 0, 1]);
    assert metric.rows == Batch();
    BatchRecall();
    r := metric.Compute();
  }

  /** The documented session for the mean reciprocal rank, with the defaults. */
  method ReciprocalRankSession() returns (r: Result<Option<real>, RetrievalError>)
    ensures r == Success(Some(0.75))
  {
    var metric := new RetrievalMRR.Init(Skip, IgnoreIdx);
    ColumnsPairUp();
    var u := metric.Update([0, 0, 0, 1, 1, 1, 1], [0.2, 0.3, 0.5, 0.1, 0.3, 0.5, 0.2], [0, 0, 1, 0, 1, 0, 1]);
    assert metric.rows == Batch();
    BatchReciprocalRank();
    r := metric.Compute();
  }

  /** A batch whose query 1 has only a row carrying the `exclude` sentinel. */
  function MaskedBatch(): seq<Row>
  {
    [Row(0, Doc(0.5, 1)), Row(1, Doc(0.3, IgnoreIdx))]
  }

  lemma MaskedIds()
    ensures QueryIds(MaskedBatch()) == [0, 1]
  {
    var rows := MaskedBatch();
    assert rows[..1] == [Row(0, Doc(0.5, 1))];
    assert rows[..1][..0] == [];
  }

  lemma MaskedGroups()
    ensures Group(MaskedBatch(), 0) == [Doc(0.5, 1)] && Group(MaskedBatch(), 1) == [Doc(0.3, IgnoreIdx)]
  {
  }

  /** Query 0 keeps its one relevant document, ranked first. */
  lemma MaskedQuery0()
    ensures Positives(Keep(Group(MaskedBatch(), 0), IgnoreIdx)) == 1
    ensures MrrMetric(IgnoreIdx)(Group(MaskedBatch(), 0)) == Some(1.0)
  {
    var d := [Doc(0.5, 1)];
    MaskedGroups();
    KeepNothingExcluded(d, IgnoreIdx);
    assert SortDesc(d) == d;
    ReciprocalRankPosition(d, 0);
    Averages.RatioWhole(1);
  }

  /** Query 1 keeps nothing under the mask. */
  lemma MaskedQuery1()
    ensures Positives(Keep(Group(MaskedBatch(), 1), IgnoreIdx)) == 0
  {
    MaskedGroups();
    KeepAllExcluded([Doc(0.3, IgnoreIdx)], IgnoreIdx);
  }

  /** Query 0 scores its reciprocal rank under every policy. */
  lemma MaskedScore0(action: EmptyTargetAction)
    ensures QueryScore(0, Group(MaskedBatch(), 0), IgnoreIdx, action, MrrMetric(IgnoreIdx)) == Success([Some(1.0)])
  {
    MaskedQuery0();
  }

  /** Query 1 scores 0 under `neg`. */
  lemma MaskedScore1Neg()
    ensures QueryScore(1, Group(MaskedBatch(), 1), IgnoreIdx, Neg, MrrMetric(IgnoreIdx)) == Success([Some(0.0)])
  {
    MaskedQuery1();
  }

  /** Under `neg` the fully excluded query still counts, as 0: the mean is (1 + 0) / 2. */
  lemma MaskedBatchNeg()
    ensures Aggregate(MaskedBatch(), IgnoreIdx, Neg, MrrMetric(IgnoreIdx)) == Success(Some(0.5))
  {
    MaskedIds();
    MaskedScore0(Neg);
    MaskedScore1Neg();
    TwoQueries(MaskedBatch(), IgnoreIdx, Neg, MrrMetric(IgnoreIdx), [Some(1.0)], [Some(0.0)]);
    MaskedMean();
  }

  /** The two contributions 1 and 0 average to 0.5. */
  lemma MaskedMean()
    ensures Averages.MeanOrNaN([Some(1.0)] + [Some(0.0)]) == Some(0.5)
  {
    assert [Some(1.0)] + [Some(0.0)] == [Some(1.0), Some(0.0)];
    Averages.MeanOfTwo(1.0, 0.0, 0.5);
  }

  /** Under `error` the fully excluded query makes the computation fail. */
  lemma MaskedBatchError()
    ensures Aggregate(MaskedBatch(), IgnoreIdx, Error, MrrMetric(IgnoreIdx)) == Failure(EmptyTarget(1))
  {
    var rows := MaskedBatch();
    var metric := MrrMetric(IgnoreIdx);
    MaskedIds();
    MaskedQuery0();
    MaskedQuery1();
    assert QueryScore(0, Group(rows, 0), IgnoreIdx, Error, metric) == Success([Some(1.0)]);
    assert QueryScore(1, Group(rows, 1), IgnoreIdx, Error, metric) == Failure(EmptyTarget(1));
    assert [0, 1][1..] == [1];
  }
}
