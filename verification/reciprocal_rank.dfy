/**
 * Reciprocal rank of one query: one over the 1-based position of the first
 * relevant document in the descending ranking.
 */
module Reciprocal {
  import opened Wrappers
  import opened Ranking
  import Averages

  /** The 0-based position of the first relevant document, if there is one. */
  function FirstRelevant(docs: seq<Doc>): (r: Option<nat>)
    ensures r.Some? ==> r.value < |docs| && Relevant(docs[r.value])
    ensures r.Some? ==> forall j :: 0 <= j < r.value ==> !Relevant(docs[j])
    ensures r.None? <==> Positives(docs) == 0
  {
    if docs == [] then None
    else if Relevant(docs[0]) then Some(0)
    else match FirstRelevant(docs[1..])
      case None => None
      case Some(i) => Some(i + 1)
  }

  /** Reciprocal rank of the ranking by descending score; 0 when nothing is relevant. */
  function ReciprocalRank(docs: seq<Doc>): (r: real)
    ensures Positives(docs) == 0 <==> r == 0.0
    ensures 0.0 <= r <= 1.0
  {
    match FirstRelevant(SortDesc(docs))
    case None => 0.0
    case Some(i) => Averages.Ratio(1, i + 1)
  }

  /** The first relevant position is the one preceded only by irrelevant documents. */
  lemma {:induction false} FirstRelevantAt(docs: seq<Doc>, n: nat)
    requires n < |docs| && Relevant(docs[n])
    requires forall j :: 0 <= j < n ==> !Relevant(docs[j])
    ensures FirstRelevant(docs) == Some(n)
  {
    if n > 0 {
      FirstRelevantAt(docs[1..], n - 1);
    }
  }

  /** The reciprocal rank of a ranking whose first relevant document sits at 0-based position n. */
  lemma RankOfFirst(docs: seq<Doc>, n: nat)
    requires FirstRelevant(SortDesc(docs)) == Some(n)
    ensures ReciprocalRank(docs) == Averages.Ratio(1, n + 1)
  {
  }

  /** The single best-scored document heads the ranking. */
  lemma BestScoredRanksFirst(docs: seq<Doc>, i: nat)
    requires i < |docs|
    requires forall j :: 0 <= j < |docs| && j != i ==> docs[j].score < docs[i].score
    ensures |SortDesc(docs)| > 0 && SortDesc(docs)[0] == docs[i]
  {
    var ranked := SortDesc(docs);
    assert docs[i] in multiset(ranked);
    var p :| 0 <= p < |ranked| && ranked[p] == docs[i];
    assert ranked[0] in multiset(docs);
    var q :| 0 <= q < |docs| && docs[q] == ranked[0];
    assert ranked[0].score >= ranked[p].score;
    assert q == i;
  }

  /** A query whose single best-scored document is relevant has reciprocal rank 1. */
  lemma TopRelevantRanksFirst(docs: seq<Doc>, i: nat)
    requires i < |docs| && Relevant(docs[i])
    requires forall j :: 0 <= j < |docs| && j != i ==> docs[j].score < docs[i].score
    ensures ReciprocalRank(docs) == 1.0
  {
    BestScoredRanksFirst(docs, i);
    FirstRelevantAt(SortDesc(docs), 0);
    RankOfFirst(docs, 0);
    Averages.RatioWhole(1);
  }

  /**
   * The reciprocal rank is 1 / (1 + n) when the first relevant document of the
   * ranking is preceded by exactly n irrelevant ones.
   */
  lemma ReciprocalRankPosition(docs: seq<Doc>, n: nat)
    requires n < |docs| && Relevant(SortDesc(docs)[n])
    requires forall j :: 0 <= j < n ==> !Relevant(SortDesc(docs)[j])
    ensures ReciprocalRank(docs) == Averages.Ratio(1, n + 1)
  {
    FirstRelevantAt(SortDesc(docs), n);
    RankOfFirst(docs, n);
  }
}
