/**
 * Recall@K of one query: the share of all relevant documents that appear
 * among the `k` best-scored ones.
 */
module Recall {
  import opened Wrappers
  import opened Ranking
  import Averages

  /** The cut-off: `k` itself, or the whole list when no `k` is given. */
  function CutOff(docs: seq<Doc>, k: Option<nat>): nat
  {
    if k.None? then |docs| else k.value
  }

  /** The documents that a cut-off of `n` keeps from the ranking. */
  function TopOf(ranked: seq<Doc>, n: nat): (r: seq<Doc>)
    ensures |r| == (if n < |ranked| then n else |ranked|)
    ensures r == ranked[..|r|]
  {
    if n < |ranked| then ranked[..n] else ranked
  }

  /**
   * Recall@K: relevant documents among the top `k` of the descending ranking,
   * divided by all relevant documents; undefined (NaN, here `None`) when
   * there is no relevant document.
   */
  function RecallAtK(docs: seq<Doc>, k: Option<nat>): (r: Option<real>)
    ensures r.None? <==> Positives(docs) == 0
    ensures r.Some? ==> 0.0 <= r.value <= 1.0
  {
    if Positives(docs) > 0 then
      var ranked := SortDesc(docs);
      var top := TopOf(ranked, CutOff(docs, k));
      PositivesPrefix(ranked, |top|, |ranked|);
      assert ranked[..|ranked|] == ranked;
      Some(Averages.Ratio(Positives(top), Positives(docs)))
    else
      None
  }

  /**
   * Recall@K read off any descending arrangement of the documents: when the scores are
   * distinct, it is the share of relevant documents among the first `k` of that arrangement,
   * whatever order the sort itself produced.
   */
  lemma RecallOfDescending(docs: seq<Doc>, s: seq<Doc>, k: nat)
    requires Descending(s) && DistinctScores(s) && multiset(s) == multiset(docs)
    ensures RecallAtK(docs, Some(k)) ==
      if Positives(docs) == 0 then None else Some(Averages.Ratio(Positives(TopOf(s, k)), Positives(docs)))
  {
    SortDescUnique(docs, s);
  }

  /** A cut-off that reaches past the end of the list retrieves every relevant document. */
  lemma RecallFullCutOff(docs: seq<Doc>, k: Option<nat>)
    requires Positives(docs) > 0 && CutOff(docs, k) >= |docs|
    ensures RecallAtK(docs, k) == Some(1.0)
  {
    var ranked := SortDesc(docs);
    var top := TopOf(ranked, CutOff(docs, k));
    assert top == ranked;
    Averages.RatioWhole(Positives(docs));
  }

  /** Without a `k` the recall of a list with a relevant document is 1. */
  lemma RecallDefaultCutOff(docs: seq<Doc>)
    requires Positives(docs) > 0
    ensures RecallAtK(docs, None) == Some(1.0)
  {
    RecallFullCutOff(docs, None);
  }

  /** A larger `k` never lowers the recall. */
  lemma RecallMonotone(docs: seq<Doc>, k1: nat, k2: nat)
    requires k1 <= k2 && Positives(docs) > 0
    ensures RecallAtK(docs, Some(k1)).value <= RecallAtK(docs, Some(k2)).value
  {
    var ranked := SortDesc(docs);
    var t1 := TopOf(ranked, k1);
    var t2 := TopOf(ranked, k2);
    PositivesPrefix(ranked, |t1|, |t2|);
    Averages.RatioMonotone(Positives(t1), Positives(t2), Positives(docs));
  }

  /** With `k` = 0 nothing is retrieved. */
  lemma RecallZeroCutOff(docs: seq<Doc>)
    requires Positives(docs) > 0
    ensures RecallAtK(docs, Some(0)) == Some(0.0)
  {
    var top := TopOf(SortDesc(docs), 0);
    assert top == [];
    Averages.RatioZero(Positives(docs));
  }
}
