/**
 * Counting small concrete batches. True positives are counted here without
 * the confusion-count record, as plain numbers, so that evaluating them on
 * concrete rows stays cheap; the lemmas tie them back to the counts.
 */
module ExampleCounts {
  import opened StatScores

  /** Number of labels set in both rows: the true positives of one sample. */
  function Hits(p: seq<bool>, t: seq<bool>, labels: seq<nat>): nat
  {
    if labels == [] then 0 else Bit(At(p, labels[0]) && At(t, labels[0])) + Hits(p, t, labels[1..])
  }

  /** The true positives of every sample, summed. */
  function HitCells(preds: seq<seq<bool>>, target: seq<seq<bool>>, labels: seq<nat>): nat
    requires |preds| == |target|
  {
    if preds == [] then 0 else Hits(preds[0], target[0], labels) + HitCells(preds[1..], target[1..], labels)
  }

  lemma {:induction false} SampleHits(p: seq<bool>, t: seq<bool>, labels: seq<nat>)
    ensures SampleCounts(p, t, labels).tp == Hits(p, t, labels)
  {
    if labels != [] {
      SampleHits(p, t, labels[1..]);
    }
  }

  lemma {:induction false} MicroHits(preds: seq<seq<bool>>, target: seq<seq<bool>>, labels: seq<nat>)
    requires |preds| == |target|
    ensures MicroCounts(preds, target, labels).tp == HitCells(preds, target, labels)
  {
    if preds != [] {
      SampleHits(preds[0], target[0], labels);
      MicroHits(preds[1..], target[1..], labels);
    }
  }
}
