/**
 * Turning scores into canonical predictions: the `k` highest-scored classes
 * of a sample are predicted, the rest are not; a label becomes a one-hot row.
 */
module TopK {
  import opened Wrappers

  /** Number of set entries. */
  function Count(row: seq<bool>): nat
  {
    if row == [] then 0 else (if row[0] then 1 else 0) + Count(row[1..])
  }

  /** No entry set. */
  function NoneSet(n: nat): (r: seq<bool>)
    ensures |r| == n && forall i :: 0 <= i < n ==> !r[i]
  {
    seq(n, _ => false)
  }

  /**
   * The highest-scored position in `from` .. end not yet taken (the first
   * one among equal scores), or None when all of them are taken.
   */
  function BestFree(scores: seq<real>, taken: seq<bool>, from: nat): (r: Option<nat>)
    requires |taken| == |scores| && from <= |scores|
    ensures r.Some? ==> from <= r.value < |scores| && !taken[r.value]
    ensures r.Some? ==> forall k :: from <= k < |scores| && !taken[k] ==> scores[k] <= scores[r.value]
    ensures r.None? ==> forall k :: from <= k < |scores| ==> taken[k]
    decreases |scores| - from
  {
    if from == |scores| then None
    else
      var rest := BestFree(scores, taken, from + 1);
      if taken[from] then rest
      else if rest.None? || scores[from] >= scores[rest.value] then Some(from)
      else rest
  }

  /** The `k` highest-scored positions, chosen one at a time. */
  function Select(scores: seq<real>, k: nat): (r: seq<bool>)
    ensures |r| == |scores|
  {
    if k == 0 then NoneSet(|scores|)
    else
      var prev := Select(scores, k - 1);
      match BestFree(scores, prev, 0)
      case None => prev
      case Some(j) => prev[j := true]
  }

  lemma {:induction false} CountNoneSet(n: nat)
    ensures Count(NoneSet(n)) == 0
  {
    if n > 0 {
      assert NoneSet(n)[1..] == NoneSet(n - 1);
      CountNoneSet(n - 1);
    }
  }

  lemma {:induction false} CountAllSet(row: seq<bool>)
    requires forall i :: 0 <= i < |row| ==> row[i]
    ensures Count(row) == |row|
  {
    if row != [] {
      CountAllSet(row[1..]);
    }
  }

  /** Setting an unset entry adds one to the count. */
  lemma {:induction false} CountSetOne(row: seq<bool>, j: nat)
    requires j < |row| && !row[j]
    ensures Count(row[j := true]) == Count(row) + 1
  {
    if j > 0 {
      assert row[j := true][1..] == row[1..][j - 1 := true];
      CountSetOne(row[1..], j - 1);
    }
  }

  lemma {:induction false} CountAtMost(row: seq<bool>)
    ensures Count(row) <= |row|
  {
    if row != [] {
      CountAtMost(row[1..]);
    }
  }

  /** Exactly min(k, number of classes) classes are selected. */
  lemma {:induction false} SelectCount(scores: seq<real>, k: nat)
    ensures Count(Select(scores, k)) == if k <= |scores| then k else |scores|
  {
    if k == 0 {
      CountNoneSet(|scores|);
    } else {
      var prev := Select(scores, k - 1);
      SelectCount(scores, k - 1);
      match BestFree(scores, prev, 0)
      case None =>
        CountAllSet(prev);
      case Some(j) =>
        CountSetOne(prev, j);
        CountAtMost(prev[j := true]);
    }
  }

  /** Every selected class scores at least as high as every class left out. */
  lemma {:induction false} SelectOrdered(scores: seq<real>, k: nat)
    ensures var r := Select(scores, k);
            forall i, j :: 0 <= i < |r| && 0 <= j < |r| && r[i] && !r[j] ==> scores[i] >= scores[j]
  {
    if k > 0 {
      SelectOrdered(scores, k - 1);
    }
  }

  /** Top-k selection applied to every sample. */
  function SelectRows(probs: seq<seq<real>>, k: nat): (r: seq<seq<bool>>)
    ensures |r| == |probs| && forall i :: 0 <= i < |probs| ==> r[i] == Select(probs[i], k)
  {
    seq(|probs|, i requires 0 <= i < |probs| => Select(probs[i], k))
  }

  /** The one-hot row of class `cls` over `numClasses` classes. */
  function OneHot(cls: int, numClasses: nat): (r: seq<bool>)
    ensures |r| == numClasses && forall c :: 0 <= c < numClasses ==> (r[c] <==> c == cls)
  {
    seq(numClasses, c => c == cls)
  }

  /** One-hot rows of a sequence of labels. */
  function OneHotRows(labels: seq<int>, numClasses: nat): (r: seq<seq<bool>>)
    ensures |r| == |labels| && forall i :: 0 <= i < |labels| ==> r[i] == OneHot(labels[i], numClasses)
  {
    seq(|labels|, i requires 0 <= i < |labels| => OneHot(labels[i], numClasses))
  }
}
