/**
 * Confusion counts of classification inputs in canonical form: one row per
 * sample, one boolean column per class, predictions and targets side by side.
 * F-beta needs true positives, false positives and false negatives only.
 */
module StatScores {

  /** True positives, false positives and false negatives of a class, a sample or a whole batch. */
  datatype Counts = Counts(tp: nat, fp: nat, fn: nat)

  function Plus(a: Counts, b: Counts): Counts
  {
    Counts(a.tp + b.tp, a.fp + b.fp, a.fn + b.fn)
  }

  /** How often the class occurs in the target. */
  function Support(c: Counts): nat
  {
    c.tp + c.fn
  }

  /** Neither predicted nor present: the class takes no part in the batch. */
  predicate Absent(c: Counts)
  {
    c.tp == 0 && c.fp == 0 && c.fn == 0
  }

  function Bit(b: bool): nat
  {
    if b then 1 else 0
  }

  /** What one cell (a prediction and its target) adds to the counts. */
  function CellCounts(p: bool, t: bool): Counts
  {
    Counts(Bit(p && t), Bit(p && !t), Bit(!p && t))
  }

  /**
   * Column `c` of a row. The counting functions read cells through this
   * accessor; on canonical inputs (all that the normaliser lets through) every
   * column they read exists, and a column past the end would read as unset.
   */
  function At(row: seq<bool>, c: nat): bool
  {
    c < |row| && row[c]
  }

  /** Number of rows whose column `c` is set. */
  function ColumnCount(m: seq<seq<bool>>, c: nat): nat
  {
    if m == [] then 0 else Bit(At(m[0], c)) + ColumnCount(m[1..], c)
  }

  /** Number of labels whose column is set in one row. */
  function SetCount(row: seq<bool>, labels: seq<nat>): nat
  {
    if labels == [] then 0 else Bit(At(row, labels[0])) + SetCount(row, labels[1..])
  }

  /** Counts of class `c` over all rows. */
  function ClassCounts(preds: seq<seq<bool>>, target: seq<seq<bool>>, c: nat): Counts
    requires |preds| == |target|
  {
    if preds == [] then Counts(0, 0, 0)
    else Plus(CellCounts(At(preds[0], c), At(target[0], c)), ClassCounts(preds[1..], target[1..], c))
  }

  /** Counts of one sample over the given labels. */
  function SampleCounts(p: seq<bool>, t: seq<bool>, labels: seq<nat>): Counts
  {
    if labels == [] then Counts(0, 0, 0)
    else Plus(CellCounts(At(p, labels[0]), At(t, labels[0])), SampleCounts(p, t, labels[1..]))
  }

  /**
   * Counts summed over every sample and every given label: what `micro`
   * averaging scores. Summed sample by sample, as a batch is counted.
   */
  function MicroCounts(preds: seq<seq<bool>>, target: seq<seq<bool>>, labels: seq<nat>): Counts
    requires |preds| == |target|
  {
    if preds == [] then Counts(0, 0, 0)
    else Plus(SampleCounts(preds[0], target[0], labels), MicroCounts(preds[1..], target[1..], labels))
  }

  /** A sample counted over the single label `c` counts its cell in column `c`. */
  lemma SampleOfOneLabel(p: seq<bool>, t: seq<bool>, c: nat)
    ensures SampleCounts(p, t, [c]) == CellCounts(At(p, c), At(t, c))
  {
    assert [c][1..] == [];
  }

  /** Micro counts over the single label `c` are the counts of class `c`. */
  lemma {:induction false} MicroOfOneLabel(preds: seq<seq<bool>>, target: seq<seq<bool>>, c: nat)
    requires |preds| == |target|
    ensures MicroCounts(preds, target, [c]) == ClassCounts(preds, target, c)
  {
    if preds != [] {
      MicroOfOneLabel(preds[1..], target[1..], c);
      SampleOfOneLabel(preds[0], target[0], c);
    }
  }

  /** A column set in no row counts nothing. */
  lemma {:induction false} ColumnUnset(m: seq<seq<bool>>, c: nat)
    requires forall i :: 0 <= i < |m| ==> !At(m[i], c)
    ensures ColumnCount(m, c) == 0
  {
    if m != [] {
      assert !At(m[0], c);
      ColumnUnset(m[1..], c);
    }
  }

  /** A class's predicted positives split into tp + fp. */
  lemma {:induction false} ClassPredicted(preds: seq<seq<bool>>, target: seq<seq<bool>>, c: nat)
    requires |preds| == |target|
    ensures ClassCounts(preds, target, c).tp + ClassCounts(preds, target, c).fp == ColumnCount(preds, c)
  {
    if preds != [] {
      ClassPredicted(preds[1..], target[1..], c);
    }
  }

  /** A class's occurrences in the target split into tp + fn. */
  lemma {:induction false} ClassSupport(preds: seq<seq<bool>>, target: seq<seq<bool>>, c: nat)
    requires |preds| == |target|
    ensures Support(ClassCounts(preds, target, c)) == ColumnCount(target, c)
  {
    if preds != [] {
      ClassSupport(preds[1..], target[1..], c);
    }
  }

  /** A sample's set predictions split into tp + fp. */
  lemma {:induction false} SamplePredicted(p: seq<bool>, t: seq<bool>, labels: seq<nat>)
    ensures SampleCounts(p, t, labels).tp + SampleCounts(p, t, labels).fp == SetCount(p, labels)
  {
    if labels != [] {
      SamplePredicted(p, t, labels[1..]);
    }
  }

  /** A sample's set targets split into tp + fn. */
  lemma {:induction false} SampleSupport(p: seq<bool>, t: seq<bool>, labels: seq<nat>)
    ensures Support(SampleCounts(p, t, labels)) == SetCount(t, labels)
  {
    if labels != [] {
      SampleSupport(p, t, labels[1..]);
    }
  }

  /** The counts of a class add up over the two parts of a stacked batch. */
  lemma {:induction false} ClassCountsAppend(p1: seq<seq<bool>>, t1: seq<seq<bool>>, p2: seq<seq<bool>>, t2: seq<seq<bool>>, c: nat)
    requires |p1| == |t1| && |p2| == |t2|
    ensures ClassCounts(p1 + p2, t1 + t2, c) == Plus(ClassCounts(p1, t1, c), ClassCounts(p2, t2, c))
  {
    if p1 == [] {
      assert p1 + p2 == p2 && t1 + t2 == t2;
    } else {
      var p, t := p1 + p2, t1 + t2;
      assert p[1..] == p1[1..] + p2 && t[1..] == t1[1..] + t2;
      assert p[0] == p1[0] && t[0] == t1[0];
      ClassCountsAppend(p1[1..], t1[1..], p2, t2, c);
    }
  }

  /** The summed counts, too, add up over the two parts of a batch. */
  lemma {:induction false} MicroCountsAppend(p1: seq<seq<bool>>, t1: seq<seq<bool>>, p2: seq<seq<bool>>, t2: seq<seq<bool>>, labels: seq<nat>)
    requires |p1| == |t1| && |p2| == |t2|
    ensures MicroCounts(p1 + p2, t1 + t2, labels) == Plus(MicroCounts(p1, t1, labels), MicroCounts(p2, t2, labels))
  {
    if p1 == [] {
      assert p1 + p2 == p2 && t1 + t2 == t2;
    } else {
      var p, t := p1 + p2, t1 + t2;
      assert p[1..] == p1[1..] + p2 && t[1..] == t1[1..] + t2;
      assert p[0] == p1[0] && t[0] == t1[0];
      MicroCountsAppend(p1[1..], t1[1..], p2, t2, labels);
    }
  }

  /** Number of set cells, over the given labels, in all rows. */
  function SetCells(m: seq<seq<bool>>, labels: seq<nat>): nat
  {
    if m == [] then 0 else SetCount(m[0], labels) + SetCells(m[1..], labels)
  }

  /** The summed predicted positives, tp + fp, are the set prediction cells. */
  lemma {:induction false} MicroPredicted(preds: seq<seq<bool>>, target: seq<seq<bool>>, labels: seq<nat>)
    requires |preds| == |target|
    ensures MicroCounts(preds, target, labels).tp + MicroCounts(preds, target, labels).fp == SetCells(preds, labels)
  {
    if preds != [] {
      SamplePredicted(preds[0], target[0], labels);
      MicroPredicted(preds[1..], target[1..], labels);
    }
  }

  /** The summed support, tp + fn, is the set target cells. */
  lemma {:induction false} MicroSupport(preds: seq<seq<bool>>, target: seq<seq<bool>>, labels: seq<nat>)
    requires |preds| == |target|
    ensures Support(MicroCounts(preds, target, labels)) == SetCells(target, labels)
  {
    if preds != [] {
      var first, rest := SampleCounts(preds[0], target[0], labels), MicroCounts(preds[1..], target[1..], labels);
      SampleSupport(preds[0], target[0], labels);
      MicroSupport(preds[1..], target[1..], labels);
      assert MicroCounts(preds, target, labels) == Plus(first, rest);
      assert Support(Plus(first, rest)) == Support(first) + Support(rest);
    }
  }

  /** Every row sets exactly one of the labels: single-label (multiclass) data. */
  predicate OneLabelEach(m: seq<seq<bool>>, labels: seq<nat>)
  {
    forall i :: 0 <= i < |m| ==> SetCount(m[i], labels) == 1
  }

  /**
   * On single-label data every sample adds one predicted and one actual
   * positive: tp + fp and tp + fn both equal the number of samples, so the
   * summed false positives and false negatives agree.
   */
  lemma {:induction false} SingleLabelCounts(preds: seq<seq<bool>>, target: seq<seq<bool>>, labels: seq<nat>)
    requires |preds| == |target| && OneLabelEach(preds, labels) && OneLabelEach(target, labels)
    ensures var c := MicroCounts(preds, target, labels);
            c.tp + c.fp == |preds| && Support(c) == |preds|
  {
    if preds != [] {
      SamplePredicted(preds[0], target[0], labels);
      SampleSupport(preds[0], target[0], labels);
      SingleLabelCounts(preds[1..], target[1..], labels);
    }
  }
}
