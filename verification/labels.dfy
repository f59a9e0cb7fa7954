/**
 * The label set a reference F-beta score is computed over: the classes
 * 0 .. numClasses - 1 in order, with the ignored class taken out when it is
 * one of them. An ignore index that names no class leaves the set whole.
 */
module Labels {
  import opened Wrappers

  /** The classes 0 .. n - 1, in order. */
  function Range(n: nat): (r: seq<nat>)
    ensures |r| == n && forall i :: 0 <= i < n ==> r[i] == i
  {
    if n == 0 then [] else Range(n - 1) + [n - 1]
  }

  /** The sequence without its first occurrence of `v`; unchanged when `v` does not occur. */
  function RemoveFirst(xs: seq<nat>, v: int): seq<nat>
  {
    if xs == [] then []
    else if xs[0] == v then xs[1..]
    else [xs[0]] + RemoveFirst(xs[1..], v)
  }

  /** The label set: all classes, less the ignored one. */
  function LabelSet(numClasses: nat, ignore: Option<int>): seq<nat>
  {
    match ignore
    case None => Range(numClasses)
    case Some(v) => RemoveFirst(Range(numClasses), v)
  }

  /** `ignore` names one of the classes. */
  predicate Ignores(numClasses: nat, ignore: Option<int>)
  {
    ignore.Some? && 0 <= ignore.value < numClasses
  }

  /** Splicing out position `j > 0` keeps the head in front of the spliced tail. */
  lemma SpliceTail(xs: seq<nat>, j: nat)
    requires 0 < j < |xs|
    ensures xs[..j] + xs[j + 1..] == [xs[0]] + (xs[1..][..j - 1] + xs[1..][j..])
  {
  }

  /** Removing the first occurrence found at `j` splices out position `j`. */
  lemma {:induction false} RemoveFirstAt(xs: seq<nat>, v: int, j: nat)
    requires j <= |xs| && (forall k :: 0 <= k < j ==> xs[k] != v) && (j < |xs| ==> xs[j] == v)
    ensures RemoveFirst(xs, v) == if j < |xs| then xs[..j] + xs[j + 1..] else xs
  {
    if xs == [] {
    } else if j == 0 {
      assert xs[..0] + xs[1..] == xs[1..];
    } else {
      assert xs[0] != v;
      RemoveFirstAt(xs[1..], v, j - 1);
      if j < |xs| {
        SpliceTail(xs, j);
      } else {
        assert [xs[0]] + xs[1..] == xs;
      }
    }
  }

  /**
   * Label `j` of the set: class `j` before the ignored class, class `j + 1`
   * from it on; one label fewer than classes exactly when a class is ignored.
   */
  lemma LabelSetIndex(numClasses: nat, ignore: Option<int>)
    ensures var labels := LabelSet(numClasses, ignore);
            |labels| == (if Ignores(numClasses, ignore) then numClasses - 1 else numClasses)
            && forall j :: 0 <= j < |labels| ==>
                 labels[j] == (if Ignores(numClasses, ignore) && j >= ignore.value then j + 1 else j)
  {
    var r := Range(numClasses);
    if ignore.Some? {
      var v := ignore.value;
      if 0 <= v < numClasses {
        RemoveFirstAt(r, v, v);
      } else {
        RemoveFirstAt(r, v, numClasses);
      }
    }
  }

  /** A class is a label exactly when it is in range and not the ignored one. */
  lemma LabelSetMembers(numClasses: nat, ignore: Option<int>, c: int)
    ensures c in LabelSet(numClasses, ignore) <==> 0 <= c < numClasses && ignore != Some(c)
  {
    LabelSetIndex(numClasses, ignore);
    var labels := LabelSet(numClasses, ignore);
    if 0 <= c < numClasses && ignore != Some(c) {
      var j := if Ignores(numClasses, ignore) && c > ignore.value then c - 1 else c;
      assert labels[j] == c;
    }
  }

  /** The labels are strictly increasing, so each class appears at most once. */
  lemma LabelSetIncreasing(numClasses: nat, ignore: Option<int>)
    ensures var labels := LabelSet(numClasses, ignore);
            forall i, j :: 0 <= i < j < |labels| ==> labels[i] < labels[j]
  {
    LabelSetIndex(numClasses, ignore);
  }

  /**
   * Builds the label set as the reference does: the list of all classes,
   * then the first occurrence of the ignored class removed if there is one.
   */
  method Labels(numClasses: nat, ignore: Option<int>) returns (labels: seq<nat>)
    ensures labels == LabelSet(numClasses, ignore)
  {
    labels := [];
    var c := 0;
    while c < numClasses
      invariant 0 <= c <= numClasses && labels == Range(c)
    {
      labels := labels + [c];
      c := c + 1;
    }
    if ignore.Some? {
      var v := ignore.value;
      var j := 0;
      while j < |labels| && labels[j] != v
        invariant 0 <= j <= |labels| && forall k :: 0 <= k < j ==> labels[k] != v
      {
        j := j + 1;
      }
      RemoveFirstAt(labels, v, j);
      if j < |labels| {
        labels := labels[..j] + labels[j + 1..];
      }
    }
  }
}
