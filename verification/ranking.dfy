/**
 * Ranking of the documents of one query: the descending sort by score that both
 * Recall@K and the reciprocal rank start from, and the exclusion mask that drops
 * rows whose target equals the `exclude` sentinel.
 */
module Ranking {

  /** One retrieved document: the model's score and the ground-truth target. */
  datatype Doc = Doc(score: real, target: int)

  /** A document is relevant when its target is positive. */
  predicate Relevant(d: Doc)
  {
    d.target > 0
  }

  /** Number of relevant documents (the sum of a binary target). */
  function Positives(docs: seq<Doc>): nat
  {
    if docs == [] then 0 else (if Relevant(docs[0]) then 1 else 0) + Positives(docs[1..])
  }

  lemma {:induction false} PositivesAppend(a: seq<Doc>, b: seq<Doc>)
    ensures Positives(a + b) == Positives(a) + Positives(b)
  {
    if a == [] {
      assert a + b == b;
    } else {
      assert (a + b)[1..] == a[1..] + b;
      PositivesAppend(a[1..], b);
    }
  }

  /** No more relevant documents in a prefix than in the whole list, and more in a longer prefix. */
  lemma PositivesPrefix(docs: seq<Doc>, i: nat, j: nat)
    requires i <= j <= |docs|
    ensures Positives(docs[..i]) <= Positives(docs[..j]) <= Positives(docs)
  {
    assert docs[..j] == docs[..i] + docs[i..j];
    PositivesAppend(docs[..i], docs[i..j]);
    assert docs == docs[..j] + docs[j..];
    PositivesAppend(docs[..j], docs[j..]);
  }

  /** There is a relevant document exactly when the count of relevant documents is positive. */
  lemma {:induction false} PositivesExist(docs: seq<Doc>)
    ensures Positives(docs) > 0 <==> exists i :: 0 <= i < |docs| && Relevant(docs[i])
  {
    if docs != [] {
      PositivesExist(docs[1..]);
      if Positives(docs[1..]) > 0 {
        var i :| 0 <= i < |docs[1..]| && Relevant(docs[1..][i]);
        assert Relevant(docs[i + 1]);
      }
      assert (exists i :: 0 <= i < |docs[1..]| && Relevant(docs[1..][i])) ==>
        exists i :: 0 <= i < |docs| && Relevant(docs[i]);
    }
  }

  predicate Descending(docs: seq<Doc>)
  {
    forall i, j :: 0 <= i < j < |docs| ==> docs[i].score >= docs[j].score
  }

  /** Inserts `d` into a descending list, before every document that scores no higher. */
  function Insert(d: Doc, sorted: seq<Doc>): (r: seq<Doc>)
    requires Descending(sorted)
    ensures Descending(r)
    ensures multiset(r) == multiset(sorted) + multiset{d}
    ensures Positives(r) == Positives(sorted) + Positives([d])
    ensures |r| == |sorted| + 1
    ensures r[0] == d || (sorted != [] && r[0] == sorted[0])
  {
    if sorted == [] || d.score >= sorted[0].score then
      PositivesAppend([d], sorted);
      [d] + sorted
    else
      var rest := Insert(d, sorted[1..]);
      assert sorted == [sorted[0]] + sorted[1..];
      PositivesAppend([sorted[0]], sorted[1..]);
      PositivesAppend([sorted[0]], rest);
      [sorted[0]] + rest
  }

  /**
   * The documents ranked by descending score (the reversed argsort of the scores);
   * equal scores keep their input order.
   */
  function SortDesc(docs: seq<Doc>): (r: seq<Doc>)
    ensures Descending(r)
    ensures multiset(r) == multiset(docs)
    ensures Positives(r) == Positives(docs)
    ensures |r| == |docs|
  {
    if docs == [] then []
    else
      assert docs == [docs[0]] + docs[1..];
      PositivesAppend([docs[0]], docs[1..]);
      Insert(docs[0], SortDesc(docs[1..]))
  }

  /** No two documents share a score. */
  predicate DistinctScores(docs: seq<Doc>)
  {
    forall i, j :: 0 <= i < j < |docs| ==> docs[i].score != docs[j].score
  }

  /** Removing the head of a list removes one copy of it from the list's multiset. */
  lemma MultisetTail(s: seq<Doc>)
    requires s != []
    ensures multiset(s[1..]) == multiset(s) - multiset{s[0]}
  {
    assert s == [s[0]] + s[1..];
  }

  /** Two descending arrangements of the same documents with distinct scores start alike. */
  lemma DescendingHead(s: seq<Doc>, t: seq<Doc>)
    requires Descending(s) && Descending(t) && DistinctScores(s)
    requires multiset(s) == multiset(t) && s != []
    ensures t != [] && s[0] == t[0]
  {
    assert s[0] in multiset(t);
    var j :| 0 <= j < |t| && t[j] == s[0];
    assert t[0] in multiset(s);
    var i :| 0 <= i < |s| && s[i] == t[0];
    assert s[0].score >= s[i].score == t[0].score >= t[j].score == s[0].score;
    assert i == 0;
  }

  /**
   * Two descending arrangements of the same documents coincide when the scores are
   * distinct: the ranking does not depend on how the sort breaks ties.
   */
  lemma {:induction false} DescendingUnique(s: seq<Doc>, t: seq<Doc>)
    requires Descending(s) && Descending(t) && DistinctScores(s)
    requires multiset(s) == multiset(t)
    ensures s == t
  {
    if s == [] {
      assert |t| == |multiset(t)| == 0;
    } else {
      DescendingHead(s, t);
      MultisetTail(s);
      MultisetTail(t);
      DescendingUnique(s[1..], t[1..]);
      assert s == [s[0]] + s[1..] && t == [t[0]] + t[1..];
    }
  }

  /** With distinct scores, any descending arrangement of the documents is their ranking. */
  lemma SortDescUnique(docs: seq<Doc>, s: seq<Doc>)
    requires Descending(s) && DistinctScores(s) && multiset(s) == multiset(docs)
    ensures SortDesc(docs) == s
  {
    DescendingUnique(s, SortDesc(docs));
  }

  /** The rows kept by the mask `target != exclude`, paired and in their input order. */
  function Keep(docs: seq<Doc>, exclude: int): (r: seq<Doc>)
    ensures forall d :: d in r <==> d in docs && d.target != exclude
    ensures |r| <= |docs|
  {
    if docs == [] then []
    else (if docs[0].target != exclude then [docs[0]] else []) + Keep(docs[1..], exclude)
  }

  /** Masking a concatenation masks each part: the kept rows keep their relative order. */
  lemma {:induction false} KeepAppend(a: seq<Doc>, b: seq<Doc>, exclude: int)
    ensures Keep(a + b, exclude) == Keep(a, exclude) + Keep(b, exclude)
  {
    if a == [] {
      assert a + b == b;
    } else {
      assert (a + b)[1..] == a[1..] + b;
      KeepAppend(a[1..], b, exclude);
    }
  }

  /** Masking twice drops nothing more than masking once. */
  lemma {:induction false} KeepIdempotent(docs: seq<Doc>, exclude: int)
    ensures Keep(Keep(docs, exclude), exclude) == Keep(docs, exclude)
  {
    if docs != [] {
      var head := if docs[0].target != exclude then [docs[0]] else [];
      KeepAppend(head, Keep(docs[1..], exclude), exclude);
      KeepIdempotent(docs[1..], exclude);
    }
  }

  /** A list without `exclude` targets is left as it is. */
  lemma {:induction false} KeepNothingExcluded(docs: seq<Doc>, exclude: int)
    requires forall i :: 0 <= i < |docs| ==> docs[i].target != exclude
    ensures Keep(docs, exclude) == docs
  {
    if docs != [] {
      KeepNothingExcluded(docs[1..], exclude);
    }
  }

  /** A list whose every target is `exclude` is masked away entirely. */
  lemma {:induction false} KeepAllExcluded(docs: seq<Doc>, exclude: int)
    requires forall i :: 0 <= i < |docs| ==> docs[i].target == exclude
    ensures Keep(docs, exclude) == []
  {
    if docs != [] {
      KeepAllExcluded(docs[1..], exclude);
    }
  }
}
