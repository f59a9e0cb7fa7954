/** Sums and arithmetic means over exact rationals. */
module Averages {
  import opened Wrappers

  function Sum(xs: seq<real>): real
  {
    if xs == [] then 0.0 else xs[0] + Sum(xs[1..])
  }

  /** Arithmetic mean; an empty sequence averages to 0.0. */
  function Mean(xs: seq<real>): real
  {
    if |xs| == 0 then 0.0 else Sum(xs) / (|xs| as real)
  }

  predicate AllWithin(xs: seq<real>, lo: real, hi: real)
  {
    forall i :: 0 <= i < |xs| ==> lo <= xs[i] <= hi
  }

  lemma {:induction false} SumWithin(xs: seq<real>, lo: real, hi: real)
    requires AllWithin(xs, lo, hi)
    ensures (|xs| as real) * lo <= Sum(xs) <= (|xs| as real) * hi
  {
    if xs != [] {
      SumWithin(xs[1..], lo, hi);
    }
  }

  /** A mean of values in [lo, hi] lies in [lo, hi]. */
  lemma MeanWithin(xs: seq<real>, lo: real, hi: real)
    requires |xs| > 0 && AllWithin(xs, lo, hi)
    ensures lo <= Mean(xs) <= hi
  {
    SumWithin(xs, lo, hi);
    var n := |xs| as real;
    assert n * lo <= Sum(xs) <= n * hi;
    assert Sum(xs) / n >= lo by {
      assert Sum(xs) / n * n == Sum(xs);
    }
    assert Sum(xs) / n <= hi by {
      assert Sum(xs) / n * n == Sum(xs);
    }
  }

  /** A mean of shares is a share; the empty mean 0.0 is one too. */
  lemma MeanOfShares(xs: seq<real>)
    requires AllWithin(xs, 0.0, 1.0)
    ensures 0.0 <= Mean(xs) <= 1.0
  {
    if xs != [] {
      MeanWithin(xs, 0.0, 1.0);
    }
  }

  /** The quotient of two counts, as the share of the second that the first makes up. */
  function Ratio(a: nat, b: nat): (r: real)
    requires b > 0
    ensures r * b as real == a as real
    ensures a <= b ==> 0.0 <= r <= 1.0
  {
    var q := a as real / b as real;
    assert q * (b as real) == a as real;
    q
  }

  /** A positive count makes up all of itself. */
  lemma RatioWhole(b: nat)
    requires b > 0
    ensures Ratio(b, b) == 1.0
  {
    RatioIs(b, b, 1.0);
  }

  /** Nothing makes up none of a positive count. */
  lemma RatioZero(b: nat)
    requires b > 0
    ensures Ratio(0, b) == 0.0
  {
    RatioIs(0, b, 0.0);
  }

  /** A positive count makes up a positive share. */
  lemma RatioPositive(a: nat, b: nat)
    requires a > 0 && b > 0
    ensures Ratio(a, b) > 0.0
  {
    var r := Ratio(a, b);
    assert (-r) * b as real == -(a as real);
    ProductSign(-r, b as real);
  }

  /** A larger count makes up a larger share of the same total. */
  lemma RatioMonotone(a1: nat, a2: nat, b: nat)
    requires a1 <= a2 && b > 0
    ensures Ratio(a1, b) <= Ratio(a2, b)
  {
    var q1, q2 := Ratio(a1, b), Ratio(a2, b);
    assert (q2 - q1) * b as real == (a2 - a1) as real;
    ProductSign(q2 - q1, b as real);
  }

  /** Multiplying by a positive number keeps the sign. */
  lemma ProductSign(x: real, y: real)
    requires y > 0.0
    ensures x * y >= 0.0 <==> x >= 0.0
  {
    if x >= 0.0 {
      assert x * y >= 0.0;
    } else {
      assert x * y < 0.0;
    }
  }

  /** A share is pinned down by the value that multiplies back to the count. */
  lemma RatioIs(a: nat, b: nat, q: real)
    requires b > 0 && q * b as real == a as real
    ensures Ratio(a, b) == q
  {
    var r := Ratio(a, b);
    assert (r - q) * b as real == 0.0;
  }

  /** Every entry is a number (no NaN). */
  predicate AllDefined(xs: seq<Option<real>>)
  {
    forall i :: 0 <= i < |xs| ==> xs[i].Some?
  }

  /** Removes the `Some` wrappers of a NaN-free sequence. */
  function Values(xs: seq<Option<real>>): (r: seq<real>)
    requires AllDefined(xs)
    ensures |r| == |xs| && forall i :: 0 <= i < |xs| ==> xs[i] == Some(r[i])
  {
    if xs == [] then [] else [xs[0].value] + Values(xs[1..])
  }

  /** Mean in which a single NaN makes the whole mean NaN; an empty sequence averages to 0.0. */
  function MeanOrNaN(xs: seq<Option<real>>): (r: Option<real>)
    ensures r.Some? <==> AllDefined(xs)
  {
    if AllDefined(xs) then Some(Mean(Values(xs))) else None
  }

  /** A quotient is pinned down by the value that multiplies back to the dividend. */
  lemma FractionIs(a: real, b: real, q: real)
    requires b != 0.0 && q * b == a
    ensures a / b == q
  {
  }

  /** Two defined values average to their midpoint. */
  lemma MeanOfTwo(a: real, b: real, m: real)
    requires m * 2.0 == a + b
    ensures MeanOrNaN([Some(a), Some(b)]) == Some(m)
  {
    var xs := [Some(a), Some(b)];
    assert AllDefined(xs);
    assert Values(xs) == [a, b];
    assert [a, b][1..] == [b];
    assert [b][1..] == [];
    assert Sum([b]) == b;
    assert Sum([a, b]) == a + b;
    assert |[a, b]| as real == 2.0;
    FractionIs(a + b, 2.0, m);
  }

  /** The quotient of two non-negative amounts, the first no larger than the second. */
  function Quotient(a: real, b: real): (r: real)
    requires 0.0 <= a <= b && b > 0.0
    ensures r * b == a
    ensures 0.0 <= r <= 1.0
    ensures r == 0.0 <==> a == 0.0
  {
    a / b
  }

  /** A quotient is pinned down by the value that multiplies back to the dividend. */
  lemma QuotientIs(a: real, b: real, q: real)
    requires 0.0 <= a <= b && b > 0.0 && q * b == a
    ensures Quotient(a, b) == q
  {
    var r := Quotient(a, b);
    assert (r - q) * b == 0.0;
  }

  /** Weights and values multiplied pairwise and summed. */
  function Dot(ws: seq<real>, xs: seq<real>): real
    requires |ws| == |xs|
  {
    if ws == [] then 0.0 else ws[0] * xs[0] + Dot(ws[1..], xs[1..])
  }

  lemma ScaledShare(w: real, x: real)
    requires w >= 0.0 && 0.0 <= x <= 1.0
    ensures 0.0 <= w * x <= w
  {
    assert w * x <= w * 1.0;
  }

  lemma AddWithin(a: real, b: real, c: real, d: real)
    requires 0.0 <= a <= b && 0.0 <= c <= d
    ensures 0.0 <= a + c <= b + d
  {
  }

  /** Shares weighted by non-negative weights sum to at most the total weight. */
  lemma {:induction false} DotWithin(ws: seq<real>, xs: seq<real>)
    requires |ws| == |xs| && AllWithin(xs, 0.0, 1.0) && forall i :: 0 <= i < |ws| ==> ws[i] >= 0.0
    ensures 0.0 <= Dot(ws, xs) <= Sum(ws)
  {
    if ws != [] {
      var w, x := ws[1..], xs[1..];
      assert AllWithin(x, 0.0, 1.0) by {
        forall i | 0 <= i < |x|
          ensures 0.0 <= x[i] <= 1.0
        {
          assert x[i] == xs[i + 1];
        }
      }
      DotWithin(w, x);
      ScaledShare(ws[0], xs[0]);
      AddWithin(ws[0] * xs[0], ws[0], Dot(w, x), Sum(w));
    }
  }

  /**
   * Mean of shares weighted by non-negative weights: a share again, and 0.0
   * when the weights sum to nothing.
   */
  function WeightedMean(ws: seq<real>, xs: seq<real>): (r: real)
    requires |ws| == |xs| && AllWithin(xs, 0.0, 1.0) && forall i :: 0 <= i < |ws| ==> ws[i] >= 0.0
    ensures 0.0 <= r <= 1.0
    ensures Sum(ws) == 0.0 ==> r == 0.0
  {
    DotWithin(ws, xs);
    if Sum(ws) == 0.0 then 0.0 else Quotient(Dot(ws, xs), Sum(ws))
  }

  /** With all weights but one zero, the products and the weights reduce to that one. */
  lemma {:induction false} DotOne(ws: seq<real>, xs: seq<real>, j: nat)
    requires |ws| == |xs| && j < |ws| && forall i :: 0 <= i < |ws| && i != j ==> ws[i] == 0.0
    ensures Dot(ws, xs) == ws[j] * xs[j] && Sum(ws) == ws[j]
  {
    if j == 0 {
      DotNone(ws[1..], xs[1..]);
    } else {
      assert ws[0] == 0.0;
      DotOne(ws[1..], xs[1..], j - 1);
    }
  }

  lemma {:induction false} DotNone(ws: seq<real>, xs: seq<real>)
    requires |ws| == |xs| && forall i :: 0 <= i < |ws| ==> ws[i] == 0.0
    ensures Dot(ws, xs) == 0.0 && Sum(ws) == 0.0
  {
    if ws != [] {
      assert ws[0] == 0.0;
      DotNone(ws[1..], xs[1..]);
    }
  }

  /** When only one value carries weight, the weighted mean is that value. */
  lemma WeightedMeanOne(ws: seq<real>, xs: seq<real>, j: nat)
    requires |ws| == |xs| && AllWithin(xs, 0.0, 1.0) && forall i :: 0 <= i < |ws| ==> ws[i] >= 0.0
    requires j < |ws| && ws[j] > 0.0 && forall i :: 0 <= i < |ws| && i != j ==> ws[i] == 0.0
    ensures WeightedMean(ws, xs) == xs[j]
  {
    DotOne(ws, xs, j);
    DotWithin(ws, xs);
    QuotientIs(Dot(ws, xs), Sum(ws), xs[j]);
  }

  /** One value averages to itself. */
  lemma MeanOfOne(xs: seq<real>)
    requires |xs| == 1
    ensures Mean(xs) == xs[0]
  {
    assert xs[1..] == [];
    assert Sum(xs) == xs[0];
  }
}
