/**
 * The F-beta score of a set of confusion counts: the weighted harmonic mean
 * of precision and recall, in which recall counts beta squared times as much
 * as precision. A zero denominator (a class neither predicted nor present)
 * scores 0 rather than NaN.
 */
module FBetaScore {
  import opened StatScores
  import Averages

  /** beta squared: how much more recall weighs than precision. */
  function Weight(beta: real): real
  {
    beta * beta
  }

  /** beta squared is never negative, and positive for a non-zero beta. */
  lemma WeightSign(beta: real)
    ensures Weight(beta) >= 0.0
    ensures beta != 0.0 ==> Weight(beta) > 0.0
  {
    if beta > 0.0 {
      calc {
        Weight(beta);
        == beta * beta;
        > 0.0;
      }
    } else if beta < 0.0 {
      calc {
        Weight(beta);
        == (-beta) * (-beta);
        > 0.0;
      }
    }
  }

  function Numerator(c: Counts, beta: real): real
  {
    (1.0 + Weight(beta)) * c.tp as real
  }

  function Denominator(c: Counts, beta: real): real
  {
    (1.0 + Weight(beta)) * c.tp as real + Weight(beta) * c.fn as real + c.fp as real
  }

  /** The denominator regrouped: beta^2 times the support plus the predicted positives. */
  lemma DenominatorForm(c: Counts, beta: real)
    ensures Denominator(c, beta) == Weight(beta) * (c.tp + c.fn) as real + (c.tp + c.fp) as real
  {
  }

  /** The denominator is at least the number of predicted positives. */
  lemma DenominatorAtLeast(c: Counts, beta: real)
    ensures Denominator(c, beta) >= (c.tp + c.fp) as real
  {
    WeightSign(beta);
    NonNegativeProduct(Weight(beta), c.tp as real);
    NonNegativeProduct(Weight(beta), c.fn as real);
  }

  /** The numerator never exceeds the denominator. */
  lemma NumeratorBelow(c: Counts, beta: real)
    ensures 0.0 <= Numerator(c, beta) <= Denominator(c, beta)
  {
    WeightSign(beta);
    NonNegativeProduct(1.0 + Weight(beta), c.tp as real);
    NonNegativeProduct(Weight(beta), c.fn as real);
  }

  lemma NonNegativeProduct(a: real, b: real)
    requires a >= 0.0 && b >= 0.0
    ensures a * b >= 0.0
  {
  }

  lemma PositiveProduct(a: real, b: real)
    requires a > 0.0 && b > 0.0
    ensures a * b > 0.0
  {
  }

  /**
   * F-beta of the counts: in [0, 1], and 0 exactly when there is no true
   * positive (so also on a zero denominator).
   */
  function FBeta(c: Counts, beta: real): (r: real)
    ensures 0.0 <= r <= 1.0
    ensures r == 0.0 <==> c.tp == 0
  {
    NumeratorBelow(c, beta);
    ZeroNumerator(c, beta);
    if Denominator(c, beta) == 0.0 then 0.0 else Averages.Quotient(Numerator(c, beta), Denominator(c, beta))
  }

  /** F-beta is pinned down by the value that multiplies the denominator back to the numerator. */
  lemma FBetaIs(c: Counts, beta: real, q: real)
    requires Denominator(c, beta) > 0.0 && q * Denominator(c, beta) == Numerator(c, beta)
    ensures FBeta(c, beta) == q
  {
    NumeratorBelow(c, beta);
    Averages.QuotientIs(Numerator(c, beta), Denominator(c, beta), q);
  }

  /**
   * `q` is the F-beta of `tp` true positives among `predicted` predicted
   * positives and `support` actual positives: something was predicted, and
   * q * (beta^2 * support + predicted) == (1 + beta^2) * tp.
   */
  predicate ScoresAs(tp: nat, predicted: nat, support: nat, beta: real, q: real)
  {
    predicted > 0 && q * (Weight(beta) * support as real + predicted as real) == (1.0 + Weight(beta)) * tp as real
  }

  /** F-beta from the three totals a test states: true positives, tp + fp and tp + fn. */
  lemma FBetaFromTotals(c: Counts, beta: real, tp: nat, predicted: nat, support: nat, q: real)
    requires c.tp == tp && c.tp + c.fp == predicted && Support(c) == support
    requires ScoresAs(tp, predicted, support, beta, q)
    ensures FBeta(c, beta) == q
  {
    DenominatorForm(c, beta);
    DenominatorAtLeast(c, beta);
    FBetaIs(c, beta, q);
  }

  /** The numerator vanishes exactly when there is no true positive. */
  lemma ZeroNumerator(c: Counts, beta: real)
    ensures Numerator(c, beta) == 0.0 <==> c.tp == 0
  {
    WeightSign(beta);
    if c.tp > 0 {
      PositiveProduct(1.0 + Weight(beta), c.tp as real);
    }
  }

  /** The denominator vanishes exactly for counts with nothing in them. */
  lemma ZeroDenominator(c: Counts, beta: real)
    requires beta != 0.0
    ensures Denominator(c, beta) == 0.0 <==> Absent(c)
  {
    WeightSign(beta);
    NonNegativeProduct(1.0 + Weight(beta), c.tp as real);
    NonNegativeProduct(Weight(beta), c.fn as real);
    if c.fn > 0 {
      PositiveProduct(Weight(beta), c.fn as real);
    }
    if c.tp > 0 {
      PositiveProduct(1.0 + Weight(beta), c.tp as real);
    }
  }

  /** Precision: the share of predicted positives that are right. */
  function Precision(c: Counts): real
    requires c.tp + c.fp > 0
  {
    Averages.Ratio(c.tp, c.tp + c.fp)
  }

  /** Recall: the share of actual positives that are found. */
  function Recall(c: Counts): real
    requires c.tp + c.fn > 0
  {
    Averages.Ratio(c.tp, c.tp + c.fn)
  }

  /**
   * With a true positive, F-beta is the weighted harmonic mean of precision
   * and recall: (1 + beta^2) P R / (beta^2 P + R).
   */
  lemma HarmonicMean(c: Counts, beta: real)
    requires c.tp > 0
    ensures Weight(beta) * Precision(c) + Recall(c) > 0.0
    ensures FBeta(c, beta)
            == (1.0 + Weight(beta)) * Precision(c) * Recall(c) / (Weight(beta) * Precision(c) + Recall(c))
  {
    HarmonicProduct(c, beta);
    Averages.FractionIs((1.0 + Weight(beta)) * Precision(c) * Recall(c), Weight(beta) * Precision(c) + Recall(c), FBeta(c, beta));
  }

  /** The harmonic-mean form multiplied out. */
  lemma HarmonicProduct(c: Counts, beta: real)
    requires c.tp > 0
    ensures Weight(beta) * Precision(c) + Recall(c) > 0.0
    ensures FBeta(c, beta) * (Weight(beta) * Precision(c) + Recall(c)) == (1.0 + Weight(beta)) * Precision(c) * Recall(c)
  {
    HarmonicInputs(c, beta);
    HarmonicAlgebra(Weight(beta), Precision(c), Recall(c), c.tp as real, (c.tp + c.fp) as real, (c.tp + c.fn) as real,
                    Denominator(c, beta), FBeta(c, beta));
  }

  /** The facts the harmonic-mean algebra starts from. */
  lemma HarmonicInputs(c: Counts, beta: real)
    requires c.tp > 0
    ensures Weight(beta) >= 0.0 && Precision(c) > 0.0 && Recall(c) > 0.0
    ensures Precision(c) * (c.tp + c.fp) as real == c.tp as real && Recall(c) * (c.tp + c.fn) as real == c.tp as real
    ensures Denominator(c, beta) == Weight(beta) * (c.tp + c.fn) as real + (c.tp + c.fp) as real
    ensures FBeta(c, beta) * Denominator(c, beta) == (1.0 + Weight(beta)) * c.tp as real
  {
    WeightSign(beta);
    DenominatorForm(c, beta);
    DenominatorAtLeast(c, beta);
    FBetaProduct(c, beta);
    ShareFacts(c);
  }

  /** F-beta multiplies back to its numerator. */
  lemma FBetaProduct(c: Counts, beta: real)
    requires Denominator(c, beta) != 0.0
    ensures FBeta(c, beta) * Denominator(c, beta) == (1.0 + Weight(beta)) * c.tp as real
  {
  }

  /** Precision and recall are positive shares when there is a true positive. */
  lemma ShareFacts(c: Counts)
    requires c.tp > 0
    ensures Precision(c) > 0.0 && Precision(c) * (c.tp + c.fp) as real == c.tp as real
    ensures Recall(c) > 0.0 && Recall(c) * (c.tp + c.fn) as real == c.tp as real
  {
    Averages.RatioPositive(c.tp, c.tp + c.fp);
    Averages.RatioPositive(c.tp, c.tp + c.fn);
  }

  /**
   * The algebra behind the harmonic-mean form, over plain quantities: `pred`
   * stands for tp + fp and `sup` for tp + fn.
   */
  lemma HarmonicAlgebra(w: real, p: real, r: real, tp: real, pred: real, sup: real, den: real, f: real)
    requires w >= 0.0 && p > 0.0 && r > 0.0 && tp > 0.0
    requires p * pred == tp && r * sup == tp
    requires den == w * sup + pred && f * den == (1.0 + w) * tp
    ensures w * p + r > 0.0
    ensures f * (w * p + r) == (1.0 + w) * p * r
  {
    NonNegativeProduct(w, p);
    CrossMultiply(w, p, r, tp, pred, sup);
    var x, y := f * (w * p + r), (1.0 + w) * p * r;
    assert x * tp == y * tp by {
      calc {
        x * tp;
        == f * (tp * (w * p + r));
        == f * (p * r * den);
        == p * r * (f * den);
        == y * tp;
      }
    }
    assert (x - y) * tp == 0.0;
  }

  lemma CrossMultiply(w: real, p: real, r: real, tp: real, pred: real, sup: real)
    requires p * pred == tp && r * sup == tp
    ensures p * r * (w * sup + pred) == tp * (w * p + r)
  {
    assert p * r * (w * sup + pred) == w * p * (r * sup) + r * (p * pred);
  }

  /**
   * When false positives and false negatives balance, F-beta no longer
   * depends on beta: it is the share of the support that was found.
   */
  lemma Balanced(c: Counts, beta: real)
    requires c.fp == c.fn && Support(c) > 0
    ensures FBeta(c, beta) == Averages.Ratio(c.tp, Support(c))
  {
    WeightSign(beta);
    DenominatorForm(c, beta);
    DenominatorAtLeast(c, beta);
    FBetaProduct(c, beta);
    BalancedAlgebra(Weight(beta), FBeta(c, beta), c.tp as real, Support(c) as real, Denominator(c, beta));
    Averages.RatioIs(c.tp, Support(c), FBeta(c, beta));
  }

  lemma BalancedAlgebra(w: real, f: real, tp: real, sup: real, den: real)
    requires w >= 0.0 && sup > 0.0 && den == w * sup + sup && f * den == (1.0 + w) * tp
    ensures f * sup == tp
  {
    assert (1.0 + w) * (f * sup) == (1.0 + w) * tp;
    assert (1.0 + w) * (f * sup - tp) == 0.0;
  }
}
