/**
 * The probability pair derived from the safety score and the choice of the
 * predicted winner.
 */
module Probability {

  /**
   * The two facts about the exponential function the model relies on: it is
   * positive and strictly increasing. The exponential itself is a parameter.
   */
  ghost predicate IsExp(exp: real -> real) {
    && (forall x :: 0.0 < exp(x))
    && (forall x, y :: x < y ==> exp(x) < exp(y))
  }

  /** exp(s) / (exp(s) + exp(100 − s)): a logistic curve in the score, centred on 50. */
  function ProbHome(exp: real -> real, score: real): (p: real)
    requires IsExp(exp)
    ensures 0.0 < p < 1.0
  {
    var a := exp(score);
    var b := exp(100.0 - score);
    FractionBounds(a, b);
    a / (a + b)
  }

  function ProbAway(exp: real -> real, score: real): (q: real)
    requires IsExp(exp)
    ensures 0.0 < q < 1.0
    ensures ProbHome(exp, score) + q == 1.0
  {
    1.0 - ProbHome(exp, score)
  }

  datatype Side = HomeSide | AwaySide

  /** The home side is chosen only on a strictly larger probability. */
  function PickWinner(probHome: real, probAway: real): (w: Side)
    ensures w == HomeSide <==> probHome > probAway
  {
    if probHome > probAway then HomeSide else AwaySide
  }

  lemma FractionBounds(a: real, b: real)
    requires 0.0 < a && 0.0 < b
    ensures 0.0 < a / (a + b) < 1.0
  {
    assert a / (a + b) * (a + b) == a;
  }

  /** a/(a+b) exceeds one half exactly when a exceeds b. */
  lemma FractionAboveHalf(a: real, b: real)
    requires 0.0 < a && 0.0 < b
    ensures a / (a + b) > 0.5 <==> a > b
  {
    var p := a / (a + b);
    assert p * (a + b) == a;
    assert a - 0.5 * (a + b) == (p - 0.5) * (a + b);
    if p > 0.5 {
      MulPositive(p - 0.5, a + b);
    }
    if a > b {
      if p <= 0.5 {
        MulPositive(0.5 - p, a + b);
      }
    }
  }

  lemma MulPositive(x: real, y: real)
    requires 0.0 < x && 0.0 < y
    ensures 0.0 < x * y
  {
  }

  /** At a score of exactly 50 the two sides are given one half each. */
  lemma EvenAtFifty(exp: real -> real)
    requires IsExp(exp)
    ensures ProbHome(exp, 50.0) == 0.5 && ProbAway(exp, 50.0) == 0.5
  {
    var a := exp(50.0);
    assert a / (a + a) == 0.5;
  }

  /** Reflecting the score about 50 exchanges the two probabilities. */
  lemma ProbReflect(exp: real -> real, score: real)
    requires IsExp(exp)
    ensures ProbHome(exp, 100.0 - score) == ProbAway(exp, score)
  {
    var a := exp(score);
    var b := exp(100.0 - score);
  }

  /** A higher safety score always gives the home side a higher probability. */
  lemma ProbHomeIncreasing(exp: real -> real, s: real, t: real)
    requires IsExp(exp)
    requires s < t
    ensures ProbHome(exp, s) < ProbHome(exp, t)
  {
    var a, b := exp(s), exp(100.0 - s);
    var c, d := exp(t), exp(100.0 - t);
    assert a < c && d < b;
    ProductOrder(a, b, c, d);
    FractionLess(a, b, c, d);
  }

  lemma ProductOrder(a: real, b: real, c: real, d: real)
    requires 0.0 < a < c && 0.0 < d < b
    ensures a * d < c * b
  {
  }

  lemma FractionLess(a: real, b: real, c: real, d: real)
    requires 0.0 < a && 0.0 < b && 0.0 < c && 0.0 < d
    requires a * d < c * b
    ensures a / (a + b) < c / (c + d)
  {
    var p, q := a / (a + b), c / (c + d);
    assert p * (a + b) == a;
    assert q * (c + d) == c;
    assert a * (c + d) < c * (a + b);
    assert p * (a + b) * (c + d) < q * (c + d) * (a + b);
  }

  /** The home side is predicted exactly when the safety score is above 50. */
  lemma HomeWinsIffAboveFifty(exp: real -> real, score: real)
    requires IsExp(exp)
    ensures PickWinner(ProbHome(exp, score), ProbAway(exp, score)) == HomeSide <==> score > 50.0
  {
    var a := exp(score);
    var b := exp(100.0 - score);
    FractionAboveHalf(a, b);
    if score > 50.0 {
      assert score > 100.0 - score;
    } else {
      assert score <= 100.0 - score;
      assert a <= b by {
        if score < 100.0 - score {
          assert exp(score) < exp(100.0 - score);
        }
      }
    }
  }

  /**
   * Equal probabilities happen only at a score of exactly 50, and the strict
   * comparison then hands the prediction to the away side.
   */
  lemma TieGoesToAway(exp: real -> real, score: real)
    requires IsExp(exp)
    requires ProbHome(exp, score) == ProbAway(exp, score)
    ensures score == 50.0
    ensures PickWinner(ProbHome(exp, score), ProbAway(exp, score)) == AwaySide
  {
    if score < 50.0 {
      ProbHomeIncreasing(exp, score, 50.0);
    } else if score > 50.0 {
      ProbHomeIncreasing(exp, 50.0, score);
    }
  }
}
