/**
 * The threshold tables of the rating engine. Both copies of the engine write
 * the same tiers out inline; they are stated here once and both copies are
 * proved against them.
 */
module Tiers {
  import opened Common

  /** Loan-to-value adjustment: above 0.9 adds 2, above 0.8 adds 1. */
  function LtvRisk(ltv: real): (r: int)
    ensures 0 <= r <= 2
  {
    if ltv > 0.9 then 2 else if ltv > 0.8 then 1 else 0
  }

  /** Debt-to-income adjustment: above 0.5 adds 2, above 0.4 adds 1. */
  function DtiRisk(dti: real): (r: int)
    ensures 0 <= r <= 2
  {
    if dti > 0.5 then 2 else if dti > 0.4 then 1 else 0
  }

  /** Credit-score adjustment: 700 or more takes 1 off, below 650 adds 1.
      The pool rule applies the same table to the average credit score. */
  function CreditScoreRisk(score: real): (r: int)
    ensures -1 <= r <= 1
  {
    if score >= 700.0 then -1 else if score < 650.0 then 1 else 0
  }

  /** Loan-type adjustment on the exact string: "fixed" takes 1 off,
      "adjustable" adds 1, anything else adds nothing. */
  function LoanTypeImpact(loanType: string): (r: int)
    ensures -1 <= r <= 1
    ensures r == 0 <==> loanType != "fixed" && loanType != "adjustable"
  {
    if loanType == "fixed" then -1 else if loanType == "adjustable" then 1 else 0
  }

  /** Property-type adjustment on the exact string: only "condo" adds 1. */
  function PropertyTypeImpact(propertyType: string): (r: int)
    ensures 0 <= r <= 1
    ensures r == 1 <==> propertyType == "condo"
  {
    if propertyType == "condo" then 1 else 0
  }

  /** The grade of an adjusted pool total. Every total of 2 or less, negative
      ones included, is AAA; the three bands hold in both directions. */
  function RatingOf(total: int): (r: Rating)
    ensures r == AAA <==> total <= 2
    ensures r == BBB <==> 3 <= total <= 5
    ensures r == C <==> total >= 6
  {
    if total <= 2 then AAA else if 3 <= total <= 5 then BBB else C
  }

  /** An average over `n` members reaches a bound exactly when the sum reaches
      `n` times the bound. */
  lemma AverageAtLeast(sum: real, n: real, bound: real)
    requires n > 0.0
    ensures sum / n >= bound <==> sum >= bound * n
  {
    var avg := sum / n;
    assert avg * n == sum;
    if avg >= bound {
      assert avg * n >= bound * n;
    } else {
      assert avg * n < bound * n;
    }
  }

  /** Multiplying out a ratio with a positive divisor. */
  lemma RatioAbove(num: real, den: real, p: real, q: real)
    requires den > 0.0 && q > 0.0
    ensures num / den > p / q <==> q * num > p * den
  {
    var r := num / den;
    assert r * den == num;
    if r > p / q {
      assert r * den > (p / q) * den;
      assert q * (r * den) > q * ((p / q) * den);
    } else {
      assert r * den <= (p / q) * den;
      assert q * (r * den) <= q * ((p / q) * den);
    }
  }

  /** The loan-to-value tiers without division: for a positive property value,
      the ratio is above 0.9 exactly when 10 * loan > 9 * value. */
  lemma LtvRiskCrossMultiplied(loan: real, value: real)
    requires value > 0.0
    ensures LtvRisk(loan / value)
            == if 10.0 * loan > 9.0 * value then 2 else if 10.0 * loan > 8.0 * value then 1 else 0
  {
    RatioAbove(loan, value, 9.0, 10.0);
    RatioAbove(loan, value, 8.0, 10.0);
  }

  /** The debt-to-income tiers without division. */
  lemma DtiRiskCrossMultiplied(debt: real, income: real)
    requires income > 0.0
    ensures DtiRisk(debt / income)
            == if 10.0 * debt > 5.0 * income then 2 else if 10.0 * debt > 4.0 * income then 1 else 0
  {
    RatioAbove(debt, income, 5.0, 10.0);
    RatioAbove(debt, income, 4.0, 10.0);
  }

  /** The thresholds are strict: a value exactly on a threshold takes the
      lower tier. */
  lemma TierBoundaries()
    ensures LtvRisk(0.9) == 1 && LtvRisk(0.8) == 0
    ensures DtiRisk(0.5) == 1 && DtiRisk(0.4) == 0
    ensures CreditScoreRisk(700.0) == -1 && CreditScoreRisk(650.0) == 0 && CreditScoreRisk(649.0) == 1
  {
  }

  /** A higher ratio never lowers the adjustment; a higher credit score never
      raises it. */
  lemma TiersMonotone(x: real, y: real)
    requires x <= y
    ensures LtvRisk(x) <= LtvRisk(y)
    ensures DtiRisk(x) <= DtiRisk(y)
    ensures CreditScoreRisk(x) >= CreditScoreRisk(y)
  {
  }

  /** The grades of the totals on either side of each band edge. */
  lemma RatingExamples()
    ensures RatingOf(2) == AAA && RatingOf(3) == BBB && RatingOf(5) == BBB
    ensures RatingOf(6) == C && RatingOf(-5) == AAA
  {
  }

  /** A higher total never gives a better grade. */
  lemma RatingMonotone(a: int, b: int)
    requires a <= b
    ensures RatingOf(a).Rank() <= RatingOf(b).Rank()
  {
  }
}
