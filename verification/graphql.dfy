/**
 * The unvalidated copy of the engine behind the query layer
 * (`calculate_risk_score`, `determine_rmbs_rating`).
 */
module Graphql {
  import opened Common
  import opened Tiers

  /** One mortgage as the query layer delivers it: typed fields, no checks. */
  datatype MortgageInput = MortgageInput(
    creditScore: int,
    loanAmount: real,
    propertyValue: real,
    annualIncome: real,
    debtAmount: real,
    loanType: string,
    propertyType: string)

  /** The result shape: the grade together with the adjusted total. */
  datatype CreditRating = CreditRating(rating: Rating, totalRiskScore: int)

  /** The divisions are unguarded, so the divisors must be nonzero. */
  predicate HasDivisors(mi: MortgageInput) {
    mi.propertyValue != 0.0 && mi.annualIncome != 0.0
  }

  /** The score of one input: the five tier adjustments, with the category
      fields compared exactly as given. */
  function RiskScore(mi: MortgageInput): (r: int)
    requires HasDivisors(mi)
    ensures -2 <= r <= 7
  {
    LtvRisk(mi.loanAmount / mi.propertyValue)
    + DtiRisk(mi.debtAmount / mi.annualIncome)
    + CreditScoreRisk(mi.creditScore as real)
    + LoanTypeImpact(mi.loanType)
    + PropertyTypeImpact(mi.propertyType)
  }

  /** `calculate_risk_score`: a sequence of updates to an accumulator. */
  method CalculateRiskScore(mi: MortgageInput) returns (riskScore: int)
    requires HasDivisors(mi)
    ensures riskScore == RiskScore(mi)
  {
    riskScore := 0;

    var ltv := mi.loanAmount / mi.propertyValue;
    if ltv > 0.9 {
      riskScore := riskScore + 2;
    } else if ltv > 0.8 {
      riskScore := riskScore + 1;
    }

    var dti := mi.debtAmount / mi.annualIncome;
    if dti > 0.5 {
      riskScore := riskScore + 2;
    } else if dti > 0.4 {
      riskScore := riskScore + 1;
    }

    if mi.creditScore >= 700 {
      riskScore := riskScore - 1;
    } else if mi.creditScore < 650 {
      riskScore := riskScore + 1;
    }

    if mi.loanType == "fixed" {
      riskScore := riskScore - 1;
    } else if mi.loanType == "adjustable" {
      riskScore := riskScore + 1;
    }

    if mi.propertyType == "condo" {
      riskScore := riskScore + 1;
    }
  }

  /** The sum of the per-mortgage scores of a list. */
  function TotalRisk(ms: seq<MortgageInput>): (r: int)
    requires forall i :: 0 <= i < |ms| ==> HasDivisors(ms[i])
    ensures -2 * |ms| <= r <= 7 * |ms|
  {
    if ms == [] then 0 else RiskScore(ms[0]) + TotalRisk(ms[1..])
  }

  /** The sum of the credit scores of a list; for scores in the validated
      range it lies between 300 and 850 times the length. */
  function TotalCredit(ms: seq<MortgageInput>): (r: int)
    ensures (forall i :: 0 <= i < |ms| ==> 300 <= ms[i].creditScore <= 850) ==> 300 * |ms| <= r <= 850 * |ms|
  {
    if ms == [] then 0 else ms[0].creditScore + TotalCredit(ms[1..])
  }

  /** The average-credit adjustment of a summed score over `n` members,
      decided by comparing the credit sum with `n` times each bound. */
  lemma AdjustmentByAverage(risk: int, credit: int, n: nat)
    requires n > 0
    ensures risk + CreditScoreRisk(credit as real / n as real) == risk - 1
            <==> credit as real >= 700.0 * n as real
    ensures risk + CreditScoreRisk(credit as real / n as real) == risk + 1
            <==> credit as real < 650.0 * n as real
  {
    AverageAtLeast(credit as real, n as real, 700.0);
    AverageAtLeast(credit as real, n as real, 650.0);
  }

  /** `determine_rmbs_rating`: the summed scores, adjusted once by the average
      credit score, and the grade of that same adjusted total. */
  function DetermineRmbsRating(ms: seq<MortgageInput>): (r: CreditRating)
    requires |ms| > 0
    requires forall i :: 0 <= i < |ms| ==> HasDivisors(ms[i])
    ensures r.rating == RatingOf(r.totalRiskScore)
    ensures TotalRisk(ms) - 1 <= r.totalRiskScore <= TotalRisk(ms) + 1
    ensures r.totalRiskScore == TotalRisk(ms) - 1 <==> TotalCredit(ms) as real >= 700.0 * |ms| as real
    ensures r.totalRiskScore == TotalRisk(ms) + 1 <==> TotalCredit(ms) as real < 650.0 * |ms| as real
  {
    AdjustmentByAverage(TotalRisk(ms), TotalCredit(ms), |ms|);
    var totalRiskScore := TotalRisk(ms);
    var avgCreditScore := TotalCredit(ms) as real / |ms| as real;
    var adjusted := totalRiskScore + CreditScoreRisk(avgCreditScore);
    CreditRating(RatingOf(adjusted), adjusted)
  }

  /** A loan type other than exactly "fixed" or "adjustable" adds nothing:
      "FIXED" scores one more than "fixed" and one less than "adjustable". */
  lemma LoanTypeCaseSensitive(mi: MortgageInput)
    requires HasDivisors(mi)
    ensures RiskScore(mi.(loanType := "FIXED")) == RiskScore(mi.(loanType := "fixed")) + 1
    ensures RiskScore(mi.(loanType := "FIXED")) == RiskScore(mi.(loanType := "adjustable")) - 1
  {
  }

  /** Only "condo" adds anything: every other property type scores as
      "single_family" does. */
  lemma OnlyCondoAdds(mi: MortgageInput, propertyType: string)
    requires HasDivisors(mi)
    ensures propertyType != "condo"
            ==> RiskScore(mi.(propertyType := propertyType)) == RiskScore(mi.(propertyType := "single_family"))
    ensures RiskScore(mi.(propertyType := "condo")) == RiskScore(mi.(propertyType := "single_family")) + 1
  {
  }

  /** A one-mortgage pool: the mortgage's score plus the credit-score
      adjustment applied a second time to its own credit score. */
  lemma SingleMortgagePool(mi: MortgageInput)
    requires HasDivisors(mi)
    ensures DetermineRmbsRating([mi]).totalRiskScore == RiskScore(mi) + CreditScoreRisk(mi.creditScore as real)
  {
    assert [mi][1..] == [];
    assert TotalRisk([mi]) == RiskScore(mi);
    assert TotalCredit([mi]) == mi.creditScore;
    assert mi.creditScore as real / 1 as real == mi.creditScore as real;
  }

  /** Appending a mortgage adds its score and its credit score to the totals. */
  lemma {:induction false} TotalsSnoc(ms: seq<MortgageInput>, mi: MortgageInput)
    requires forall i :: 0 <= i < |ms| ==> HasDivisors(ms[i])
    requires HasDivisors(mi)
    ensures TotalRisk(ms + [mi]) == TotalRisk(ms) + RiskScore(mi)
    ensures TotalCredit(ms + [mi]) == TotalCredit(ms) + mi.creditScore
  {
    if ms != [] {
      assert (ms + [mi])[1..] == ms[1..] + [mi];
      TotalsSnoc(ms[1..], mi);
    }
  }

  /** The grade never improves as the pool's total grows. */
  lemma HigherTotalNeverBetter(ms: seq<MortgageInput>, ms': seq<MortgageInput>)
    requires |ms| > 0 && |ms'| > 0
    requires forall i :: 0 <= i < |ms| ==> HasDivisors(ms[i])
    requires forall i :: 0 <= i < |ms'| ==> HasDivisors(ms'[i])
    requires DetermineRmbsRating(ms).totalRiskScore <= DetermineRmbsRating(ms').totalRiskScore
    ensures DetermineRmbsRating(ms).rating.Rank() <= DetermineRmbsRating(ms').rating.Rank()
  {
    RatingMonotone(DetermineRmbsRating(ms).totalRiskScore, DetermineRmbsRating(ms').totalRiskScore);
  }
}
