/**
 * The ratio helpers and the per-mortgage scorer of the validating engine
 * (`calculate_ltv`, `calculate_dti`, `calculate_mortgage_risk`).
 */
module Scoring {
  import opened Common
  import opened Tiers
  import opened Validation

  /** Loan-to-value ratio; raises when the property value is zero. */
  function CalculateLtv(loanAmount: real, propertyValue: real): (r: Result<real>)
    ensures r.Failure? <==> propertyValue == 0.0
    ensures r.Failure? ==> r.error == ZeroPropertyValue
    ensures r.Success? ==> r.value * propertyValue == loanAmount
  {
    if propertyValue == 0.0 then Failure(ZeroPropertyValue) else Success(loanAmount / propertyValue)
  }

  /** Debt-to-income ratio; raises when the annual income is zero. */
  function CalculateDti(debtAmount: real, annualIncome: real): (r: Result<real>)
    ensures r.Failure? <==> annualIncome == 0.0
    ensures r.Failure? ==> r.error == ZeroAnnualIncome
    ensures r.Success? ==> r.value * annualIncome == debtAmount
  {
    if annualIncome == 0.0 then Failure(ZeroAnnualIncome) else Success(debtAmount / annualIncome)
  }

  /** The score of a validated record with nonzero divisors: the sum of the
      five tier adjustments. The loan-type term is never 0, because a typed
      record has one of the two loan types. */
  function Risk(rec: Mortgage): (r: int)
    requires rec.propertyValue != 0.0 && rec.annualIncome != 0.0
    ensures -2 <= r <= 7
    ensures LoanTypeImpact(rec.loanType.Name()) != 0
  {
    LtvRisk(rec.loanAmount / rec.propertyValue)
    + DtiRisk(rec.debtAmount / rec.annualIncome)
    + CreditScoreRisk(rec.creditScore)
    + LoanTypeImpact(rec.loanType.Name())
    + PropertyTypeImpact(rec.propertyType.Name())
  }

  /** What `calculate_mortgage_risk` returns for a raw record: the validation
      error, then the ratio errors in the order the ratios are computed, then
      the score. */
  function MortgageRisk(m: RawMortgage): (r: Result<int>)
    ensures Validate(m).Fail? ==> r == Failure(Validate(m).error)
    ensures r.Success? ==> -2 <= r.value <= 7
  {
    match Validate(m)
    case Fail(e) => Failure(e)
    case Pass =>
      ValidateAcceptsWellFormed(m);
      var rec := ToMortgage(m);
      var ltv :- CalculateLtv(rec.loanAmount, rec.propertyValue);
      var dti :- CalculateDti(rec.debtAmount, rec.annualIncome);
      Success(Risk(rec))
  }

  /** `calculate_mortgage_risk`: validate, read the fields, lower-case the two
      category fields, then add the five adjustments to an accumulator. */
  method CalculateMortgageRisk(m: RawMortgage) returns (r: Result<int>)
    ensures r == MortgageRisk(m)
  {
    var v := ValidateMortgage(m);
    if v.Fail? {
      return Failure(v.error);
    }
    ValidateAcceptsWellFormed(m);
    ghost var rec := ToMortgage(m);

    var riskScore := 0;
    var creditScore := m["credit_score"].x;
    var loanAmount := m["loan_amount"].x;
    var propertyValue := m["property_value"].x;
    var annualIncome := m["annual_income"].x;
    var debtAmount := m["debt_amount"].x;
    var loanType := Lower(m["loan_type"].s);
    var propertyType := Lower(m["property_type"].s);

    var ltv := CalculateLtv(loanAmount, propertyValue);
    if ltv.Failure? {
      return Failure(ltv.error);
    }
    if ltv.value > 0.9 {
      riskScore := riskScore + 2;
    } else if ltv.value > 0.8 {
      riskScore := riskScore + 1;
    }
    assert riskScore == LtvRisk(rec.loanAmount / rec.propertyValue);

    var dti := CalculateDti(debtAmount, annualIncome);
    if dti.Failure? {
      return Failure(dti.error);
    }
    if dti.value > 0.5 {
      riskScore := riskScore + 2;
    } else if dti.value > 0.4 {
      riskScore := riskScore + 1;
    }
    assert riskScore == LtvRisk(rec.loanAmount / rec.propertyValue) + DtiRisk(rec.debtAmount / rec.annualIncome);

    if creditScore >= 700.0 {
      riskScore := riskScore - 1;
    } else if creditScore < 650.0 {
      riskScore := riskScore + 1;
    }
    assert riskScore == LtvRisk(rec.loanAmount / rec.propertyValue) + DtiRisk(rec.debtAmount / rec.annualIncome)
                        + CreditScoreRisk(rec.creditScore);

    LowerIsIdentityOnValidTypes(m);
    if loanType == "fixed" {
      riskScore := riskScore - 1;
    } else if loanType == "adjustable" {
      riskScore := riskScore + 1;
    }

    if propertyType == "condo" {
      riskScore := riskScore + 1;
    }

    return Success(riskScore);
  }

  /** On a validated record, lower-casing the two category fields changes
      nothing: validation already demanded the lower-case spellings. */
  lemma LowerIsIdentityOnValidTypes(m: RawMortgage)
    requires WellFormed(m)
    ensures Lower(m["loan_type"].s) == ToMortgage(m).loanType.Name()
    ensures Lower(m["property_type"].s) == ToMortgage(m).propertyType.Name()
  {
    assert IsLowerCase("fixed") && IsLowerCase("adjustable");
    assert IsLowerCase("single_family") && IsLowerCase("condo");
  }

  /** Scoring fails exactly when validation fails or a divisor is zero, and a
      zero property value is reported before a zero income. */
  lemma ScoreFailsExactly(m: RawMortgage)
    ensures MortgageRisk(m).Failure?
            <==> !WellFormed(m) || m["property_value"] == Num(0.0) || m["annual_income"] == Num(0.0)
    ensures WellFormed(m) && m["property_value"] == Num(0.0)
            ==> MortgageRisk(m) == Failure(ZeroPropertyValue)
    ensures WellFormed(m) && m["property_value"] != Num(0.0) && m["annual_income"] == Num(0.0)
            ==> MortgageRisk(m) == Failure(ZeroAnnualIncome)
  {
    ValidateAcceptsWellFormed(m);
  }

  /** For a valid record with positive divisors, the score written without any
      division: each ratio tier becomes a cross-multiplied comparison. */
  lemma ScoreWithoutDivision(m: RawMortgage)
    requires WellFormed(m)
    requires m["property_value"].x > 0.0 && m["annual_income"].x > 0.0
    ensures
      var loan, value := m["loan_amount"].x, m["property_value"].x;
      var debt, income := m["debt_amount"].x, m["annual_income"].x;
      var score := m["credit_score"].x;
      MortgageRisk(m) == Success(
        (if 10.0 * loan > 9.0 * value then 2 else if 10.0 * loan > 8.0 * value then 1 else 0)
        + (if 10.0 * debt > 5.0 * income then 2 else if 10.0 * debt > 4.0 * income then 1 else 0)
        + (if score >= 700.0 then -1 else if score < 650.0 then 1 else 0)
        + (if m["loan_type"] == Str("fixed") then -1 else 1)
        + (if m["property_type"] == Str("condo") then 1 else 0))
  {
    ValidateAcceptsWellFormed(m);
    LtvRiskCrossMultiplied(m["loan_amount"].x, m["property_value"].x);
    DtiRiskCrossMultiplied(m["debt_amount"].x, m["annual_income"].x);
  }

  /** Dividing by a positive number keeps the order. */
  lemma DivideMonotone(a: real, b: real, d: real)
    requires a <= b && d > 0.0
    ensures a / d <= b / d
  {
  }

  /** With every other field fixed, a larger loan never lowers the score. */
  lemma LoanAmountMonotone(m: RawMortgage, loan: real)
    requires WellFormed(m) && MortgageRisk(m).Success?
    requires loan >= m["loan_amount"].x
    ensures MortgageRisk(m["loan_amount" := Num(loan)]).Success?
    ensures MortgageRisk(m["loan_amount" := Num(loan)]).value >= MortgageRisk(m).value
  {
    var m' := m["loan_amount" := Num(loan)];
    ValidateAcceptsWellFormed(m);
    ValidateAcceptsWellFormed(m');
    var rec := ToMortgage(m);
    assert ToMortgage(m') == rec.(loanAmount := loan);
    DivideMonotone(rec.loanAmount, loan, rec.propertyValue);
    TiersMonotone(rec.loanAmount / rec.propertyValue, loan / rec.propertyValue);
  }

  /** With every other field fixed, a larger debt never lowers the score. */
  lemma DebtAmountMonotone(m: RawMortgage, debt: real)
    requires WellFormed(m) && MortgageRisk(m).Success?
    requires debt >= m["debt_amount"].x
    ensures MortgageRisk(m["debt_amount" := Num(debt)]).Success?
    ensures MortgageRisk(m["debt_amount" := Num(debt)]).value >= MortgageRisk(m).value
  {
    var m' := m["debt_amount" := Num(debt)];
    ValidateAcceptsWellFormed(m);
    ValidateAcceptsWellFormed(m');
    var rec := ToMortgage(m);
    assert ToMortgage(m') == rec.(debtAmount := debt);
    DivideMonotone(rec.debtAmount, debt, rec.annualIncome);
    TiersMonotone(rec.debtAmount / rec.annualIncome, debt / rec.annualIncome);
  }

  /** With every other field fixed, a higher (still valid) credit score never
      raises the score. */
  lemma CreditScoreAntitone(m: RawMortgage, score: real)
    requires WellFormed(m) && MortgageRisk(m).Success?
    requires m["credit_score"].x <= score <= 850.0
    ensures MortgageRisk(m["credit_score" := Num(score)]).Success?
    ensures MortgageRisk(m["credit_score" := Num(score)]).value <= MortgageRisk(m).value
  {
    var m' := m["credit_score" := Num(score)];
    ValidateAcceptsWellFormed(m);
    ValidateAcceptsWellFormed(m');
    var rec := ToMortgage(m);
    assert ToMortgage(m') == rec.(creditScore := score);
    TiersMonotone(rec.creditScore, score);
  }

  /** A valid typed record with nonzero divisors, presented as a dictionary,
      scores exactly its typed score. */
  lemma ScoreOfTypedRecord(rec: Mortgage)
    requires rec.Valid() && rec.propertyValue != 0.0 && rec.annualIncome != 0.0
    ensures MortgageRisk(ToRaw(rec)) == Success(Risk(rec))
  {
    ToRawRoundTrip(rec);
  }

  /** An ordinary fixed-rate record with a high credit score scores -2. */
  lemma ExpectedScoreValidFixed()
    ensures MortgageRisk(ToRaw(Mortgage(750.0, 200000.0, 250000.0, 80000.0, 20000.0, Fixed, SingleFamily))) == Success(-2)
  {
    var a := Mortgage(750.0, 200000.0, 250000.0, 80000.0, 20000.0, Fixed, SingleFamily);
    assert Risk(a) == -2 by {
      assert 200000.0 / 250000.0 == 0.8 && 20000.0 / 80000.0 == 0.25;
    }
    ScoreOfTypedRecord(a);
  }

  /** An ordinary adjustable-rate condo record scores 3. */
  lemma ExpectedScoreValidAdjustable()
    ensures MortgageRisk(ToRaw(Mortgage(680.0, 150000.0, 175000.0, 45000.0, 10000.0, Adjustable, Condo))) == Success(3)
  {
    var a := Mortgage(680.0, 150000.0, 175000.0, 45000.0, 10000.0, Adjustable, Condo);
    assert Risk(a) == 3 by {
      assert 0.8 < 150000.0 / 175000.0 <= 0.9 && 10000.0 / 45000.0 <= 0.4;
    }
    ScoreOfTypedRecord(a);
  }

  /** A record with an LTV of exactly 0.9 and a DTI above 0.4 scores 0. */
  lemma ExpectedScoreHighLtv()
    ensures MortgageRisk(ToRaw(Mortgage(700.0, 180000.0, 200000.0, 60000.0, 25000.0, Fixed, SingleFamily))) == Success(0)
  {
    var a := Mortgage(700.0, 180000.0, 200000.0, 60000.0, 25000.0, Fixed, SingleFamily);
    assert Risk(a) == 0 by {
      assert 180000.0 / 200000.0 == 0.9 && 0.4 < 25000.0 / 60000.0 <= 0.5;
    }
    ScoreOfTypedRecord(a);
  }

  /** A record with a DTI above 0.5 scores 4. */
  lemma ExpectedScoreHighDti()
    ensures MortgageRisk(ToRaw(Mortgage(690.0, 100000.0, 150000.0, 40000.0, 25000.0, Adjustable, Condo))) == Success(4)
  {
    var a := Mortgage(690.0, 100000.0, 150000.0, 40000.0, 25000.0, Adjustable, Condo);
    assert Risk(a) == 4 by {
      assert 100000.0 / 150000.0 <= 0.8 && 25000.0 / 40000.0 > 0.5;
    }
    ScoreOfTypedRecord(a);
  }

  /** The lowest valid credit score, 300, scores 0. */
  lemma ExpectedScoreCreditFloor()
    ensures MortgageRisk(ToRaw(Mortgage(300.0, 100000.0, 200000.0, 50000.0, 10000.0, Fixed, SingleFamily))) == Success(0)
  {
    var a := Mortgage(300.0, 100000.0, 200000.0, 50000.0, 10000.0, Fixed, SingleFamily);
    assert Risk(a) == 0 by {
      assert 100000.0 / 200000.0 == 0.5 && 10000.0 / 50000.0 == 0.2;
    }
    ScoreOfTypedRecord(a);
  }

  /** The highest valid credit score, 850, scores -2. */
  lemma ExpectedScoreCreditCeiling()
    ensures MortgageRisk(ToRaw(Mortgage(850.0, 100000.0, 200000.0, 50000.0, 10000.0, Fixed, SingleFamily))) == Success(-2)
  {
    var a := Mortgage(850.0, 100000.0, 200000.0, 50000.0, 10000.0, Fixed, SingleFamily);
    assert Risk(a) == -2 by {
      assert 100000.0 / 200000.0 == 0.5 && 10000.0 / 50000.0 == 0.2;
    }
    ScoreOfTypedRecord(a);
  }

  /** An LTV of exactly 0.8 adds nothing. */
  lemma ExpectedScoreLtvAtLowerThreshold()
    ensures MortgageRisk(ToRaw(Mortgage(700.0, 80000.0, 100000.0, 50000.0, 10000.0, Fixed, SingleFamily))) == Success(-2)
  {
    var a := Mortgage(700.0, 80000.0, 100000.0, 50000.0, 10000.0, Fixed, SingleFamily);
    assert Risk(a) == -2 by {
      assert 80000.0 / 100000.0 == 0.8 && 10000.0 / 50000.0 == 0.2;
    }
    ScoreOfTypedRecord(a);
  }

  /** An LTV of exactly 0.9 adds 1. */
  lemma ExpectedScoreLtvAtUpperThreshold()
    ensures MortgageRisk(ToRaw(Mortgage(700.0, 90000.0, 100000.0, 50000.0, 10000.0, Fixed, SingleFamily))) == Success(-1)
  {
    var a := Mortgage(700.0, 90000.0, 100000.0, 50000.0, 10000.0, Fixed, SingleFamily);
    assert Risk(a) == -1 by {
      assert 90000.0 / 100000.0 == 0.9 && 10000.0 / 50000.0 == 0.2;
    }
    ScoreOfTypedRecord(a);
  }

  /** A DTI of exactly 0.4 adds nothing. */
  lemma ExpectedScoreDtiAtLowerThreshold()
    ensures MortgageRisk(ToRaw(Mortgage(700.0, 100000.0, 200000.0, 50000.0, 20000.0, Fixed, SingleFamily))) == Success(-2)
  {
    var a := Mortgage(700.0, 100000.0, 200000.0, 50000.0, 20000.0, Fixed, SingleFamily);
    assert Risk(a) == -2 by {
      assert 100000.0 / 200000.0 == 0.5 && 20000.0 / 50000.0 == 0.4;
    }
    ScoreOfTypedRecord(a);
  }

  /** A DTI of exactly 0.5 adds 1. */
  lemma ExpectedScoreDtiAtUpperThreshold()
    ensures MortgageRisk(ToRaw(Mortgage(700.0, 100000.0, 200000.0, 50000.0, 25000.0, Fixed, SingleFamily))) == Success(-1)
  {
    var a := Mortgage(700.0, 100000.0, 200000.0, 50000.0, 25000.0, Fixed, SingleFamily);
    assert Risk(a) == -1 by {
      assert 100000.0 / 200000.0 == 0.5 && 25000.0 / 50000.0 == 0.5;
    }
    ScoreOfTypedRecord(a);
  }

  /** A zero property value or a zero income makes scoring raise. */
  lemma ZeroDivisorsRaise()
    ensures MortgageRisk(ToRaw(Mortgage(700.0, 100000.0, 0.0, 50000.0, 10000.0, Fixed, SingleFamily)))
            == Failure(ZeroPropertyValue)
    ensures MortgageRisk(ToRaw(Mortgage(700.0, 100000.0, 100000.0, 0.0, 10000.0, Fixed, SingleFamily)))
            == Failure(ZeroAnnualIncome)
  {
    ToRawRoundTrip(Mortgage(700.0, 100000.0, 0.0, 50000.0, 10000.0, Fixed, SingleFamily));
    ToRawRoundTrip(Mortgage(700.0, 100000.0, 100000.0, 0.0, 10000.0, Fixed, SingleFamily));
  }
}
