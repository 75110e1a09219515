/**
 * The pool rater of the validating engine (`calculate_credit_rating`).
 */
module Pool {
  import opened Common
  import opened Tiers
  import opened Validation
  import opened Scoring

  /** The argument of the pool rater: a list of records, or anything else. */
  datatype PoolInput = List(items: seq<RawMortgage>) | NotList

  /** The credit score the rater adds to its running total, with the rater's
      default of 0 for a record without one. */
  function CreditOf(m: RawMortgage): (r: real)
    ensures "credit_score" !in m ==> r == 0.0
    ensures WellFormed(m) ==> r == ToMortgage(m).creditScore && 300.0 <= r <= 850.0
  {
    if "credit_score" in m && m["credit_score"].Num? then m["credit_score"].x else 0.0
  }

  /** The score of a record that scores, and 0 for one that does not. */
  function RiskOrZero(m: RawMortgage): int {
    match MortgageRisk(m)
    case Success(s) => s
    case Failure(_) => 0
  }

  /** The two running totals of the rater. */
  datatype Tally = Tally(risk: int, credit: real) {
    function Plus(t: Tally): Tally {
      Tally(risk + t.risk, credit + t.credit)
    }
  }

  /** What one record adds to the running totals. */
  function Contribution(m: RawMortgage): Tally {
    Tally(RiskOrZero(m), CreditOf(m))
  }

  /** The totals over a list for a given per-member contribution, built up
      from the front as the loop does. */
  function SumOf<T>(xs: seq<T>, f: T -> Tally): Tally
    decreases |xs|
  {
    if xs == [] then Tally(0, 0.0)
    else SumOf(xs[..|xs| - 1], f).Plus(f(xs[|xs| - 1]))
  }

  /** The rater's two running totals over a whole list. */
  function TallyOf(ms: seq<RawMortgage>): Tally {
    SumOf(ms, Contribution)
  }

  /** Every member before position `k` scores and the member at `k` raises `e`. */
  predicate IsFirstError(ms: seq<RawMortgage>, k: int, e: Error) {
    && 0 <= k < |ms|
    && MortgageRisk(ms[k]) == Failure(e)
    && forall j :: 0 <= j < k ==> MortgageRisk(ms[j]).Success?
  }

  /** The error raised by the first member that does not score, if any. */
  function FirstError(ms: seq<RawMortgage>): (r: Option<Error>)
    ensures r.None? <==> forall i :: 0 <= i < |ms| ==> MortgageRisk(ms[i]).Success?
    ensures r.Some? ==> exists k :: IsFirstError(ms, k, r.value)
  {
    if ms == [] then None
    else if MortgageRisk(ms[0]).Failure? then
      assert IsFirstError(ms, 0, MortgageRisk(ms[0]).error);
      Some(MortgageRisk(ms[0]).error)
    else
      var r := FirstError(ms[1..]);
      if r.Some? then
        var k :| IsFirstError(ms[1..], k, r.value);
        assert IsFirstError(ms, k + 1, r.value);
        r
      else
        assert forall i :: 1 <= i < |ms| ==> ms[i] == ms[1..][i - 1];
        r
  }

  /** The pool total after the average-credit adjustment: 1 off when the
      average credit score is 700 or more, 1 more when it is below 650. */
  function AdjustedTotal(t: Tally, n: nat): (r: int)
    requires n > 0
    ensures r == t.risk - 1 <==> t.credit >= 700.0 * n as real
    ensures r == t.risk + 1 <==> t.credit < 650.0 * n as real
    ensures r == t.risk <==> 650.0 * n as real <= t.credit < 700.0 * n as real
  {
    AverageAtLeast(t.credit, n as real, 700.0);
    AverageAtLeast(t.credit, n as real, 650.0);
    t.risk + CreditScoreRisk(t.credit / n as real)
  }

  /** What `calculate_credit_rating` returns: an error for a non-list, an
      empty list or a member that does not score, otherwise the grade of the
      adjusted total. */
  function CreditRatingOf(input: PoolInput): (r: Result<Rating>)
    ensures r.Success?
            <==> input.List? && input.items != []
                 && forall i :: 0 <= i < |input.items| ==> MortgageRisk(input.items[i]).Success?
  {
    match input
    case NotList => Failure(NotAList)
    case List(ms) =>
      if ms == [] then Failure(EmptyPool)
      else
        match FirstError(ms)
        case Some(e) => Failure(e)
        case None => Success(RatingOf(AdjustedTotal(TallyOf(ms), |ms|)))
  }

  /** The first member that does not score decides the error. */
  lemma {:induction false} FirstErrorAt(ms: seq<RawMortgage>, i: int)
    requires 0 <= i < |ms| && MortgageRisk(ms[i]).Failure?
    requires forall j :: 0 <= j < i ==> MortgageRisk(ms[j]).Success?
    ensures FirstError(ms) == Some(MortgageRisk(ms[i]).error)
    decreases i
  {
    if i > 0 {
      assert ms[1..][i - 1] == ms[i];
      FirstErrorAt(ms[1..], i - 1);
    }
  }

  /** One turn of the rater's loop: a member that scores adds its score and
      its credit score to the running totals. */
  lemma TallyStep(ms: seq<RawMortgage>, i: int, score: int)
    requires 0 <= i < |ms| && MortgageRisk(ms[i]) == Success(score)
    requires forall j :: 0 <= j < i ==> MortgageRisk(ms[j]).Success?
    ensures forall j :: 0 <= j < i + 1 ==> MortgageRisk(ms[j]).Success?
    ensures TallyOf(ms[..i + 1]) == TallyOf(ms[..i]).Plus(Tally(score, CreditOf(ms[i])))
  {
    assert ms[..i + 1][..i] == ms[..i];
  }

  /** A non-empty list whose members all score is rated by its totals. */
  lemma AllScoreRating(ms: seq<RawMortgage>)
    requires ms != [] && forall j :: 0 <= j < |ms| ==> MortgageRisk(ms[j]).Success?
    ensures CreditRatingOf(List(ms)) == Success(RatingOf(AdjustedTotal(TallyOf(ms), |ms|)))
  {
  }

  /** `calculate_credit_rating`: the loop that scores each member and sums
      scores and credit scores, then the in-place adjustment and the grading. */
  method CalculateCreditRating(input: PoolInput) returns (r: Result<Rating>)
    ensures r == CreditRatingOf(input)
  {
    if input.NotList? {
      return Failure(NotAList);
    }
    var mortgages := input.items;
    if |mortgages| == 0 {
      return Failure(EmptyPool);
    }

    var totalRiskScore := 0;
    var totalCreditScore := 0.0;
    var numMortgages := |mortgages|;

    var i := 0;
    while i < numMortgages
      invariant 0 <= i <= numMortgages
      invariant forall j :: 0 <= j < i ==> MortgageRisk(mortgages[j]).Success?
      invariant Tally(totalRiskScore, totalCreditScore) == TallyOf(mortgages[..i])
    {
      var score := CalculateMortgageRisk(mortgages[i]);
      if score.Failure? {
        FirstErrorAt(mortgages, i);
        return Failure(score.error);
      }
      TallyStep(mortgages, i, score.value);
      totalRiskScore := totalRiskScore + score.value;
      totalCreditScore := totalCreditScore + CreditOf(mortgages[i]);
      i := i + 1;
    }
    assert mortgages[..i] == mortgages;
    AllScoreRating(mortgages);

    var avgCreditScore := totalCreditScore / numMortgages as real;
    if avgCreditScore >= 700.0 {
      totalRiskScore := totalRiskScore - 1;
    } else if avgCreditScore < 650.0 {
      totalRiskScore := totalRiskScore + 1;
    }
    assert totalRiskScore == AdjustedTotal(TallyOf(mortgages), numMortgages);

    if totalRiskScore <= 2 {
      r := Success(AAA);
    } else if 3 <= totalRiskScore <= 5 {
      r := Success(BBB);
    } else {
      r := Success(C);
    }
  }

  /** The rater fails exactly on a non-list, an empty list, or a list with a
      member that does not score; then it returns no rating at all, and the
      error is that of the first such member. */
  lemma PoolFailsExactly(input: PoolInput)
    ensures CreditRatingOf(input).Failure?
            <==> input.NotList? || input.items == []
                 || exists i :: 0 <= i < |input.items| && MortgageRisk(input.items[i]).Failure?
    ensures input.List? && input.items != [] && CreditRatingOf(input).Failure?
            ==> exists k :: IsFirstError(input.items, k, CreditRatingOf(input).error)
  {
  }

  /** The list without its member at `j`. */
  function RemoveAt<T>(xs: seq<T>, j: int): (r: seq<T>)
    requires 0 <= j < |xs|
    ensures |r| == |xs| - 1
    ensures multiset(r) == multiset(xs) - multiset{xs[j]}
  {
    assert xs == xs[..j] + [xs[j]] + xs[j + 1..];
    xs[..j] + xs[j + 1..]
  }

  /** The totals over a list are those over the list without one member, plus
      that member's contribution. */
  lemma {:induction false} SumRemove<T>(xs: seq<T>, f: T -> Tally, j: int)
    requires 0 <= j < |xs|
    ensures SumOf(xs, f) == SumOf(RemoveAt(xs, j), f).Plus(f(xs[j]))
    decreases |xs|
  {
    var n := |xs|;
    var init := xs[..n - 1];
    if j < n - 1 {
      var rest := RemoveAt(xs, j);
      assert rest[..|rest| - 1] == RemoveAt(init, j);
      assert rest[|rest| - 1] == xs[n - 1];
      assert init[j] == xs[j];
      SumRemove(init, f, j);
    } else {
      assert RemoveAt(xs, j) == init;
    }
  }

  /** The totals over a list do not depend on the order of its members. */
  lemma {:induction false} SumPermutation<T>(xs: seq<T>, ys: seq<T>, f: T -> Tally)
    requires multiset(xs) == multiset(ys)
    ensures SumOf(xs, f) == SumOf(ys, f)
    decreases |xs|
  {
    if xs == [] {
      assert |multiset(ys)| == 0;
    } else {
      var n := |xs|;
      var x := xs[n - 1];
      assert xs == xs[..n - 1] + [x];
      assert multiset(xs[..n - 1]) == multiset(xs) - multiset{x};
      assert x in multiset(ys);
      var j :| 0 <= j < |ys| && ys[j] == x;
      SumPermutation(xs[..n - 1], RemoveAt(ys, j), f);
      SumRemove(ys, f, j);
    }
  }

  /** Whether every member scores does not depend on the order of the members. */
  lemma AllScorePermutation(ms: seq<RawMortgage>, ms': seq<RawMortgage>)
    requires multiset(ms) == multiset(ms')
    requires forall i :: 0 <= i < |ms| ==> MortgageRisk(ms[i]).Success?
    ensures forall i :: 0 <= i < |ms'| ==> MortgageRisk(ms'[i]).Success?
  {
    forall i | 0 <= i < |ms'|
      ensures MortgageRisk(ms'[i]).Success?
    {
      assert ms'[i] in multiset(ms');
      assert ms'[i] in ms;
      var k :| 0 <= k < |ms| && ms[k] == ms'[i];
    }
  }

  /** The pool rating is unchanged by any permutation of the pool: both
      orders fail or both give the same grade. */
  lemma PermutationInvariant(ms: seq<RawMortgage>, ms': seq<RawMortgage>)
    requires multiset(ms) == multiset(ms')
    ensures CreditRatingOf(List(ms)).Success? <==> CreditRatingOf(List(ms')).Success?
    ensures CreditRatingOf(List(ms)).Success? ==> CreditRatingOf(List(ms')) == CreditRatingOf(List(ms))
  {
    assert |ms| == |multiset(ms)| == |multiset(ms')| == |ms'|;
    if forall i :: 0 <= i < |ms| ==> MortgageRisk(ms[i]).Success? {
      AllScorePermutation(ms, ms');
    }
    if forall i :: 0 <= i < |ms'| ==> MortgageRisk(ms'[i]).Success? {
      AllScorePermutation(ms', ms);
    }
    SumPermutation(ms, ms', Contribution);
  }

  /** A one-member pool: the member's score adjusted by the credit-score rule
      applied to its own credit score, or that member's error. */
  lemma SingleMortgagePool(m: RawMortgage)
    ensures MortgageRisk(m).Failure? ==> CreditRatingOf(List([m])) == Failure(MortgageRisk(m).error)
    ensures MortgageRisk(m).Success?
            ==> CreditRatingOf(List([m]))
                == Success(RatingOf(MortgageRisk(m).value + CreditScoreRisk(CreditOf(m))))
  {
    var s := MortgageRisk(m);
    if s.Success? {
      assert FirstError([m]) == None;
      assert [m][..0] == [];
      assert SumOf([m], Contribution) == SumOf([], Contribution).Plus(Contribution(m));
      assert TallyOf([m]) == Tally(s.value, CreditOf(m));
      assert CreditOf(m) / 1 as real == CreditOf(m);
    } else {
      FirstErrorAt([m], 0);
    }
  }

  /** A two-member pool whose members both score: the sum of the two scores
      adjusted by the average of the two credit scores. */
  lemma TwoMortgagePool(a: RawMortgage, b: RawMortgage)
    requires MortgageRisk(a).Success? && MortgageRisk(b).Success?
    ensures CreditRatingOf(List([a, b]))
            == Success(RatingOf(MortgageRisk(a).value + MortgageRisk(b).value
                                + CreditScoreRisk((CreditOf(a) + CreditOf(b)) / 2.0)))
  {
    var ms := [a, b];
    assert FirstError(ms) == None;
    assert ms[..1] == [a] && ms[..1][..0] == [];
    assert Contribution(a) == Tally(MortgageRisk(a).value, CreditOf(a));
    assert Contribution(b) == Tally(MortgageRisk(b).value, CreditOf(b));
    assert SumOf([a], Contribution) == SumOf([], Contribution).Plus(Contribution(a));
    assert TallyOf(ms) == TallyOf([a]).Plus(Contribution(b));
  }

  /** A pool of two valid typed records with nonzero divisors. */
  lemma TwoRecordPool(a: Mortgage, b: Mortgage)
    requires a.Valid() && a.propertyValue != 0.0 && a.annualIncome != 0.0
    requires b.Valid() && b.propertyValue != 0.0 && b.annualIncome != 0.0
    ensures CreditRatingOf(List([ToRaw(a), ToRaw(b)]))
            == Success(RatingOf(Risk(a) + Risk(b) + CreditScoreRisk((a.creditScore + b.creditScore) / 2.0)))
  {
    ScoreOfTypedRecord(a);
    ScoreOfTypedRecord(b);
    TwoMortgagePool(ToRaw(a), ToRaw(b));
  }

  /** A pool of one valid typed record with nonzero divisors. */
  lemma OneRecordPool(a: Mortgage)
    requires a.Valid() && a.propertyValue != 0.0 && a.annualIncome != 0.0
    ensures CreditRatingOf(List([ToRaw(a)])) == Success(RatingOf(Risk(a) + CreditScoreRisk(a.creditScore)))
  {
    ScoreOfTypedRecord(a);
    SingleMortgagePool(ToRaw(a));
  }

  /** A one-member pool whose member scores -2 is rated AAA. */
  lemma ExpectedRatingBoundaryAAA()
    ensures CreditRatingOf(List([ToRaw(Mortgage(700.0, 80000.0, 100000.0, 50000.0, 10000.0, Fixed, SingleFamily))]))
            == Success(AAA)
  {
    var a := Mortgage(700.0, 80000.0, 100000.0, 50000.0, 10000.0, Fixed, SingleFamily);
    assert Risk(a) == -2 by {
      assert 80000.0 / 100000.0 == 0.8 && 10000.0 / 50000.0 == 0.2;
    }
    assert RatingOf(Risk(a) + CreditScoreRisk(a.creditScore)) == AAA;
    OneRecordPool(a);
  }

  /** A one-member pool whose member scores 4 is rated BBB. */
  lemma ExpectedRatingBoundaryBBB()
    ensures CreditRatingOf(List([ToRaw(Mortgage(650.0, 90000.0, 100000.0, 50000.0, 25000.0, Adjustable, Condo))]))
            == Success(BBB)
  {
    var a := Mortgage(650.0, 90000.0, 100000.0, 50000.0, 25000.0, Adjustable, Condo);
    assert Risk(a) == 4 by {
      assert 90000.0 / 100000.0 == 0.9 && 25000.0 / 50000.0 == 0.5;
    }
    assert RatingOf(Risk(a) + CreditScoreRisk(a.creditScore)) == BBB;
    OneRecordPool(a);
  }

  /** The two ordinary records together: scores -2 and 3, average credit score 715, AAA. */
  lemma ExpectedPoolRatingMixed()
    ensures CreditRatingOf(List([
              ToRaw(Mortgage(750.0, 200000.0, 250000.0, 80000.0, 20000.0, Fixed, SingleFamily)),
              ToRaw(Mortgage(680.0, 150000.0, 175000.0, 45000.0, 10000.0, Adjustable, Condo))])) == Success(AAA)
  {
    var a := Mortgage(750.0, 200000.0, 250000.0, 80000.0, 20000.0, Fixed, SingleFamily);
    var b := Mortgage(680.0, 150000.0, 175000.0, 45000.0, 10000.0, Adjustable, Condo);
    assert Risk(a) == -2 by {
      assert 200000.0 / 250000.0 == 0.8 && 20000.0 / 80000.0 == 0.25;
    }
    assert Risk(b) == 3 by {
      assert 0.8 < 150000.0 / 175000.0 <= 0.9 && 10000.0 / 45000.0 <= 0.4;
    }
    assert RatingOf(Risk(a) + Risk(b) + CreditScoreRisk((a.creditScore + b.creditScore) / 2.0)) == AAA;
    TwoRecordPool(a, b);
  }

  /** Two low-risk records: scores -2 and -2, average 735, AAA. */
  lemma ExpectedPoolRatingLow()
    ensures CreditRatingOf(List([
              ToRaw(Mortgage(750.0, 100000.0, 200000.0, 80000.0, 10000.0, Fixed, SingleFamily)),
              ToRaw(Mortgage(720.0, 150000.0, 250000.0, 100000.0, 20000.0, Fixed, SingleFamily))])) == Success(AAA)
  {
    var a := Mortgage(750.0, 100000.0, 200000.0, 80000.0, 10000.0, Fixed, SingleFamily);
    var b := Mortgage(720.0, 150000.0, 250000.0, 100000.0, 20000.0, Fixed, SingleFamily);
    assert Risk(a) == -2 by {
      assert 100000.0 / 200000.0 == 0.5 && 10000.0 / 80000.0 == 0.125;
    }
    assert Risk(b) == -2 by {
      assert 150000.0 / 250000.0 == 0.6 && 20000.0 / 100000.0 == 0.2;
    }
    assert RatingOf(Risk(a) + Risk(b) + CreditScoreRisk((a.creditScore + b.creditScore) / 2.0)) == AAA;
    TwoRecordPool(a, b);
  }

  /** Two medium-risk records: scores 4 and 0, average 685, BBB. */
  lemma ExpectedPoolRatingMedium()
    ensures CreditRatingOf(List([
              ToRaw(Mortgage(680.0, 180000.0, 200000.0, 50000.0, 25000.0, Adjustable, Condo)),
              ToRaw(Mortgage(690.0, 170000.0, 210000.0, 60000.0, 20000.0, Fixed, SingleFamily))])) == Success(BBB)
  {
    var a := Mortgage(680.0, 180000.0, 200000.0, 50000.0, 25000.0, Adjustable, Condo);
    var b := Mortgage(690.0, 170000.0, 210000.0, 60000.0, 20000.0, Fixed, SingleFamily);
    assert Risk(a) == 4 by {
      assert 180000.0 / 200000.0 == 0.9 && 25000.0 / 50000.0 == 0.5;
    }
    assert Risk(b) == 0 by {
      assert 0.8 < 170000.0 / 210000.0 <= 0.9 && 20000.0 / 60000.0 <= 0.4;
    }
    assert RatingOf(Risk(a) + Risk(b) + CreditScoreRisk((a.creditScore + b.creditScore) / 2.0)) == BBB;
    TwoRecordPool(a, b);
  }

  /** Two high-risk records: scores 7 and 7, average 610, C. */
  lemma ExpectedPoolRatingHigh()
    ensures CreditRatingOf(List([
              ToRaw(Mortgage(600.0, 200000.0, 210000.0, 40000.0, 25000.0, Adjustable, Condo)),
              ToRaw(Mortgage(620.0, 195000.0, 200000.0, 35000.0, 20000.0, Adjustable, Condo))])) == Success(C)
  {
    var a := Mortgage(600.0, 200000.0, 210000.0, 40000.0, 25000.0, Adjustable, Condo);
    var b := Mortgage(620.0, 195000.0, 200000.0, 35000.0, 20000.0, Adjustable, Condo);
    assert Risk(a) == 7 by {
      assert 200000.0 / 210000.0 > 0.9 && 25000.0 / 40000.0 > 0.5;
    }
    assert Risk(b) == 7 by {
      assert 195000.0 / 200000.0 > 0.9 && 20000.0 / 35000.0 > 0.5;
    }
    assert RatingOf(Risk(a) + Risk(b) + CreditScoreRisk((a.creditScore + b.creditScore) / 2.0)) == C;
    TwoRecordPool(a, b);
  }

  /** A pool with a zero property value raises and returns no rating. */
  lemma ExpectedPoolErrors()
    ensures CreditRatingOf(List([
              ToRaw(Mortgage(750.0, 200000.0, 250000.0, 80000.0, 20000.0, Fixed, SingleFamily)),
              ToRaw(Mortgage(700.0, 100000.0, 0.0, 50000.0, 10000.0, Fixed, SingleFamily))])) == Failure(ZeroPropertyValue)
  {
    var a := ToRaw(Mortgage(750.0, 200000.0, 250000.0, 80000.0, 20000.0, Fixed, SingleFamily));
    var z := ToRaw(Mortgage(700.0, 100000.0, 0.0, 50000.0, 10000.0, Fixed, SingleFamily));
    var ms := [a, z];
    ScoreOfTypedRecord(Mortgage(750.0, 200000.0, 250000.0, 80000.0, 20000.0, Fixed, SingleFamily));
    ZeroDivisorsRaise();
    assert MortgageRisk(ms[0]).Success? && MortgageRisk(ms[1]) == Failure(ZeroPropertyValue);
    FirstErrorAt(ms, 1);
    assert FirstError(ms) == Some(ZeroPropertyValue);
  }

  /** Input that is not a list, and the empty list, are refused before any
      member is looked at. */
  lemma ExpectedShapeErrors()
    ensures CreditRatingOf(List([])) == Failure(EmptyPool)
    ensures CreditRatingOf(NotList) == Failure(NotAList)
  {
  }
}
