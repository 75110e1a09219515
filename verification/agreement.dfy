/**
 * The two copies of the engine compared: on every input the validating copy
 * accepts and whose divisors are nonzero, they compute the same score and the
 * same grade.
 */
module Agreement {
  import opened Common
  import opened Tiers
  import opened Validation
  import opened Scoring
  import opened Pool
  import opened Graphql

  /** A query-layer input as the dictionary the validating copy reads. */
  function Embed(mi: MortgageInput): RawMortgage {
    map[
      "credit_score" := Num(mi.creditScore as real),
      "loan_amount" := Num(mi.loanAmount),
      "property_value" := Num(mi.propertyValue),
      "annual_income" := Num(mi.annualIncome),
      "debt_amount" := Num(mi.debtAmount),
      "loan_type" := Str(mi.loanType),
      "property_type" := Str(mi.propertyType)]
  }

  /** The inputs the validating copy accepts, stated on the typed fields: a
      score between 300 and 850, one of the two loan types and one of the two
      property types spelled exactly, and no negative amount. */
  predicate Accepted(mi: MortgageInput) {
    && 300 <= mi.creditScore <= 850
    && (mi.loanType == "fixed" || mi.loanType == "adjustable")
    && (mi.propertyType == "single_family" || mi.propertyType == "condo")
    && mi.loanAmount >= 0.0 && mi.propertyValue >= 0.0
    && mi.annualIncome >= 0.0 && mi.debtAmount >= 0.0
  }

  /** The validator passes an embedded input exactly when it is accepted. */
  lemma EmbedAccepted(mi: MortgageInput)
    ensures Validate(Embed(mi)) == Pass <==> Accepted(mi)
  {
    ValidateAcceptsWellFormed(Embed(mi));
  }

  function EmbedAll(ms: seq<MortgageInput>): (r: seq<RawMortgage>)
    ensures |r| == |ms|
    ensures forall i :: 0 <= i < |ms| ==> r[i] == Embed(ms[i])
  {
    seq(|ms|, i requires 0 <= i < |ms| => Embed(ms[i]))
  }

  /** The unvalidated scorer returns what the validating scorer returns, on
      every accepted input whose divisors are nonzero. */
  lemma ScorersAgree(mi: MortgageInput)
    requires HasDivisors(mi) && Accepted(mi)
    ensures MortgageRisk(Embed(mi)) == Success(RiskScore(mi))
  {
    EmbedAccepted(mi);
  }

  /** What one accepted input adds to the validating rater's totals is its
      unvalidated score and its own credit score. */
  lemma ContributionAgrees(mi: MortgageInput)
    requires HasDivisors(mi) && Accepted(mi)
    ensures Contribution(Embed(mi)) == Tally(RiskScore(mi), mi.creditScore as real)
  {
    ScorersAgree(mi);
  }

  /** The running totals of the validating rater over embedded inputs are the
      unvalidated copy's sums. */
  lemma {:induction false} TalliesAgree(ms: seq<MortgageInput>)
    requires forall i :: 0 <= i < |ms| ==> HasDivisors(ms[i]) && Accepted(ms[i])
    ensures TallyOf(EmbedAll(ms)) == Tally(TotalRisk(ms), TotalCredit(ms) as real)
    decreases |ms|
  {
    if ms != [] {
      var n := |ms|;
      var init, last := ms[..n - 1], ms[n - 1];
      assert EmbedAll(ms)[..n - 1] == EmbedAll(init);
      assert ms == init + [last];
      TalliesAgree(init);
      TotalsSnoc(init, last);
      ContributionAgrees(last);
    }
  }

  /** The two raters give the same grade on every non-empty list of inputs the
      validating copy accepts with nonzero divisors. */
  lemma RatersAgree(ms: seq<MortgageInput>)
    requires |ms| > 0
    requires forall i :: 0 <= i < |ms| ==> HasDivisors(ms[i]) && Accepted(ms[i])
    ensures CreditRatingOf(List(EmbedAll(ms))) == Success(DetermineRmbsRating(ms).rating)
  {
    forall i | 0 <= i < |ms|
      ensures MortgageRisk(EmbedAll(ms)[i]).Success?
    {
      ScorersAgree(ms[i]);
    }
    TalliesAgree(ms);
  }

  /** Where validation would reject, the copies part: an upper-case loan type
      is an error for one and a neutral term for the other. */
  lemma UpperCaseDiverges()
    ensures
      var mi := MortgageInput(700, 90000.0, 100000.0, 50000.0, 10000.0, "FIXED", "single_family");
      && MortgageRisk(Embed(mi)) == Failure(InvalidLoanType(Str("FIXED")))
      && RiskScore(mi) == 0
  {
    var mi := MortgageInput(700, 90000.0, 100000.0, 50000.0, 10000.0, "FIXED", "single_family");
    assert WellFormed(Embed(mi.(loanType := "fixed")));
    UpperCaseLoanTypeRejected(Embed(mi.(loanType := "fixed")));
    assert Embed(mi.(loanType := "fixed"))["loan_type" := Str("FIXED")] == Embed(mi);
  }

  /** A zero property value is an error for the validating copy and outside
      the domain of the other. */
  lemma ZeroValueDiverges()
    ensures
      var mi := MortgageInput(700, 100000.0, 0.0, 50000.0, 10000.0, "fixed", "single_family");
      && MortgageRisk(Embed(mi)) == Failure(ZeroPropertyValue)
      && !HasDivisors(mi)
  {
    var mz := MortgageInput(700, 100000.0, 0.0, 50000.0, 10000.0, "fixed", "single_family");
    ScoreFailsExactly(Embed(mz));
  }
}
