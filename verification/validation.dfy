/**
 * The record validator of the validating engine (`validate_mortgage`) and the
 * typed record a validated dictionary stands for.
 */
module Validation {
  import opened Common

  /** The seven required fields, in the order they are checked. */
  const REQUIRED_FIELDS: seq<string> :=
    ["credit_score", "loan_amount", "property_value", "annual_income", "debt_amount", "loan_type", "property_type"]

  /** The five fields that must be non-negative numbers, in the order they are checked. */
  const NUMERIC_FIELDS: seq<string> :=
    ["credit_score", "loan_amount", "property_value", "annual_income", "debt_amount"]

  predicate IsCreditScore(v: Value) {
    v.Num? && 300.0 <= v.x <= 850.0
  }

  predicate IsNonNegativeNumber(v: Value) {
    v.Num? && v.x >= 0.0
  }

  /** `fields[k]` is absent from `m` and every field listed before it is present. */
  predicate IsFirstMissing(fields: seq<string>, m: RawMortgage, k: int) {
    0 <= k < |fields| && fields[k] !in m && forall j :: 0 <= j < k ==> fields[j] in m
  }

  /** The first field of `fields` that `m` lacks, if any. */
  function FirstMissing(fields: seq<string>, m: RawMortgage): (r: Option<string>)
    ensures r.None? <==> forall i :: 0 <= i < |fields| ==> fields[i] in m
    ensures r.Some? ==> exists k :: IsFirstMissing(fields, m, k) && fields[k] == r.value
  {
    if fields == [] then None
    else if fields[0] !in m then
      assert IsFirstMissing(fields, m, 0);
      Some(fields[0])
    else
      var r := FirstMissing(fields[1..], m);
      if r.Some? then
        var k :| IsFirstMissing(fields[1..], m, k) && fields[1..][k] == r.value;
        assert IsFirstMissing(fields, m, k + 1);
        r
      else
        assert forall i :: 1 <= i < |fields| ==> fields[i] == fields[1..][i - 1];
        r
  }

  /** `fields[k]` does not hold a non-negative number and every field listed
      before it does. */
  predicate IsFirstBadNumber(fields: seq<string>, m: RawMortgage, k: int)
    requires forall i :: 0 <= i < |fields| ==> fields[i] in m
  {
    0 <= k < |fields| && !IsNonNegativeNumber(m[fields[k]])
    && forall j :: 0 <= j < k ==> IsNonNegativeNumber(m[fields[j]])
  }

  /** The first field of `fields` whose value is not a non-negative number, if any. */
  function FirstBadNumber(fields: seq<string>, m: RawMortgage): (r: Option<string>)
    requires forall i :: 0 <= i < |fields| ==> fields[i] in m
    ensures r.None? <==> forall i :: 0 <= i < |fields| ==> IsNonNegativeNumber(m[fields[i]])
    ensures r.Some? ==> exists k :: IsFirstBadNumber(fields, m, k) && fields[k] == r.value
  {
    if fields == [] then None
    else if !IsNonNegativeNumber(m[fields[0]]) then
      assert IsFirstBadNumber(fields, m, 0);
      Some(fields[0])
    else
      assert forall i :: 1 <= i < |fields| ==> fields[i] == fields[1..][i - 1];
      var r := FirstBadNumber(fields[1..], m);
      if r.Some? then
        var k :| IsFirstBadNumber(fields[1..], m, k) && fields[1..][k] == r.value;
        assert IsFirstBadNumber(fields, m, k + 1);
        r
      else
        r
  }

  /** What `validate_mortgage` does to a record: passes, or raises with the
      reason of the first failed check, checks taken in source order. */
  function Validate(m: RawMortgage): (r: Outcome)
    ensures r.Fail? ==> !r.error.ZeroPropertyValue? && !r.error.ZeroAnnualIncome?
                        && !r.error.NotAList? && !r.error.EmptyPool?
    ensures r.Fail? && r.error.MissingField? ==> r.error.field in REQUIRED_FIELDS && r.error.field !in m
    ensures r.Fail? && r.error.InvalidCreditScore?
            ==> "credit_score" in m && m["credit_score"] == r.error.value && !IsCreditScore(r.error.value)
    ensures r.Fail? && r.error.InvalidNumber?
            ==> r.error.field in NUMERIC_FIELDS && r.error.field in m
                && m[r.error.field] == r.error.value && !IsNonNegativeNumber(r.error.value)
    ensures r.Fail? && r.error.InvalidLoanType?
            ==> "loan_type" in m && m["loan_type"] == r.error.value
                && r.error.value != Str("fixed") && r.error.value != Str("adjustable")
    ensures r.Fail? && r.error.InvalidPropertyType?
            ==> "property_type" in m && m["property_type"] == r.error.value
                && r.error.value != Str("single_family") && r.error.value != Str("condo")
  {
    match FirstMissing(REQUIRED_FIELDS, m)
    case Some(f) =>
      var k :| IsFirstMissing(REQUIRED_FIELDS, m, k) && REQUIRED_FIELDS[k] == f;
      Fail(MissingField(f))
    case None =>
      assert forall i :: 0 <= i < |NUMERIC_FIELDS| ==> NUMERIC_FIELDS[i] == REQUIRED_FIELDS[i];
      assert REQUIRED_FIELDS[5] in m && REQUIRED_FIELDS[6] in m;
      if !IsCreditScore(m["credit_score"]) then
        Fail(InvalidCreditScore(m["credit_score"]))
      else if m["loan_type"] != Str("fixed") && m["loan_type"] != Str("adjustable") then
        Fail(InvalidLoanType(m["loan_type"]))
      else if m["property_type"] != Str("single_family") && m["property_type"] != Str("condo") then
        Fail(InvalidPropertyType(m["property_type"]))
      else
        match FirstBadNumber(NUMERIC_FIELDS, m)
        case Some(f) =>
          var k :| IsFirstBadNumber(NUMERIC_FIELDS, m, k) && NUMERIC_FIELDS[k] == f;
          Fail(InvalidNumber(f, m[f]))
        case None => Pass
  }

  /** An independent statement of what a well-formed record is. The loan and
      property types are compared case-sensitively. */
  predicate WellFormed(m: RawMortgage) {
    && "credit_score" in m && "loan_amount" in m && "property_value" in m
    && "annual_income" in m && "debt_amount" in m && "loan_type" in m && "property_type" in m
    && IsCreditScore(m["credit_score"])
    && (m["loan_type"] == Str("fixed") || m["loan_type"] == Str("adjustable"))
    && (m["property_type"] == Str("single_family") || m["property_type"] == Str("condo"))
    && IsNonNegativeNumber(m["credit_score"])
    && IsNonNegativeNumber(m["loan_amount"])
    && IsNonNegativeNumber(m["property_value"])
    && IsNonNegativeNumber(m["annual_income"])
    && IsNonNegativeNumber(m["debt_amount"])
  }

  /** `validate_mortgage`: the two field loops with early exits. */
  method ValidateMortgage(m: RawMortgage) returns (o: Outcome)
    ensures o == Validate(m)
  {
    var i := 0;
    while i < |REQUIRED_FIELDS|
      invariant 0 <= i <= |REQUIRED_FIELDS|
      invariant FirstMissing(REQUIRED_FIELDS, m) == FirstMissing(REQUIRED_FIELDS[i..], m)
    {
      var field := REQUIRED_FIELDS[i];
      if field !in m {
        return Fail(MissingField(field));
      }
      assert REQUIRED_FIELDS[i..][1..] == REQUIRED_FIELDS[i + 1..];
      i := i + 1;
    }
    assert forall k :: 0 <= k < |NUMERIC_FIELDS| ==> NUMERIC_FIELDS[k] == REQUIRED_FIELDS[k];
    assert REQUIRED_FIELDS[5] in m && REQUIRED_FIELDS[6] in m;
    if !IsCreditScore(m["credit_score"]) {
      return Fail(InvalidCreditScore(m["credit_score"]));
    }
    if m["loan_type"] != Str("fixed") && m["loan_type"] != Str("adjustable") {
      return Fail(InvalidLoanType(m["loan_type"]));
    }
    if m["property_type"] != Str("single_family") && m["property_type"] != Str("condo") {
      return Fail(InvalidPropertyType(m["property_type"]));
    }
    i := 0;
    while i < |NUMERIC_FIELDS|
      invariant 0 <= i <= |NUMERIC_FIELDS|
      invariant FirstBadNumber(NUMERIC_FIELDS, m) == FirstBadNumber(NUMERIC_FIELDS[i..], m)
    {
      var field := NUMERIC_FIELDS[i];
      if !IsNonNegativeNumber(m[field]) {
        return Fail(InvalidNumber(field, m[field]));
      }
      assert NUMERIC_FIELDS[i..][1..] == NUMERIC_FIELDS[i + 1..];
      i := i + 1;
    }
    return Pass;
  }

  /** Validation accepts a record exactly when it is well formed. */
  lemma ValidateAcceptsWellFormed(m: RawMortgage)
    ensures Validate(m).Pass? <==> WellFormed(m)
  {
    assert forall i :: 0 <= i < |NUMERIC_FIELDS| ==> NUMERIC_FIELDS[i] == REQUIRED_FIELDS[i];
    if WellFormed(m) {
      assert forall i :: 0 <= i < |REQUIRED_FIELDS| ==> REQUIRED_FIELDS[i] in m;
      assert forall i :: 0 <= i < |NUMERIC_FIELDS| ==> IsNonNegativeNumber(m[NUMERIC_FIELDS[i]]);
    }
    if Validate(m).Pass? {
      assert FirstMissing(REQUIRED_FIELDS, m).None?;
      assert REQUIRED_FIELDS[0] in m && REQUIRED_FIELDS[1] in m && REQUIRED_FIELDS[2] in m && REQUIRED_FIELDS[3] in m;
      assert REQUIRED_FIELDS[4] in m && REQUIRED_FIELDS[5] in m && REQUIRED_FIELDS[6] in m;
      assert FirstBadNumber(NUMERIC_FIELDS, m).None?;
      assert IsNonNegativeNumber(m[NUMERIC_FIELDS[1]]) && IsNonNegativeNumber(m[NUMERIC_FIELDS[2]]);
      assert IsNonNegativeNumber(m[NUMERIC_FIELDS[3]]) && IsNonNegativeNumber(m[NUMERIC_FIELDS[4]]);
    }
  }

  /** Missing fields are checked first, in the listed order: a record lacking
      some required field is rejected for the first one it lacks, and no later
      check is reached. */
  lemma {:induction false} MissingFieldReportedFirst(m: RawMortgage, f: string)
    ensures Validate(m) == Fail(MissingField(f))
            <==> exists k :: IsFirstMissing(REQUIRED_FIELDS, m, k) && REQUIRED_FIELDS[k] == f
  {
    if exists k :: IsFirstMissing(REQUIRED_FIELDS, m, k) && REQUIRED_FIELDS[k] == f {
      var k :| IsFirstMissing(REQUIRED_FIELDS, m, k) && REQUIRED_FIELDS[k] == f;
      var r := FirstMissing(REQUIRED_FIELDS, m);
      assert r.Some?;
      var k' :| IsFirstMissing(REQUIRED_FIELDS, m, k') && REQUIRED_FIELDS[k'] == r.value;
      FirstMissingUnique(REQUIRED_FIELDS, m, k, k');
    }
  }

  /** There is at most one first missing field. */
  lemma FirstMissingUnique(fields: seq<string>, m: RawMortgage, k: int, k': int)
    requires IsFirstMissing(fields, m, k) && IsFirstMissing(fields, m, k')
    ensures k == k'
  {
  }

  /** The loan type is compared case-sensitively: "FIXED" is rejected even
      though the scorer lower-cases it afterwards. */
  lemma UpperCaseLoanTypeRejected(m: RawMortgage)
    requires WellFormed(m)
    ensures Validate(m["loan_type" := Str("FIXED")]) == Fail(InvalidLoanType(Str("FIXED")))
  {
    var m' := m["loan_type" := Str("FIXED")];
    assert forall i :: 0 <= i < |REQUIRED_FIELDS| ==> REQUIRED_FIELDS[i] in m';
  }

  /** The two rejected records of the unit tests: a credit score given as text,
      and a record that stops after the property value. */
  lemma ExpectedValidationErrors()
    ensures Validate(map["credit_score" := Str("sevenhundread"), "loan_amount" := Num(200000.0),
                         "property_value" := Num(250000.0), "annual_income" := Num(60000.0),
                         "debt_amount" := Num(20000.0), "loan_type" := Str("fixed"),
                         "property_type" := Str("single_family")])
            == Fail(InvalidCreditScore(Str("sevenhundread")))
    ensures Validate(map["credit_score" := Num(720.0), "loan_amount" := Num(150000.0),
                         "property_value" := Num(175000.0)])
            == Fail(MissingField("annual_income"))
  {
    var partial := map["credit_score" := Num(720.0), "loan_amount" := Num(150000.0),
                       "property_value" := Num(175000.0)];
    assert IsFirstMissing(REQUIRED_FIELDS, partial, 3);
    MissingFieldReportedFirst(partial, "annual_income");
  }

  datatype LoanType = Fixed | Adjustable {
    function Name(): string {
      match this
      case Fixed => "fixed"
      case Adjustable => "adjustable"
    }
  }

  datatype PropertyType = SingleFamily | Condo {
    function Name(): string {
      match this
      case SingleFamily => "single_family"
      case Condo => "condo"
    }
  }

  /** A mortgage record that has passed validation, as a typed value. */
  datatype Mortgage = Mortgage(
    creditScore: real,
    loanAmount: real,
    propertyValue: real,
    annualIncome: real,
    debtAmount: real,
    loanType: LoanType,
    propertyType: PropertyType)
  {
    /** The ranges validation enforces. */
    predicate Valid() {
      && 300.0 <= creditScore <= 850.0
      && loanAmount >= 0.0 && propertyValue >= 0.0 && annualIncome >= 0.0 && debtAmount >= 0.0
    }
  }

  /** The typed record a well-formed dictionary stands for. */
  function ToMortgage(m: RawMortgage): (rec: Mortgage)
    requires WellFormed(m)
    ensures rec.Valid()
    ensures ToRaw(rec) == m - (m.Keys - set f | f in REQUIRED_FIELDS)
  {
    var rec := Mortgage(
      m["credit_score"].x, m["loan_amount"].x, m["property_value"].x,
      m["annual_income"].x, m["debt_amount"].x,
      if m["loan_type"] == Str("fixed") then Fixed else Adjustable,
      if m["property_type"] == Str("condo") then Condo else SingleFamily);
    var kept := m - (m.Keys - set f | f in REQUIRED_FIELDS);
    assert ToRaw(rec).Keys == kept.Keys;
    assert forall f | f in kept :: ToRaw(rec)[f] == kept[f];
    rec
  }

  /** The dictionary holding exactly the fields of a typed record. */
  function ToRaw(rec: Mortgage): RawMortgage {
    map[
      "credit_score" := Num(rec.creditScore),
      "loan_amount" := Num(rec.loanAmount),
      "property_value" := Num(rec.propertyValue),
      "annual_income" := Num(rec.annualIncome),
      "debt_amount" := Num(rec.debtAmount),
      "loan_type" := Str(rec.loanType.Name()),
      "property_type" := Str(rec.propertyType.Name())]
  }

  /** Round trip: every valid typed record passes validation as a dictionary
      and reads back as itself. */
  lemma ToRawRoundTrip(rec: Mortgage)
    requires rec.Valid()
    ensures Validate(ToRaw(rec)) == Pass
    ensures ToMortgage(ToRaw(rec)) == rec
  {
    assert WellFormed(ToRaw(rec));
    ValidateAcceptsWellFormed(ToRaw(rec));
  }
}
