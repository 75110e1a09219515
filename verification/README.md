# Mortgage-pool credit rating, modelled in Dafny

The engine rates a pool of mortgages. It scores each mortgage's default risk
from two ratios and three attributes:

- the loan-to-value ratio (LTV), loan amount over property value;
- the debt-to-income ratio (DTI), debt amount over annual income;
- the credit score;
- the loan type (`fixed` or `adjustable`);
- the property type (`single_family` or `condo`).

It then sums the scores over the pool and adjusts the total by the pool's
average credit score. Finally it maps the total to a grade: `AAA`, `BBB` or `C`.

The repository holds the engine twice, and this project models both copies:

- **The validating engine** (`credit-rating-mock/credit_rating.py`):
  - a record validator;
  - two ratio helpers that raise on a zero divisor;
  - a per-mortgage scorer;
  - a pool rater that returns the grade.
- **The unvalidated copy** (`credit-rating-graphql/credit_rating_graphql.py`),
  which sits behind a query layer:
  - the same scorer and rater, with no validation and no zero checks;
  - the rater returns the adjusted total together with the grade.

Files:

- `common.dfy`: the shared types. A raw record is a `map<string, Value>`, where
  `Value = Num(real) | Str(string) | Other`. Each raise site has its own `Error`
  constructor. The file also holds `Result`/`Outcome`, `Rating`, and ASCII
  lower-casing.
- `tiers.dfy`: the threshold tables that both copies write out inline, stated
  once here. It also holds division-free (cross-multiplied) forms of the ratio
  tiers.
- `validation.dfy`: `validate_mortgage`. It holds a method with the source's
  two field loops, the function that specifies it, and a typed `Mortgage`
  record that a validated dictionary stands for.
- `scoring.dfy`: `calculate_ltv`, `calculate_dti` and
  `calculate_mortgage_risk`. The scorer is a method that adds to an
  accumulator, proved against a specification function.
- `pool.dfy`: `calculate_credit_rating`. The rater is a method whose loop keeps
  running totals, proved against a specification function, together with the
  permutation-invariance and failure lemmas.
- `graphql.dfy`: `calculate_risk_score` (a method) and `determine_rmbs_rating`
  (a function), with the `CreditRating` result shape.
- `agreement.dfy`: the two copies agree on every input that the validating
  copy accepts and whose divisors are nonzero.

Ratios are exact `real`s. Every comparison uses the source's literal
thresholds.

The scorer lower-cases the loan and property types before comparing them
(`credit-rating-mock/credit_rating.py:56-57`), which suggests that
case-insensitive matching was intended. The validator that runs first,
however, compares them exactly (`:18` and `:21`). So `"FIXED"` is rejected,
and the `.lower()` calls never change anything. The model follows the code
(`Validation.UpperCaseLoanTypeRejected`, `Scoring.LowerIsIdentityOnValidTypes`,
`Agreement.UpperCaseDiverges`).

Two unit tests do not test what their names say. At
`credit-rating-mock/test_credit_rating.py:75-83` they pass lists to
`validate_mortgage`. Those lists are rejected by the missing-field check,
because `in` on a list tests membership. They never reach the empty-pool or
negative-value paths. Empty pools and non-lists are modelled at the pool rater
(`Pool.PoolFailsExactly`, `Pool.ExpectedShapeErrors`).

## Model

| member | source | states |
|---|---|---|
| `Common.Lower` | credit-rating-mock/credit_rating.py:56-57 | lower-casing keeps the length, yields lower-case text, and leaves already lower-case text unchanged |
| `Validation.FirstMissing` | credit-rating-mock/credit_rating.py:9-13 | the result is none exactly when every listed field is present; otherwise it is the first listed field that is absent |
| `Validation.FirstBadNumber` | credit-rating-mock/credit_rating.py:24-26 | the result is none exactly when every listed field holds a non-negative number; otherwise it is the first listed field that does not |
| `Validation.Validate` | credit-rating-mock/credit_rating.py:8-26 | a failure is only ever one of the validator's five errors, each carrying the offending field or value: a missing field that is required and absent; a credit score that is present and not a number in [300, 850]; a loan type that is present and neither `"fixed"` nor `"adjustable"`; a property type that is present and neither `"single_family"` nor `"condo"`; or a listed numeric field that is present and holds a non-number or a negative value |
| `Validation.ValidateMortgage` | credit-rating-mock/credit_rating.py:8-26 | the two loops with early exits return exactly the validation outcome: the first missing field, else credit score, loan type, property type, then the first non-numeric or negative field |
| `Validation.ValidateAcceptsWellFormed` | credit-rating-mock/credit_rating.py:11-26 | validation succeeds if and only if all seven fields are present, the credit score is a number in [300, 850], the loan type is exactly `fixed`/`adjustable`, the property type is exactly `single_family`/`condo`, and the five numeric fields are numbers >= 0 |
| `Validation.MissingFieldReportedFirst` | credit-rating-mock/credit_rating.py:9-13 | the result is a missing-field error for `f` if and only if `f` is the first required field, in the listed order, that the record lacks; no later check runs |
| `Validation.UpperCaseLoanTypeRejected` | credit-rating-mock/credit_rating.py:18-19 | a record that is well formed except for loan type `"FIXED"` is rejected with an invalid-loan-type error |
| `Validation.FirstMissingUnique` | credit-rating-mock/credit_rating.py:11-13 | at most one position is the first missing field |
| `Validation.ExpectedValidationErrors` | credit-rating-mock/test_credit_rating.py:64-73 | a credit score given as text is rejected as an invalid credit score; a record that stops after the property value is rejected for its missing annual income |
| `Validation.ToMortgage` | credit-rating-mock/credit_rating.py:51-57 | the typed record read from a well-formed dictionary satisfies the validated ranges and holds exactly its seven required fields |
| `Validation.ToRawRoundTrip` | credit-rating-mock/credit_rating.py:8-26 | every valid typed record passes validation when written as a dictionary, and reads back as itself |
| `Scoring.CalculateLtv` | credit-rating-mock/credit_rating.py:30-34 | fails, with the property-value error, exactly when the property value is 0; otherwise the ratio times the property value is the loan amount |
| `Scoring.CalculateDti` | credit-rating-mock/credit_rating.py:37-41 | fails, with the income error, exactly when the annual income is 0; otherwise the ratio times the income is the debt amount |
| `Scoring.Risk` | credit-rating-mock/credit_rating.py:59-89 | the score of a validated record with nonzero divisors lies in [-2, 7], and its loan-type term is never 0 |
| `Scoring.MortgageRisk` | credit-rating-mock/credit_rating.py:44-89 | a validation error is passed on unchanged; every score returned lies in [-2, 7] |
| `Scoring.CalculateMortgageRisk` | credit-rating-mock/credit_rating.py:44-89 | the accumulator method (validate, read fields, lower-case the category fields, add five adjustments) returns exactly the specified score or error |
| `Scoring.LowerIsIdentityOnValidTypes` | credit-rating-mock/credit_rating.py:56-57 | on a validated record, lower-casing the loan and property types changes nothing |
| `Scoring.ScoreFailsExactly` | credit-rating-mock/credit_rating.py:46-67 | scoring fails exactly when validation fails or the property value or income is 0; a zero property value is reported before a zero income |
| `Scoring.ScoreWithoutDivision` | credit-rating-mock/credit_rating.py:59-87 | for a valid record with positive divisors, the score is the sum of five independent terms, with the ratio tiers as cross-multiplied comparisons (`10*loan > 9*value`, ...) |
| `Scoring.LoanAmountMonotone` | credit-rating-mock/credit_rating.py:60-64 | with all other fields fixed, raising the loan amount never lowers the score |
| `Scoring.DebtAmountMonotone` | credit-rating-mock/credit_rating.py:67-71 | with all other fields fixed, raising the debt amount never lowers the score |
| `Scoring.CreditScoreAntitone` | credit-rating-mock/credit_rating.py:74-77 | with all other fields fixed, raising the credit score (within range) never raises the score |
| `Scoring.ScoreOfTypedRecord` | credit-rating-mock/credit_rating.py:59-89 | a valid typed record with nonzero divisors, written as a dictionary, scores its typed score |
| `Scoring.ExpectedScoreValidFixed` | credit-rating-mock/test_credit_rating.py:16-20 | the ordinary fixed-rate record with credit score 750 scores -2 |
| `Scoring.ExpectedScoreValidAdjustable` | credit-rating-mock/test_credit_rating.py:16-21 | the ordinary adjustable-rate condo record scores 3 |
| `Scoring.ExpectedScoreHighLtv` | credit-rating-mock/test_credit_rating.py:24-28 | the record with an LTV of exactly 0.9 scores 0 |
| `Scoring.ExpectedScoreHighDti` | credit-rating-mock/test_credit_rating.py:24-29 | the record with a DTI of 0.625 scores 4 |
| `Scoring.ExpectedScoreCreditFloor` | credit-rating-mock/test_credit_rating.py:32-36 | credit score 300 scores 0 |
| `Scoring.ExpectedScoreCreditCeiling` | credit-rating-mock/test_credit_rating.py:32-37 | credit score 850 scores -2 |
| `Scoring.ExpectedScoreLtvAtLowerThreshold` | credit-rating-mock/test_credit_rating.py:40-44 | an LTV of exactly 0.8 adds nothing: the record scores -2 |
| `Scoring.ExpectedScoreLtvAtUpperThreshold` | credit-rating-mock/test_credit_rating.py:40-45 | an LTV of exactly 0.9 adds 1: the record scores -1 |
| `Scoring.ExpectedScoreDtiAtLowerThreshold` | credit-rating-mock/test_credit_rating.py:48-52 | a DTI of exactly 0.4 adds nothing: the record scores -2 |
| `Scoring.ExpectedScoreDtiAtUpperThreshold` | credit-rating-mock/test_credit_rating.py:48-53 | a DTI of exactly 0.5 adds 1: the record scores -1 |
| `Scoring.ZeroDivisorsRaise` | credit-rating-mock/test_credit_rating.py:121-129 | a zero property value or a zero income makes scoring raise |
| `Scoring.DivideMonotone` | credit-rating-mock/credit_rating.py:33 | dividing by a positive property value or income keeps the order of the numerators |
| `Tiers.LtvRisk` | credit-rating-mock/credit_rating.py:61-64 | the LTV adjustment lies in [0, 2] |
| `Tiers.DtiRisk` | credit-rating-mock/credit_rating.py:68-71 | the DTI adjustment lies in [0, 2] |
| `Tiers.CreditScoreRisk` | credit-rating-mock/credit_rating.py:74-77 | the credit-score adjustment lies in [-1, 1] |
| `Tiers.LoanTypeImpact` | credit-rating-graphql/credit_rating_graphql.py:47-50 | the loan-type adjustment lies in [-1, 1], and is 0 exactly when the type is neither `fixed` nor `adjustable` |
| `Tiers.PropertyTypeImpact` | credit-rating-graphql/credit_rating_graphql.py:53-54 | the property-type adjustment is 0 or 1, and 1 exactly for `condo` |
| `Tiers.RatioAbove` | credit-rating-mock/credit_rating.py:33 | for a positive divisor, a ratio exceeds `p/q` exactly when the cross-multiplied inequality holds |
| `Tiers.LtvRiskCrossMultiplied` | credit-rating-mock/credit_rating.py:60-64 | for a positive property value, the LTV tier is decided by `10*loan > 9*value` and `10*loan > 8*value` |
| `Tiers.DtiRiskCrossMultiplied` | credit-rating-mock/credit_rating.py:67-71 | for a positive income, the DTI tier is decided by `10*debt > 5*income` and `10*debt > 4*income` |
| `Tiers.TierBoundaries` | credit-rating-mock/credit_rating.py:61-77 | the thresholds are strict: LTV 0.9 gives 1, 0.8 gives 0; DTI 0.5 gives 1, 0.4 gives 0; credit 700 gives -1, 650 gives 0, 649 gives 1 |
| `Tiers.TiersMonotone` | credit-rating-mock/credit_rating.py:61-77 | a larger ratio never lowers the ratio adjustments; a larger credit score never raises the credit adjustment |
| `Tiers.RatingOf` | credit-rating-mock/credit_rating.py:121-126 | the grade is AAA if and only if total <= 2 (negative totals included), BBB if and only if 3..5, C if and only if >= 6; the copy grades by the same bands (`credit-rating-graphql/credit_rating_graphql.py:70-75`) |
| `Tiers.AverageAtLeast` | credit-rating-mock/credit_rating.py:115 | an average over a positive count reaches a bound exactly when the sum reaches the count times the bound |
| `Tiers.RatingExamples` | credit-rating-mock/credit_rating.py:121-126 | totals 2, 3, 5, 6 and -5 grade AAA, BBB, BBB, C and AAA |
| `Tiers.RatingMonotone` | credit-rating-mock/credit_rating.py:121-126 | a higher total never gives a better grade |
| `Pool.CreditOf` | credit-rating-mock/credit_rating.py:112 | a record without a credit score adds 0; a validated record adds its own credit score, which lies in [300, 850] |
| `Pool.AdjustedTotal` | credit-rating-mock/credit_rating.py:114-118 | the adjusted total is one less exactly when the credit sum is at least 700 times the pool size, one more exactly when it is below 650 times the size, and unchanged exactly in between |
| `Pool.CreditRatingOf` | credit-rating-mock/credit_rating.py:100-128 | the rater returns a grade if and only if its input is a non-empty list whose every member scores |
| `Pool.FirstError` | credit-rating-mock/credit_rating.py:110-111 | the result is none exactly when every member scores; otherwise it is the error of the first member that does not |
| `Pool.FirstErrorAt` | credit-rating-mock/credit_rating.py:110-111 | if every member before position i scores and member i fails, the pool's error is member i's error |
| `Pool.TallyStep` | credit-rating-mock/credit_rating.py:110-112 | one turn of the loop: when member i scores s, every member up to i scores, and the totals grow by s and by i's credit score |
| `Pool.AllScoreRating` | credit-rating-mock/credit_rating.py:114-128 | a non-empty list whose members all score is graded by its summed score adjusted by its average credit score |
| `Pool.CalculateCreditRating` | credit-rating-mock/credit_rating.py:100-128 | the loop with running totals, the in-place adjustment and the grading return exactly the specified grade or error |
| `Pool.PoolFailsExactly` | credit-rating-mock/credit_rating.py:101-111 | the rater fails, and returns no rating, exactly on a non-list, an empty list, or a list with a member that does not score; the error is that of the first such member |
| `Pool.SumRemove` | credit-rating-mock/credit_rating.py:110-112 | for any per-member contribution, the running totals of a list are those without one member plus that member's contribution |
| `Pool.SumPermutation` | credit-rating-mock/credit_rating.py:110-112 | for any per-member contribution, and so for the summed scores and credit scores, the running totals do not depend on the order of the members |
| `Pool.AllScorePermutation` | credit-rating-mock/credit_rating.py:110-111 | if every member scores, every member of any permutation scores |
| `Pool.PermutationInvariant` | credit-rating-mock/credit_rating.py:106-128 | any permutation of a pool fails when the pool does, and otherwise gets the same grade |
| `Pool.SingleMortgagePool` | credit-rating-mock/credit_rating.py:106-128 | a one-member pool grades its member's score adjusted by the credit rule on its own credit score, or fails with the member's error |
| `Pool.TwoMortgagePool` | credit-rating-mock/credit_rating.py:106-128 | a two-member pool grades the sum of the scores adjusted by the average of the two credit scores |
| `Pool.TwoRecordPool` | credit-rating-mock/credit_rating.py:106-128 | the same for two valid typed records with nonzero divisors |
| `Pool.OneRecordPool` | credit-rating-mock/credit_rating.py:106-128 | the one-member case for a valid typed record with nonzero divisors |
| `Pool.ExpectedRatingBoundaryAAA` | credit-rating-mock/test_credit_rating.py:55-59 | the one-member pool whose member scores -2 grades AAA |
| `Pool.ExpectedRatingBoundaryBBB` | credit-rating-mock/test_credit_rating.py:55-60 | the one-member pool whose member scores 4, at average credit score 650, grades BBB |
| `Pool.ExpectedPoolRatingMixed` | credit-rating-mock/test_credit_rating.py:87-93 | the two sample records together grade AAA |
| `Pool.ExpectedPoolRatingLow` | credit-rating-mock/test_credit_rating.py:95-101 | the two high-credit records grade AAA |
| `Pool.ExpectedPoolRatingMedium` | credit-rating-mock/test_credit_rating.py:103-109 | the two medium-risk records grade BBB |
| `Pool.ExpectedPoolRatingHigh` | credit-rating-mock/test_credit_rating.py:111-117 | the two high-risk records grade C |
| `Pool.ExpectedPoolErrors` | credit-rating-mock/credit_rating.py:106-111 | a pool with a zero property value in its second member fails with that error and no rating |
| `Pool.ExpectedShapeErrors` | credit-rating-mock/credit_rating.py:101-104 | an empty list fails with the empty-pool error, and a non-list with the not-a-list error |
| `Graphql.RiskScore` | credit-rating-graphql/credit_rating_graphql.py:23-56 | the unvalidated score lies in [-2, 7] for any input with nonzero divisors |
| `Graphql.CalculateRiskScore` | credit-rating-graphql/credit_rating_graphql.py:23-56 | the sequence of updates to the accumulator returns the sum of the five tier adjustments; nonzero divisors are a precondition because the divisions are unguarded |
| `Graphql.TotalRisk` | credit-rating-graphql/credit_rating_graphql.py:60 | the summed score of a list with nonzero divisors lies between -2 and 7 times its length |
| `Graphql.TotalCredit` | credit-rating-graphql/credit_rating_graphql.py:61 | when every credit score lies in [300, 850], the summed credit score lies between 300 and 850 times the length |
| `Graphql.AdjustmentByAverage` | credit-rating-graphql/credit_rating_graphql.py:61-67 | the average-credit adjustment lowers the total by 1 exactly when the credit sum reaches 700 times the count, and raises it by 1 exactly when the sum is below 650 times the count |
| `Graphql.DetermineRmbsRating` | credit-rating-graphql/credit_rating_graphql.py:59-77 | the returned grade is computed from the returned total. The total is the raw sum of scores minus 1 exactly when the credit sum is at least 700 times the list length, plus 1 exactly when it is below 650 times the length, and otherwise the raw sum. A non-empty list is a precondition |
| `Graphql.LoanTypeCaseSensitive` | credit-rating-graphql/credit_rating_graphql.py:47-50 | `"FIXED"` adds 0: it scores one more than `"fixed"` and one less than `"adjustable"` |
| `Graphql.OnlyCondoAdds` | credit-rating-graphql/credit_rating_graphql.py:53-54 | every property type other than `condo` scores as `single_family`; `condo` adds 1 |
| `Graphql.SingleMortgagePool` | credit-rating-graphql/credit_rating_graphql.py:60-67 | a one-mortgage total is its score plus the credit adjustment applied a second time to its own credit score |
| `Graphql.TotalsSnoc` | credit-rating-graphql/credit_rating_graphql.py:60-61 | appending a mortgage adds its score and its credit score to the sums |
| `Graphql.HigherTotalNeverBetter` | credit-rating-graphql/credit_rating_graphql.py:70-77 | of two pools, the one with the higher returned total never has the better grade |
| `Agreement.EmbedAccepted` | credit-rating-mock/credit_rating.py:11-26 | a query-layer input, read as a dictionary, passes validation if and only if its score lies in [300, 850], its loan type is exactly `fixed` or `adjustable`, its property type exactly `single_family` or `condo`, and no amount is negative |
| `Agreement.ScorersAgree` | credit-rating-graphql/credit_rating_graphql.py:23-56 | on every such accepted input with nonzero divisors, the unvalidated scorer returns the validating scorer's score |
| `Agreement.ContributionAgrees` | credit-rating-mock/credit_rating.py:111-112 | such an input adds to the validating rater's totals its unvalidated score and its own credit score |
| `Agreement.TalliesAgree` | credit-rating-graphql/credit_rating_graphql.py:60-61 | on such inputs, the validating rater's running totals equal the unvalidated copy's sums |
| `Agreement.RatersAgree` | credit-rating-graphql/credit_rating_graphql.py:59-77 | on every non-empty list of such inputs, the two raters return the same grade |
| `Agreement.UpperCaseDiverges` | credit-rating-graphql/credit_rating_graphql.py:47-50 | outside validation the copies part: `"FIXED"` is an error for the validating copy and a neutral term for the other |
| `Agreement.ZeroValueDiverges` | credit-rating-graphql/credit_rating_graphql.py:27 | a zero property value is an error for the validating copy and outside the other's domain |

## Left out

- Logging and its configuration, and the catch-log-reraise wrappers of the
  scorer (`credit-rating-mock/credit_rating.py:1-3`, `:91-96`). They do not
  change which value or error comes out.
- `main` and its printed demo (`credit-rating-mock/credit_rating.py:130-158`).
  This is I/O only.
- The GraphQL schema, the FastAPI router and the query resolver
  (`credit-rating-graphql/credit_rating_graphql.py:1-21`, `:79-90`). These are
  framework calls and HTTP routing. The input and result classes are kept as
  datatypes, without the decorators.
- IEEE-754 floating point. Ratios and averages are exact reals, so rounding is
  not modelled. NaN and infinities are not modelled either. A NaN in a
  numeric field other than the credit score would pass the source's `< 0`
  check.
- Python's dynamic typing beyond the `Value` tag: `bool` counting as a number,
  records that are not dictionaries, and list elements that are not
  dictionaries.
- Error messages: each raise site is an `Error` constructor that carries the
  field name and the offending value. The formatted message text is not
  modelled. Every error of the validating engine is the source's `ValueError`.
- `Common.Lower`: models `str.lower()` on ASCII letters only. Full Unicode case
  mapping is not modelled. It is only ever applied to already-validated
  lower-case ASCII strings.
- `Graphql.CalculateRiskScore`: a zero property value or income raises
  `ZeroDivisionError` in the source. The model makes nonzero divisors a
  precondition instead of modelling that exception.
- `Graphql.DetermineRmbsRating`: an empty list raises `ZeroDivisionError` in
  the source. The model makes a non-empty list a precondition instead.
- The query layer's coercion of request values into typed inputs (for
  example, the credit score becoming an `int`) is not modelled. The copy's
  inputs start out typed.
