/**
 * Values, errors and results shared by both copies of the mortgage-pool
 * credit-rating engine.
 */
module Common {

  /** A field value of a raw mortgage record, as far as the engine tells
      values apart: a number (an int or a float), a string, or anything else. */
  datatype Value = Num(x: real) | Str(s: string) | Other

  /** A raw mortgage record: a dictionary from field names to values. */
  type RawMortgage = map<string, Value>

  /** The reason carried by the ValueError the validating engine raises,
      one constructor per raise site. */
  datatype Error =
    | MissingField(field: string)
    | InvalidCreditScore(value: Value)
    | InvalidLoanType(value: Value)
    | InvalidPropertyType(value: Value)
    | InvalidNumber(field: string, value: Value)
    | ZeroPropertyValue
    | ZeroAnnualIncome
    | NotAList
    | EmptyPool

  datatype Option<T> = None | Some(value: T)

  /** A computed value, or the error that was raised instead. */
  datatype Result<T> = Success(value: T) | Failure(error: Error) {
    predicate IsFailure() { Failure? }

    function PropagateFailure<U>(): Result<U>
      requires Failure?
    {
      Failure(error)
    }

    function Extract(): T
      requires Success?
    {
      value
    }
  }

  /** The outcome of a check that returns nothing or raises. */
  datatype Outcome = Pass | Fail(error: Error)

  /** The pool grades, best first. */
  datatype Rating = AAA | BBB | C {
    /** The label the engine returns. */
    function Label(): string {
      match this
      case AAA => "AAA"
      case BBB => "BBB"
      case C => "C"
    }

    /** Position in the order of grades: a larger rank is a worse grade. */
    function Rank(): nat {
      match this
      case AAA => 0
      case BBB => 1
      case C => 2
    }
  }

  /** ASCII lower-casing of one character. */
  function LowerChar(c: char): char {
    if 'A' <= c <= 'Z' then (c as int + 32) as char else c
  }

  predicate IsLowerCase(s: string) {
    forall i :: 0 <= i < |s| ==> !('A' <= s[i] <= 'Z')
  }

  /** `str.lower()` on ASCII text. */
  function Lower(s: string): (r: string)
    ensures |r| == |s|
    ensures IsLowerCase(r)
    ensures IsLowerCase(s) ==> r == s
  {
    seq(|s|, i requires 0 <= i < |s| => LowerChar(s[i]))
  }
}
