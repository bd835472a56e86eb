/** Shared vocabulary of the commission engine: optional values, results and the
    errors the source raises, identifiers, currencies, and small sequence and string
    helpers used by every other module. */
module Common {

  datatype Option<+T> = None | Some(value: T)

  /** The error a source operation raises (a ValidationError or a UserError there); an
      operation that fails leaves every record as it was (the transaction rolls back). */
  datatype Error =
    // commission ranges
    | DayFromAfterDayTo | NegativeCommissionRate | NegativeIndicatorRate
    // commission bands
    | RangesOverlap | NoEarlyPaymentCoverage | NoLatePaymentCoverage
    | DuplicateBandCode | DuplicateBandName
    // commission rules
    | MissingBand | MissingFixedAmount | MissingPercentageRate
    | RuleDatesInverted | RuleAmountsInverted | DuplicateRuleCode
    // salesperson configurations
    | MissingOverridePercentage | MissingOverrideFixedAmount | MissingOverrideBand
    | CommissionLimitsInverted | DuplicateConfig
    // commission calculations
    | NegativeCommissionAmount | NonPositivePaymentAmount
    | OnlyCalculatedCanBeValidated | BatchNotOpenForValidation | PaymentNotReconciled
    | CommissionNotActive | OnlyValidatedCanBeApproved | OnlyApprovedCanBePaid
    | CannotCancelPaid | CannotResetPaid | BatchLocked
    // commission batches
    | BatchDatesInverted | BatchPeriodOverlap | OnlyDraftCanBeCalculated
    | NoCalculationsInPeriod | OnlyCalculatedCanBeReviewed | EmptyBatch
    | OnlyReviewedCanGenerate | MissingPaymentDate | OnlyPaymentGeneratedCanBePaid
    | CannotResetPaidBatch
    // payment documents
    | LinesAlreadyGenerated | OnlyDraftCanBeConfirmed | NoPaymentLines
    | OnlyConfirmedCanBePaid
    // batch creation wizard
    | WizardDatesInverted | UndefinedNameValidationError | BatchExistsForPeriod
    | NoCalculationsForCriteria
    // calendar arithmetic outside the supported years 1..9999
    | DateOutOfRange

  datatype Result<+T> = Ok(value: T) | Err(error: Error)

  /** A result for operations that return nothing on success. */
  datatype Outcome = Pass | Fail(error: Error)

  type CompanyId = nat
  type UserId = nat
  type TeamId = nat
  type PartnerId = nat
  type ProductId = nat
  type CategoryId = nat
  type TermId = nat
  type JournalId = nat
  type BandId = nat
  type RangeId = nat
  type RuleId = nat
  type ConfigId = nat
  type PaymentId = nat
  type InvoiceId = nat
  type CalcId = nat
  type BatchId = nat
  type DocId = nat

  /** A currency is identified by its ISO name, as the source compares `currency_id.name`. */
  type Currency = string
  const USD: Currency := "USD"
  const VES: Currency := "VES"

  function Sum(s: seq<real>): (r: real)
  {
    if s == [] then 0.0 else Sum(s[..|s| - 1]) + s[|s| - 1]
  }

  lemma {:induction false} SumAppend(s: seq<real>, t: seq<real>)
    ensures Sum(s + t) == Sum(s) + Sum(t)
  {
    if t == [] {
      assert s + t == s;
    } else {
      assert (s + t)[..|s + t| - 1] == s + t[..|t| - 1];
      SumAppend(s, t[..|t| - 1]);
    }
  }

  lemma {:induction false} SumNonNegative(s: seq<real>)
    requires forall i :: 0 <= i < |s| ==> s[i] >= 0.0
    ensures Sum(s) >= 0.0
  {
    if s != [] {
      SumNonNegative(s[..|s| - 1]);
    }
  }

  /** The elements of `s` without repetition, in order of first appearance. */
  function Distinct<T(==,!new)>(s: seq<T>): (r: seq<T>)
    ensures forall x :: x in r <==> x in s
    ensures forall i, j :: 0 <= i < j < |r| ==> r[i] != r[j]
  {
    if s == [] then []
    else
      var d := Distinct(s[..|s| - 1]);
      if s[|s| - 1] in d then d else d + [s[|s| - 1]]
  }

  predicate NoDuplicates<T(==)>(s: seq<T>)
  {
    forall i, j :: 0 <= i < j < |s| ==> s[i] != s[j]
  }

  /** Python's `sub in s` for strings. */
  predicate IsSubstring(sub: string, s: string)
    decreases |s|
  {
    (|sub| <= |s| && s[..|sub|] == sub) || (|s| > 0 && IsSubstring(sub, s[1..]))
  }

  function DigitChar(d: nat): (c: char)
    requires d < 10
  {
    "0123456789"[d]
  }

  /** Decimal rendering of a natural number, as Python's `str` gives it. */
  function NatToString(n: nat): (r: string)
    ensures |r| >= 1
    ensures forall i :: 0 <= i < |r| ==> '0' <= r[i] <= '9'
    decreases n
  {
    if n < 10 then [DigitChar(n)] else NatToString(n / 10) + [DigitChar(n % 10)]
  }

  predicate AllDigits(s: string)
  {
    forall i :: 0 <= i < |s| ==> '0' <= s[i] <= '9'
  }

  /** The number a string of decimal digits denotes (`int(s)` on digits). */
  function DigitsValue(s: string): nat
    requires AllDigits(s)
  {
    if s == [] then 0
    else DigitsValue(s[..|s| - 1]) * 10 + ((s[|s| - 1] as int - '0' as int) as nat)
  }

  lemma DigitCharValue(d: nat)
    requires d < 10
    ensures DigitChar(d) as int - '0' as int == d
  {
  }

  lemma DigitsValueAppend(s: string, d: nat)
    requires AllDigits(s) && d < 10
    ensures AllDigits(s + [DigitChar(d)]) && DigitsValue(s + [DigitChar(d)]) == DigitsValue(s) * 10 + d
  {
    DigitCharValue(d);
    assert (s + [DigitChar(d)])[..|s|] == s;
  }

  /** Reading back the decimal rendering of a number gives the number; the rendering
      has no leading zero. */
  lemma {:induction false} NatToStringValue(n: nat)
    ensures AllDigits(NatToString(n)) && DigitsValue(NatToString(n)) == n
    ensures |NatToString(n)| > 1 ==> NatToString(n)[0] != '0'
    decreases n
  {
    if n < 10 {
      DigitCharValue(n);
      assert DigitsValue(NatToString(n)) == DigitsValue([]) * 10 + n;
    } else {
      NatToStringValue(n / 10);
      DigitsValueAppend(NatToString(n / 10), n % 10);
      if |NatToString(n / 10)| == 1 {
        assert n / 10 < 10;
        assert NatToString(n / 10)[0] == DigitChar(n / 10);
      }
    }
  }

  function IntToString(n: int): (r: string)
    ensures |r| >= 1
  {
    if n < 0 then "-" + NatToString(-n) else NatToString(n)
  }
}
