/** A commission range: one row of a band, giving the commission and indicator
    percentages for payments whose days-overdue count falls between `dayFrom` and
    `dayTo`, optionally only in one currency and only above a minimum amount. */
module Ranges {
  import opened Common

  datatype Range = Range(
    id: RangeId,
    name: string,              // "" when the description is not set
    sequence: int,
    dayFrom: int,
    dayTo: int,
    commissionRate: real,      // a percentage: 2.5 means 2.5 %
    indicatorRate: real,
    onlyCurrency: Option<Currency>,
    minPaymentAmount: real)    // 0.0 when not set

  /** The three field constraints of a range, in the order Odoo runs them (by method
      name): the commission rate, then the day range, then the indicator rate. */
  function CheckRange(r: Range): (o: Outcome)
  {
    if r.commissionRate < 0.0 then Fail(NegativeCommissionRate)
    else if r.dayFrom > r.dayTo then Fail(DayFromAfterDayTo)
    else if r.indicatorRate < 0.0 then Fail(NegativeIndicatorRate)
    else Pass
  }

  /** A range every constraint accepts. */
  predicate WellFormed(r: Range)
  {
    r.dayFrom <= r.dayTo && r.commissionRate >= 0.0 && r.indicatorRate >= 0.0
  }

  lemma CheckRangeAccepts(r: Range)
    ensures CheckRange(r) == Pass <==> WellFormed(r)
    ensures CheckRange(r) == Fail(DayFromAfterDayTo) ==> r.dayFrom > r.dayTo
    ensures CheckRange(r) == Fail(NegativeCommissionRate) ==> r.commissionRate < 0.0
    ensures CheckRange(r) == Fail(NegativeIndicatorRate) ==> r.indicatorRate < 0.0
  {
  }

  /** The description part of the display name. */
  function Label(r: Range): (s: string)
  {
    if r.name != "" then r.name
    else if r.dayFrom <= -999 then "Up to " + IntToString(r.dayTo) + " days"
    else if r.dayTo >= 999 then "From " + IntToString(r.dayFrom) + " days onwards"
    else IntToString(r.dayFrom) + " to " + IntToString(r.dayTo) + " days"
  }

  /** `"%.2f" % x` on the exact value, rounding halves upwards in magnitude. */
  function TwoDecimals(x: real): (s: string)
    ensures |s| >= 4
  {
    if x < 0.0 then "-" + UnsignedTwoDecimals(-x) else UnsignedTwoDecimals(x)
  }

  function UnsignedTwoDecimals(x: real): (s: string)
    requires x >= 0.0
    ensures |s| >= 4
  {
    CentsText((x * 100.0 + 0.5).Floor)
  }

  /** A number of hundredths written as units, a point and two digits. */
  function CentsText(cents: nat): string
  {
    NatToString(cents / 100) + "." + [DigitChar(cents % 100 / 10), DigitChar(cents % 10)]
  }

  /** The stored display name: the label followed by " (<rate to two decimals>%)". */
  function DisplayName(r: Range): (s: string)
  {
    Label(r) + " (" + TwoDecimals(r.commissionRate) + "%)"
  }

  /** The display name begins with the explicit name when there is one, otherwise with
      the phrase chosen by how far the range reaches, and it always ends with the rate. */
  lemma DisplayNameShape(r: Range)
    ensures var s := DisplayName(r); var suffix := " (" + TwoDecimals(r.commissionRate) + "%)";
      |s| >= |suffix| && s[|s| - |suffix|..] == suffix
    ensures r.name != "" ==> DisplayName(r)[..|r.name|] == r.name
    ensures r.name == "" && r.dayFrom <= -999 ==> DisplayName(r)[..6] == "Up to "
    ensures r.name == "" && r.dayFrom > -999 && r.dayTo >= 999 ==> DisplayName(r)[..5] == "From "
  {
    var s := DisplayName(r);
    var suffix := " (" + TwoDecimals(r.commissionRate) + "%)";
    assert s == Label(r) + suffix;
    assert s[|s| - |suffix|..] == suffix;
    if r.name != "" {
      assert s[..|r.name|] == r.name;
    } else if r.dayFrom <= -999 {
      assert s[..6] == "Up to ";
    } else if r.dayTo >= 999 {
      assert s[..5] == "From ";
    }
  }

  lemma CentsDigits(cents: nat)
    ensures cents == (cents / 100) * 100 + (cents % 100 / 10) * 10 + cents % 10
  {
  }

  /** The text of a number of hundredths reads back, without its point, as that number. */
  lemma CentsTextValue(cents: nat)
    ensures var u := CentsText(cents); var whole := u[..|u| - 3]; var frac := u[|u| - 2..];
      |u| >= 4 && u[|u| - 3] == '.' && AllDigits(whole) && AllDigits(frac) && (|whole| > 1 ==> whole[0] != '0')
      && whole == NatToString(cents / 100) && DigitsValue(whole + frac) == cents
  {
    var w := NatToString(cents / 100);
    var d1 := DigitChar(cents % 100 / 10);
    var d2 := DigitChar(cents % 10);
    var u := CentsText(cents);
    assert u == w + "." + [d1, d2];
    assert u[..|u| - 3] == w;
    assert u[|u| - 2..] == [d1, d2];
    NatToStringValue(cents / 100);
    DigitsValueAppend(w, cents % 100 / 10);
    DigitsValueAppend(w + [d1], cents % 10);
    assert w + [d1, d2] == w + [d1] + [d2];
    CentsDigits(cents);
  }

  /** The hundredths taken are the ones nearest to the value, halves rounded up. */
  lemma CentsNearest(x: real)
    requires x >= 0.0
    ensures var cents := (x * 100.0 + 0.5).Floor; (cents as real) - 0.5 <= x * 100.0 < (cents as real) + 0.5
  {
  }

  /** The unsigned rendering is a whole part without leading zeros, a point and two
      digits, and the digits read without the point are the number of hundredths nearest
      to the value, halves rounded up. */
  lemma UnsignedTwoDecimalsFacts(x: real)
    requires x >= 0.0
    ensures var u := UnsignedTwoDecimals(x); var whole := u[..|u| - 3]; var frac := u[|u| - 2..];
      u[|u| - 3] == '.' && AllDigits(whole) && AllDigits(frac) && (|whole| > 1 ==> whole[0] != '0')
      && (DigitsValue(whole + frac) as real) - 0.5 <= x * 100.0 < (DigitsValue(whole + frac) as real) + 0.5
  {
    CentsNearest(x);
    CentsTextValue((x * 100.0 + 0.5).Floor);
  }

  /** `"%.2f"` keeps the sign: a minus sign exactly for a negative value, followed by the
      rendering of its magnitude. */
  lemma TwoDecimalsFacts(x: real)
    ensures var s := TwoDecimals(x); var a := if x < 0.0 then -x else x;
      (s[0] == '-' <==> x < 0.0) && s == (if x < 0.0 then "-" else "") + UnsignedTwoDecimals(a)
  {
    if x >= 0.0 {
      UnsignedTwoDecimalsFacts(x);
      var u := UnsignedTwoDecimals(x);
      assert u[0] != '-' by {
        if |u[..|u| - 3]| > 0 {
          assert u[0] == u[..|u| - 3][0];
        }
      }
    }
  }

  lemma TwoDecimalsExamples()
    ensures TwoDecimals(2.8) == "2.80"
    ensures TwoDecimals(0.75) == "0.75"
    ensures TwoDecimals(12.345) == "12.35"
  {
    assert (2.8 * 100.0 + 0.5).Floor == 280;
    assert (0.75 * 100.0 + 0.5).Floor == 75;
    assert (12.345 * 100.0 + 0.5).Floor == 1235;
    assert NatToString(12) == NatToString(1) + [DigitChar(2)];
  }

  /** The colour index shown for a range: green (10) from 3 %, yellow (3) from 2 %,
      orange (2) from 1 %, red (1) below. */
  function Color(rate: real): (c: int)
  {
    if rate >= 3.0 then 10 else if rate >= 2.0 then 3 else if rate >= 1.0 then 2 else 1
  }

  /** A higher rate never gets a lower colour index, and only the four indexes occur. */
  lemma ColorMonotone(a: real, b: real)
    requires a <= b
    ensures Color(a) <= Color(b)
    ensures Color(a) in {1, 2, 3, 10}
    ensures Color(a) == 10 <==> a >= 3.0
    ensures Color(a) == 1 <==> a < 1.0
  {
  }

  /** The description the form proposes when the days change: the given name is kept;
      an empty one is derived from where the range starts and whether it covers day 0. */
  function AutoName(name: string, dayFrom: int, dayTo: int): (s: string)
  {
    if name != "" then name
    else if dayFrom <= -100 then "Early payment"
    else if dayFrom <= 0 && dayTo >= 0 then "On time"
    else if dayFrom <= 30 then "Minor delay"
    else if dayFrom <= 60 then "Moderate delay"
    else if dayFrom <= 120 then "Major delay"
    else "Critical delay"
  }

  /** The day-change handler applied to a range: only the name may change. */
  function OnchangeDays(r: Range): (r': Range)
    ensures r' == r.(name := r'.name)
    ensures r'.name != ""
  {
    r.(name := AutoName(r.name, r.dayFrom, r.dayTo))
  }

  /** A name that is set survives the handler, and applying it again changes nothing. */
  lemma OnchangeDaysKeepsName(r: Range)
    ensures r.name != "" ==> OnchangeDays(r) == r
    ensures OnchangeDays(OnchangeDays(r)) == OnchangeDays(r)
    ensures r.name == "" && -99 <= r.dayFrom <= 0 <= r.dayTo ==> OnchangeDays(r).name == "On time"
    ensures r.name == "" && 0 < r.dayFrom <= 30 ==> OnchangeDays(r).name == "Minor delay"
    ensures r.name == "" && r.dayFrom > 120 ==> OnchangeDays(r).name == "Critical delay"
  {
  }

  /** One entry of the conditions list in a range's commission information. */
  datatype Condition = OnlyFor(currency: Currency) | MinimumAmount(amount: real)

  datatype RangeInfo = RangeInfo(
    rangeName: string,
    commissionRate: real,
    indicatorRate: real,
    conditions: seq<Condition>)

  function CurrencyConditions(r: Range): seq<Condition>
  {
    match r.onlyCurrency
    case Some(c) => [OnlyFor(c)]
    case None => []
  }

  function AmountConditions(r: Range): seq<Condition>
  {
    if r.minPaymentAmount != 0.0 then [MinimumAmount(r.minPaymentAmount)] else []
  }

  /** `get_commission_info`: the display name, the two rates and the conditions. */
  function CommissionInfo(r: Range): (info: RangeInfo)
    ensures info.rangeName == DisplayName(r)
    ensures info.commissionRate == r.commissionRate && info.indicatorRate == r.indicatorRate
  {
    RangeInfo(DisplayName(r), r.commissionRate, r.indicatorRate, CurrencyConditions(r) + AmountConditions(r))
  }

  /** The conditions list has a currency entry exactly when the range is restricted to a
      currency, a minimum-amount entry exactly when a minimum is set, and the currency
      entry comes first. */
  lemma CommissionInfoConditions(r: Range)
    ensures var cs := CommissionInfo(r).conditions;
      |cs| == (if r.onlyCurrency.Some? then 1 else 0) + (if r.minPaymentAmount != 0.0 then 1 else 0)
      && ((exists c :: OnlyFor(c) in cs) <==> r.onlyCurrency.Some?)
      && ((exists a :: MinimumAmount(a) in cs) <==> r.minPaymentAmount != 0.0)
      && (r.onlyCurrency.Some? ==> cs[0] == OnlyFor(r.onlyCurrency.value))
      && (r.minPaymentAmount != 0.0 ==> cs[|cs| - 1] == MinimumAmount(r.minPaymentAmount))
  {
    var cs := CommissionInfo(r).conditions;
    if r.onlyCurrency.Some? {
      assert OnlyFor(r.onlyCurrency.value) in cs;
    }
    if r.minPaymentAmount != 0.0 {
      assert MinimumAmount(r.minPaymentAmount) in cs;
    }
  }
}
