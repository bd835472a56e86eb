/** A commission band: a named set of day ranges that maps how many days after (or
    before) the due date a payment arrived to a commission percentage, with the checks
    a band must pass when its ranges are saved. */
module Bands {
  import opened Common
  import opened Ranges
  import opened Sorting

  /** `ranges` is the band's one-to-many in record order (sequence, then day_from). */
  datatype Band = Band(
    id: BandId,
    name: string,
    code: string,
    active: bool,
    company: CompanyId,
    sequence: int,
    currencySpecific: bool,
    currency: Option<Currency>,
    ranges: seq<Range>)

  function DayKey(r: Range): (int, int)
  {
    (r.dayFrom, 0)
  }

  /** `band.range_ids.sorted('day_from')`. */
  function SortedRanges(b: Band): seq<Range>
  {
    Sort(b.ranges, DayKey)
  }

  predicate Covers(r: Range, days: int)
  {
    r.dayFrom <= days <= r.dayTo
  }

  /** How many of the ranges contain the given day. */
  function CoverCount(s: seq<Range>, days: int): nat
  {
    Count(s, r => Covers(r, days))
  }

  predicate AllWellFormed(s: seq<Range>)
  {
    forall i :: 0 <= i < |s| ==> WellFormed(s[i])
  }

  predicate AdjacentDisjoint(s: seq<Range>)
  {
    forall i :: 0 <= i < |s| - 1 ==> s[i].dayTo < s[i + 1].dayFrom
  }

  /** Rejects the band when, in day_from order, some range ends on or after the day the
      next one starts. */
  function CheckRangeOverlap(b: Band): (o: Outcome)
  {
    if AdjacentDisjoint(SortedRanges(b)) then Pass else Fail(RangesOverlap)
  }

  /** Rejects a non-empty band whose first range (in day_from order) starts after day
      -999, or whose last range ends before day 999. Gaps between ranges are not looked at. */
  function CheckRangeCoverage(b: Band): (o: Outcome)
  {
    if b.ranges == [] then Pass
    else
      var s := SortedRanges(b);
      if s[0].dayFrom > -999 then Fail(NoEarlyPaymentCoverage)
      else if s[|s| - 1].dayTo < 999 then Fail(NoLatePaymentCoverage)
      else Pass
  }

  lemma SortedRangesFacts(b: Band)
    ensures |SortedRanges(b)| == |b.ranges|
    ensures forall x :: x in SortedRanges(b) <==> x in b.ranges
    ensures SortedBy(SortedRanges(b), DayKey)
    ensures forall d :: CoverCount(SortedRanges(b), d) == CoverCount(b.ranges, d)
    ensures AllWellFormed(b.ranges) ==> AllWellFormed(SortedRanges(b))
  {
    SortedElements(b.ranges, DayKey);
    SortSorted(b.ranges, DayKey);
    forall d ensures CoverCount(SortedRanges(b), d) == CoverCount(b.ranges, d) {
      CountSort(b.ranges, DayKey, r => Covers(r, d));
    }
    if AllWellFormed(b.ranges) {
      forall i | 0 <= i < |SortedRanges(b)| ensures WellFormed(SortedRanges(b)[i]) {
        assert SortedRanges(b)[i] in b.ranges;
      }
    }
  }

  /** Disjoint neighbours make every earlier range end before every later one starts. */
  lemma {:induction false} DisjointChain(s: seq<Range>, i: int, j: int)
    requires AllWellFormed(s) && AdjacentDisjoint(s)
    requires 0 <= i < j < |s|
    ensures s[i].dayTo < s[j].dayFrom
    decreases j - i
  {
    if i + 1 < j {
      DisjointChain(s, i + 1, j);
    }
  }

  lemma {:induction false} AtMostOneCover(s: seq<Range>, days: int)
    requires AllWellFormed(s) && AdjacentDisjoint(s)
    ensures CoverCount(s, days) <= 1
  {
    if s != [] {
      assert AllWellFormed(s[1..]) && AdjacentDisjoint(s[1..]) by {
        assert forall i :: 0 <= i < |s| - 1 ==> s[1..][i] == s[i + 1];
      }
      AtMostOneCover(s[1..], days);
      if Covers(s[0], days) {
        forall k | 0 <= k < |s[1..]| ensures !Covers(s[1..][k], days) {
          DisjointChain(s, 0, k + 1);
        }
        CountZero(s[1..], r => Covers(r, days));
      }
    }
  }

  /** For well-formed ranges the overlap check passes exactly when no day lies in two
      ranges; so once it passes, at most one range applies to any day. */
  lemma OverlapCheckMeansSingleRange(b: Band)
    requires AllWellFormed(b.ranges)
    ensures CheckRangeOverlap(b) == Pass <==> forall d :: CoverCount(b.ranges, d) <= 1
  {
    SortedRangesFacts(b);
    var s := SortedRanges(b);
    if AdjacentDisjoint(s) {
      forall d ensures CoverCount(b.ranges, d) <= 1 {
        AtMostOneCover(s, d);
      }
    } else {
      var i :| 0 <= i < |s| - 1 && s[i].dayTo >= s[i + 1].dayFrom;
      var d := s[i + 1].dayFrom;
      assert KeyLe(DayKey(s[i]), DayKey(s[i + 1]));
      CountTwo(s, r => Covers(r, d), i, i + 1);
      assert CoverCount(b.ranges, d) >= 2;
    }
  }

  /** With the overlap check passing, the coverage check passes exactly for an empty band
      or one where some range reaches back to day -999 and some range reaches day 999. */
  lemma CoverageCheckMeansBothEnds(b: Band)
    requires AllWellFormed(b.ranges)
    requires CheckRangeOverlap(b) == Pass
    ensures CheckRangeCoverage(b) == Pass <==>
      b.ranges == [] ||
      ((exists r :: r in b.ranges && r.dayFrom <= -999) && (exists r :: r in b.ranges && r.dayTo >= 999))
  {
    if b.ranges != [] {
      EarlyEnd(b);
      LateEnd(b);
    }
  }

  /** The first range in day order starts on or before a day exactly when some range does. */
  lemma EarlyEnd(b: Band)
    requires b.ranges != []
    ensures SortedRanges(b)[0].dayFrom <= -999 <==> exists r :: r in b.ranges && r.dayFrom <= -999
  {
    SortedElements(b.ranges, DayKey);
    assert SortedRanges(b)[0] in b.ranges;
    if r :| r in b.ranges && r.dayFrom <= -999 {
      SortMinimum(b.ranges, DayKey, r);
    }
  }

  /** Without overlaps, the last range in day order ends on or after a day exactly when some
      range does. */
  lemma LateEnd(b: Band)
    requires b.ranges != [] && AllWellFormed(b.ranges) && CheckRangeOverlap(b) == Pass
    ensures SortedRanges(b)[|b.ranges| - 1].dayTo >= 999 <==> exists r :: r in b.ranges && r.dayTo >= 999
  {
    var s := SortedRanges(b);
    SortedElements(b.ranges, DayKey);
    assert s[|s| - 1] in b.ranges;
    if r :| r in b.ranges && r.dayTo >= 999 {
      var k :| 0 <= k < |s| && s[k] == r;
      if k < |s| - 1 {
        SortedRangesWellFormed(b);
        DisjointChain(s, k, |s| - 1);
        assert WellFormed(s[|s| - 1]);
      }
    }
  }

  lemma SortedRangesWellFormed(b: Band)
    requires AllWellFormed(b.ranges)
    ensures AllWellFormed(SortedRanges(b))
  {
    SortedElements(b.ranges, DayKey);
    forall i | 0 <= i < |SortedRanges(b)| ensures WellFormed(SortedRanges(b)[i]) {
      assert SortedRanges(b)[i] in b.ranges;
    }
  }

  /** Only the two ends matter to the coverage check: a band with a hole between its
      ranges passes both checks, and a payment in the hole earns nothing. */
  lemma GapIsAccepted()
    ensures var b := Band(1, "Gap", "GAP", true, 1, 10, false, None,
      [Range(1, "Early", 10, -999, 10, 2.0, 0.0, None, 0.0),
       Range(2, "Late", 10, 20, 999, 1.0, 0.0, None, 0.0)]);
      CheckRangeOverlap(b) == Pass && CheckRangeCoverage(b) == Pass
      && CoverCount(b.ranges, 15) == 0
      && GetCommissionRate(b, 15, 100.0, Some(USD)) == NoRate
  {
    var b := Band(1, "Gap", "GAP", true, 1, 10, false, None,
      [Range(1, "Early", 10, -999, 10, 2.0, 0.0, None, 0.0),
       Range(2, "Late", 10, 20, 999, 1.0, 0.0, None, 0.0)]);
    SortIdentity(b.ranges, DayKey);
    assert b.ranges[1..][1..] == [];
  }

  /** Each range starts the day after its predecessor ends. */
  predicate Contiguous(s: seq<Range>)
  {
    forall i :: 0 <= i < |s| - 1 ==> s[i + 1].dayFrom == s[i].dayTo + 1
  }

  /** Contiguous well-formed ranges partition the days from the first start to the last
      end: each such day lies in exactly one range. */
  lemma {:induction false} ContiguousPartition(s: seq<Range>, days: int)
    requires s != [] && AllWellFormed(s) && Contiguous(s)
    requires s[0].dayFrom <= days <= s[|s| - 1].dayTo
    ensures AdjacentDisjoint(s)
    ensures CoverCount(s, days) == 1
  {
    assert AdjacentDisjoint(s);
    AtMostOneCover(s, days);
    if Covers(s[0], days) {
    } else {
      var t := s[1..];
      assert t != [] && AllWellFormed(t) && Contiguous(t) by {
        assert forall i :: 0 <= i < |s| - 1 ==> t[i] == s[i + 1];
      }
      assert t[|t| - 1] == s[|s| - 1];
      ContiguousPartition(t, days);
    }
  }

  /** A band whose ranges are listed contiguously, in day order, from day -999 or before
      to day 999 or after, passes both checks and has exactly one range for every day
      from -999 to 999. */
  lemma ContiguousBandIsAccepted(b: Band)
    requires b.ranges != [] && AllWellFormed(b.ranges) && Contiguous(b.ranges)
    requires b.ranges[0].dayFrom <= -999 && b.ranges[|b.ranges| - 1].dayTo >= 999
    ensures CheckRangeOverlap(b) == Pass && CheckRangeCoverage(b) == Pass
    ensures forall d :: -999 <= d <= 999 ==> CoverCount(b.ranges, d) == 1
  {
    var s := b.ranges;
    forall i, j | 0 <= i < j < |s| ensures KeyLe(DayKey(s[i]), DayKey(s[j])) {
      ContiguousPartition(s, s[0].dayFrom);
      DisjointChain(s, i, j);
    }
    SortIdentity(s, DayKey);
    forall d | -999 <= d <= 999 ensures CoverCount(s, d) == 1 {
      ContiguousPartition(s, d);
    }
  }

  /** What `get_commission_rate` returns: both rates as fractions and the range used. */
  datatype RateResult = RateResult(commissionRate: real, indicatorRate: real, range: Option<RangeId>)

  const NoRate := RateResult(0.0, 0.0, None)

  predicate Applicable(r: Range, days: int, amount: real, currency: Option<Currency>)
  {
    Covers(r, days)
    && (r.minPaymentAmount == 0.0 || amount >= r.minPaymentAmount)
    && (r.onlyCurrency.None? || r.onlyCurrency == currency)
  }

  /** The first range, in record order, that applies. */
  function FirstApplicable(s: seq<Range>, days: int, amount: real, currency: Option<Currency>): Option<Range>
  {
    if s == [] then None
    else if Applicable(s[0], days, amount, currency) then Some(s[0])
    else FirstApplicable(s[1..], days, amount, currency)
  }

  /** No range is found exactly when none applies; otherwise the one found is the first
    that applies. */
  lemma {:induction false} FirstApplicableSpec(s: seq<Range>, days: int, amount: real, currency: Option<Currency>)
    ensures var o := FirstApplicable(s, days, amount, currency);
      (o.None? <==> forall i :: 0 <= i < |s| ==> !Applicable(s[i], days, amount, currency))
      && (o.Some? ==> exists i :: (0 <= i < |s| && s[i] == o.value && Applicable(s[i], days, amount, currency)
           && forall k :: 0 <= k < i ==> !Applicable(s[k], days, amount, currency)))
  {
    if s != [] && !Applicable(s[0], days, amount, currency) {
      FirstApplicableSpec(s[1..], days, amount, currency);
      assert forall i :: 1 <= i < |s| ==> s[i] == s[1..][i - 1];
      var o := FirstApplicable(s, days, amount, currency);
      if o.Some? {
        var i :| 0 <= i < |s[1..]| && s[1..][i] == o.value && Applicable(s[1..][i], days, amount, currency)
          && forall k :: 0 <= k < i ==> !Applicable(s[1..][k], days, amount, currency);
        assert s[i + 1] == o.value;
      }
    }
  }

  /** A currency-specific band with a currency only serves payments in that currency. */
  predicate CurrencyBlocked(b: Band, currency: Option<Currency>)
  {
    b.currencySpecific && b.currency.Some? && currency != b.currency
  }

  function GetCommissionRate(b: Band, days: int, amount: real, currency: Option<Currency>): (r: RateResult)
  {
    if CurrencyBlocked(b, currency) then NoRate
    else
      match FirstApplicable(b.ranges, days, amount, currency)
      case Some(rr) => RateResult(rr.commissionRate / 100.0, rr.indicatorRate / 100.0, Some(rr.id))
      case None => NoRate
  }

  /** The lookup reports no range exactly when the band refuses the currency or no range
      applies; otherwise it reports the first applicable range in record order, with
      both percentages divided by 100. */
  lemma GetCommissionRateSpec(b: Band, days: int, amount: real, currency: Option<Currency>)
    ensures var r := GetCommissionRate(b, days, amount, currency);
      (r.range.None? <==> (CurrencyBlocked(b, currency)
         || forall i :: 0 <= i < |b.ranges| ==> !Applicable(b.ranges[i], days, amount, currency)))
      && (r.range.None? ==> r == NoRate)
      && (r.range.Some? ==> exists i :: (0 <= i < |b.ranges| && Applicable(b.ranges[i], days, amount, currency)
            && (forall k :: 0 <= k < i ==> !Applicable(b.ranges[k], days, amount, currency))
            && r == RateResult(b.ranges[i].commissionRate / 100.0, b.ranges[i].indicatorRate / 100.0, Some(b.ranges[i].id))))
  {
    FirstApplicableSpec(b.ranges, days, amount, currency);
  }

  /** Once the band's checks pass, the range used is the only range that applies, so
      which applicable range comes first does not matter; and rates are never negative. */
  lemma GetCommissionRateUnique(b: Band, days: int, amount: real, currency: Option<Currency>, i: int)
    requires AllWellFormed(b.ranges) && CheckRangeOverlap(b) == Pass
    requires !CurrencyBlocked(b, currency)
    requires 0 <= i < |b.ranges| && Applicable(b.ranges[i], days, amount, currency)
    ensures GetCommissionRate(b, days, amount, currency) ==
      RateResult(b.ranges[i].commissionRate / 100.0, b.ranges[i].indicatorRate / 100.0, Some(b.ranges[i].id))
  {
    FirstApplicableSpec(b.ranges, days, amount, currency);
    var o := FirstApplicable(b.ranges, days, amount, currency);
    var j :| 0 <= j < |b.ranges| && b.ranges[j] == o.value && Applicable(b.ranges[j], days, amount, currency)
      && forall k :: 0 <= k < j ==> !Applicable(b.ranges[k], days, amount, currency);
    if j != i {
      assert j < i;
      OverlapCheckMeansSingleRange(b);
      CoverCountTwo(b.ranges, days, j, i);
      assert false;
    }
  }

  lemma CoverCountTwo(s: seq<Range>, days: int, i: int, j: int)
    requires 0 <= i < j < |s| && Covers(s[i], days) && Covers(s[j], days)
    ensures CoverCount(s, days) >= 2
  {
    CountTwo(s, r => Covers(r, days), i, j);
  }

  lemma GetCommissionRateNonNegative(b: Band, days: int, amount: real, currency: Option<Currency>)
    requires AllWellFormed(b.ranges)
    ensures GetCommissionRate(b, days, amount, currency).commissionRate >= 0.0
    ensures GetCommissionRate(b, days, amount, currency).indicatorRate >= 0.0
  {
    FirstApplicableSpec(b.ranges, days, amount, currency);
  }

  /** `[code] name`, followed by the currency name for a currency-specific band. */
  function DisplayName(b: Band): (s: string)
  {
    "[" + b.code + "] " + b.name + (if b.currencySpecific && b.currency.Some? then " (" + b.currency.value + ")" else "")
  }

  lemma DisplayNameShape(b: Band)
    ensures var prefix := "[" + b.code + "] " + b.name;
      if b.currencySpecific && b.currency.Some? then DisplayName(b) == prefix + " (" + b.currency.value + ")"
      else DisplayName(b) == prefix
  {
  }

  /** `copy`: the band under a new id, its name with " (copy)" and its code with "_COPY"
      appended, and its ranges duplicated under the ids the database hands out. */
  function Copy(b: Band, newId: BandId, newRangeId: RangeId -> RangeId): (c: Band)
  {
    b.(id := newId, name := b.name + " (copy)", code := b.code + "_COPY",
       ranges := Map(b.ranges, CopyRange(newRangeId)))
  }

  /** A range duplicated under the id the database hands out for it. */
  function CopyRange(newRangeId: RangeId -> RangeId): Range -> Range
  {
    (r: Range) => r.(id := newRangeId(r.id))
  }

  /** The copy's ranges in day order are the original's, renumbered. */
  lemma CopySortedRanges(b: Band, newId: BandId, newRangeId: RangeId -> RangeId)
    ensures var t := SortedRanges(b); var u := SortedRanges(Copy(b, newId, newRangeId));
      |u| == |t| && forall i :: 0 <= i < |t| ==> u[i].dayFrom == t[i].dayFrom && u[i].dayTo == t[i].dayTo
  {
    SortMap(b.ranges, DayKey, CopyRange(newRangeId));
    var t := SortedRanges(b);
    assert SortedRanges(Copy(b, newId, newRangeId)) == Map(t, CopyRange(newRangeId));
  }

  lemma CopyOverlap(b: Band, newId: BandId, newRangeId: RangeId -> RangeId)
    ensures CheckRangeOverlap(Copy(b, newId, newRangeId)) == CheckRangeOverlap(b)
  {
    CopySortedRanges(b, newId, newRangeId);
    var t := SortedRanges(b);
    var u := SortedRanges(Copy(b, newId, newRangeId));
    assert AdjacentDisjoint(u) <==> AdjacentDisjoint(t);
  }

  lemma CopyCoverage(b: Band, newId: BandId, newRangeId: RangeId -> RangeId)
    ensures CheckRangeCoverage(Copy(b, newId, newRangeId)) == CheckRangeCoverage(b)
  {
    var c := Copy(b, newId, newRangeId);
    CopySortedRanges(b, newId, newRangeId);
    if b.ranges != [] {
      var t := SortedRanges(b);
      var u := SortedRanges(c);
      assert |t| == |b.ranges| == |c.ranges|;
      assert u[0].dayFrom == t[0].dayFrom && u[|u| - 1].dayTo == t[|t| - 1].dayTo;
    }
  }

  /** The copy has a different name and code from its original and passes the same
      checks. */
  lemma CopyChecks(b: Band, newId: BandId, newRangeId: RangeId -> RangeId)
    ensures var c := Copy(b, newId, newRangeId);
      c.name != b.name && c.code != b.code && c.company == b.company
      && CheckRangeOverlap(c) == CheckRangeOverlap(b)
      && CheckRangeCoverage(c) == CheckRangeCoverage(b)
  {
    var c := Copy(b, newId, newRangeId);
    assert |c.name| != |b.name| && |c.code| != |b.code|;
    CopyOverlap(b, newId, newRangeId);
    CopyCoverage(b, newId, newRangeId);
  }

  /** The copy charges the same rates for every payment. */
  lemma CopyRates(b: Band, newId: BandId, newRangeId: RangeId -> RangeId, days: int, amount: real, currency: Option<Currency>)
    ensures var c := Copy(b, newId, newRangeId);
      GetCommissionRate(c, days, amount, currency).commissionRate == GetCommissionRate(b, days, amount, currency).commissionRate
      && GetCommissionRate(c, days, amount, currency).indicatorRate == GetCommissionRate(b, days, amount, currency).indicatorRate
  {
    var c := Copy(b, newId, newRangeId);
    RenumberedRates(b, c, newRangeId, days, amount, currency);
  }

  /** A band whose ranges are another's renumbered, under the same currency settings,
    gives the same rates. */
  lemma RenumberedRates(b: Band, c: Band, newRangeId: RangeId -> RangeId, days: int, amount: real, currency: Option<Currency>)
    requires c.currencySpecific == b.currencySpecific && c.currency == b.currency
    requires c.ranges == Map(b.ranges, CopyRange(newRangeId))
    ensures GetCommissionRate(c, days, amount, currency).commissionRate == GetCommissionRate(b, days, amount, currency).commissionRate
    ensures GetCommissionRate(c, days, amount, currency).indicatorRate == GetCommissionRate(b, days, amount, currency).indicatorRate
  {
    CopyFirstApplicable(b.ranges, newRangeId, days, amount, currency);
  }

  lemma {:induction false} CopyFirstApplicable(s: seq<Range>, newRangeId: RangeId -> RangeId, days: int, amount: real, currency: Option<Currency>)
    ensures var o := FirstApplicable(s, days, amount, currency);
      var oc := FirstApplicable(Map(s, CopyRange(newRangeId)), days, amount, currency);
      oc.Some? == o.Some? && (o.Some? ==> oc.value == o.value.(id := newRangeId(o.value.id)))
  {
    if s != [] {
      var m := Map(s, CopyRange(newRangeId));
      assert m == [CopyRange(newRangeId)(s[0])] + Map(s[1..], CopyRange(newRangeId));
      assert m[1..] == Map(s[1..], CopyRange(newRangeId));
      assert Applicable(m[0], days, amount, currency) <==> Applicable(s[0], days, amount, currency);
      CopyFirstApplicable(s[1..], newRangeId, days, amount, currency);
    }
  }

  /** The first range constraint that fails, in list order. */
  function CheckRanges(s: seq<Range>): (o: Outcome)
    ensures o == Pass <==> AllWellFormed(s)
  {
    if s == [] then Pass
    else
      CheckRangeAccepts(s[0]);
      if CheckRange(s[0]).Fail? then CheckRange(s[0])
      else
        var o := CheckRanges(s[1..]);
        assert forall i :: 1 <= i < |s| ==> s[i] == s[1..][i - 1];
        o
  }

  /** Every constraint on a band and its ranges: the ranges' own checks, then the
      coverage check, then the overlap check (Odoo runs constraint methods by name). */
  function CheckBand(b: Band): (o: Outcome)
  {
    if CheckRanges(b.ranges).Fail? then CheckRanges(b.ranges)
    else if CheckRangeCoverage(b).Fail? then CheckRangeCoverage(b)
    else CheckRangeOverlap(b)
  }

  /** An accepted band has well-formed ranges, no day in two ranges, and ranges reaching
      day -999 and day 999 unless it has none. */
  lemma CheckBandAccepts(b: Band)
    requires CheckBand(b) == Pass
    ensures AllWellFormed(b.ranges)
    ensures forall d :: CoverCount(b.ranges, d) <= 1
    ensures b.ranges != [] ==>
      (exists r :: r in b.ranges && r.dayFrom <= -999) && (exists r :: r in b.ranges && r.dayTo >= 999)
  {
    OverlapCheckMeansSingleRange(b);
    CoverageCheckMeansBothEnds(b);
  }

  /** The `unique(code, company_id)` and `unique(name, company_id)` constraints. */
  predicate UniquePerCompany(bands: seq<Band>)
  {
    forall i, j :: 0 <= i < j < |bands| && bands[i].company == bands[j].company ==>
      bands[i].code != bands[j].code && bands[i].name != bands[j].name
  }

  /** The checks for inserting `b` next to `bands`: the SQL uniqueness constraints first,
      then the band's own constraints. */
  function CheckNewBand(bands: seq<Band>, b: Band): (o: Outcome)
  {
    if exists i :: 0 <= i < |bands| && bands[i].company == b.company && bands[i].code == b.code then Fail(DuplicateBandCode)
    else if exists i :: 0 <= i < |bands| && bands[i].company == b.company && bands[i].name == b.name then Fail(DuplicateBandName)
    else CheckBand(b)
  }

  /** The checks do not look at the id the band is stored under. */
  lemma CheckNewBandIgnoresId(bands: seq<Band>, b: Band, id: BandId)
    ensures CheckNewBand(bands, b.(id := id)) == CheckNewBand(bands, b)
  {
    var stored := b.(id := id);
    assert SortedRanges(stored) == SortedRanges(b);
    assert CheckBand(stored) == CheckBand(b);
  }

  /** An accepted band keeps the table unique per company. */
  lemma CheckNewBandKeepsUnique(bands: seq<Band>, b: Band)
    requires UniquePerCompany(bands)
    requires CheckNewBand(bands, b) == Pass
    ensures UniquePerCompany(bands + [b])
  {
    var t := bands + [b];
    forall i, j | 0 <= i < j < |t| && t[i].company == t[j].company
      ensures t[i].code != t[j].code && t[i].name != t[j].name
    {
      if j == |bands| {
        assert t[i] == bands[i];
      }
    }
  }

  /** Copying the same band a second time in one company is refused: the first copy
      already holds the code with "_COPY" appended. */
  lemma SecondCopyRefused(bands: seq<Band>, b: Band, id1: BandId, id2: BandId, f1: RangeId -> RangeId, f2: RangeId -> RangeId)
    ensures CheckNewBand(bands + [Copy(b, id1, f1)], Copy(b, id2, f2)) == Fail(DuplicateBandCode)
  {
    var t := bands + [Copy(b, id1, f1)];
    assert t[|bands|].company == b.company && t[|bands|].code == b.code + "_COPY";
  }

  /** The bands of the database, a band's id being its position. */
  class BandTable {
    var bands: seq<Band>

    ghost predicate Valid()
      reads this
    {
      (forall i :: 0 <= i < |bands| ==> bands[i].id == i)
      && UniquePerCompany(bands)
      && (forall i :: 0 <= i < |bands| ==> CheckBand(bands[i]) == Pass)
    }

    constructor()
      ensures Valid() && bands == []
    {
      bands := [];
    }

    /** `create`: stores the band under the next id, or refuses it and changes nothing. */
    method Create(b: Band) returns (r: Result<BandId>)
      requires Valid()
      modifies this
      ensures Valid()
      ensures CheckNewBand(old(bands), b) == Pass ==> r == Ok(|old(bands)|) && bands == old(bands) + [b.(id := |old(bands)|)]
      ensures CheckNewBand(old(bands), b).Fail? ==> r == Err(CheckNewBand(old(bands), b).error) && bands == old(bands)
    {
      var id := |bands|;
      var stored := b.(id := id);
      CheckNewBandIgnoresId(bands, b, id);
      var check := CheckNewBand(bands, stored);
      if check.Fail? {
        return Err(check.error);
      }
      CheckNewBandKeepsUnique(bands, stored);
      bands := bands + [stored];
      r := Ok(id);
    }

    /** `copy`: creates the renamed duplicate of an existing band. */
    method CopyBand(id: BandId, newRangeId: RangeId -> RangeId) returns (r: Result<BandId>)
      requires Valid() && id < |bands|
      modifies this
      ensures Valid()
      ensures var c := Copy(old(bands)[id], |old(bands)|, newRangeId);
        (CheckNewBand(old(bands), c) == Pass ==> r == Ok(|old(bands)|) && bands == old(bands) + [c])
        && (CheckNewBand(old(bands), c).Fail? ==> r.Err? && bands == old(bands))
    {
      var c := Copy(bands[id], |bands|, newRangeId);
      r := Create(c);
    }
  }
}
