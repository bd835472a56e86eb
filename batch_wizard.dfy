/** The batch creation wizard (`commission.batch.create.wizard`): a period picked by month
    or by hand, a preview of the calculations it would take, and the creation of a
    calculated batch. */
module BatchCreation {
  import opened Common
  import opened Dates
  import opened Records
  import opened Calculations
  import opened Batches

  datatype PeriodType = MonthPeriod | CustomPeriod

  // ---------------------------------------------------------------------------------
  // Preview (`_compute_preview`)

  /** The preview's domain: unassigned calculations of the company paid in the window, in
      `calculated` state or in a state whose flag is set. */
  predicate PreviewSelects(c: Calculation, from: Date, to: Date, company: CompanyId, withValidated: bool, withApproved: bool)
  {
    c.paymentDate.Some? && InWindow(c.paymentDate.value, from, to) && c.batch.None? && c.company == company
    && (c.state == Calculated || (withValidated && c.state == Validated) || (withApproved && c.state == Approved))
  }

  datatype Preview = Preview(count: nat, salespersons: nat, total: real)

  function PreviewCount(cs: seq<Calculation>, from: Date, to: Date, company: CompanyId, v: bool, a: bool): nat
  {
    if cs == [] then 0
    else PreviewCount(cs[..|cs| - 1], from, to, company, v, a) + (if PreviewSelects(cs[|cs| - 1], from, to, company, v, a) then 1 else 0)
  }

  function PreviewSalespersons(cs: seq<Calculation>, from: Date, to: Date, company: CompanyId, v: bool, a: bool): (r: seq<UserId>)
    ensures |r| == PreviewCount(cs, from, to, company, v, a)
  {
    if cs == [] then []
    else
      var c := cs[|cs| - 1];
      PreviewSalespersons(cs[..|cs| - 1], from, to, company, v, a) + (if PreviewSelects(c, from, to, company, v, a) then [c.salesperson] else [])
  }

  function PreviewTotal(cs: seq<Calculation>, from: Date, to: Date, company: CompanyId, v: bool, a: bool, rate: RateService): real
  {
    if cs == [] then 0.0
    else
      var c := cs[|cs| - 1];
      PreviewTotal(cs[..|cs| - 1], from, to, company, v, a, rate)
      + (if PreviewSelects(c, from, to, company, v, a) then CommissionAmountCompany(c, rate) else 0.0)
  }

  /** The preview, all zero while a date is missing. */
  function PreviewOf(cs: seq<Calculation>, from: Option<Date>, to: Option<Date>, company: CompanyId, v: bool, a: bool, rate: RateService): Preview
  {
    if from.Some? && to.Some? then
      Preview(PreviewCount(cs, from.value, to.value, company, v, a),
              |Distinct(PreviewSalespersons(cs, from.value, to.value, company, v, a))|,
              PreviewTotal(cs, from.value, to.value, company, v, a, rate))
    else Preview(0, 0, 0.0)
  }

  /** The count is positive exactly when some calculation is selected. */
  lemma {:induction false} PreviewCountPositive(cs: seq<Calculation>, from: Date, to: Date, company: CompanyId, v: bool, a: bool)
    ensures PreviewCount(cs, from, to, company, v, a) > 0 <==> exists j :: 0 <= j < |cs| && PreviewSelects(cs[j], from, to, company, v, a)
  {
    if cs != [] {
      var init := cs[..|cs| - 1];
      PreviewCountPositive(init, from, to, company, v, a);
      assert forall j :: 0 <= j < |init| ==> init[j] == cs[j];
    }
  }

  /** Setting a flag never lowers the count, and never more salespersons than
      calculations. */
  lemma {:induction false} PreviewFacts(cs: seq<Calculation>, from: Date, to: Date, company: CompanyId, v: bool, a: bool)
    ensures PreviewCount(cs, from, to, company, false, false) <= PreviewCount(cs, from, to, company, v, a)
    ensures |Distinct(PreviewSalespersons(cs, from, to, company, v, a))| <= PreviewCount(cs, from, to, company, v, a)
  {
    DistinctNoLonger(PreviewSalespersons(cs, from, to, company, v, a));
    if cs != [] {
      PreviewFacts(cs[..|cs| - 1], from, to, company, v, a);
    }
  }

  /** Without foreign-currency calculations the total is the plain sum of commissions. */
  lemma {:induction false} PreviewTotalSameCurrency(cs: seq<Calculation>, from: Date, to: Date, company: CompanyId, v: bool, a: bool,
                                                    r1: RateService, r2: RateService)
    requires forall j :: 0 <= j < |cs| ==> cs[j].currency == cs[j].companyCurrency
    ensures PreviewTotal(cs, from, to, company, v, a, r1) == PreviewTotal(cs, from, to, company, v, a, r2)
  {
    if cs != [] {
      var init := cs[..|cs| - 1];
      assert forall j :: 0 <= j < |init| ==> init[j] == cs[j];
      PreviewTotalSameCurrency(init, from, to, company, v, a, r1, r2);
    }
  }

  /** Whatever the preview counts `action_calculate` takes into a batch of that window and
      company, and it also takes validated or approved calculations whose flag is off. */
  lemma PreviewWithinAssignment(c: Calculation, b: Batch, v: bool, a: bool)
    ensures PreviewSelects(c, b.dateFrom, b.dateTo, b.company, v, a) ==> Assignable(c, b)
    ensures c.state == Validated && !v && Assignable(c, b) ==> !PreviewSelects(c, b.dateFrom, b.dateTo, b.company, v, a)
  {
  }

  /** A positive preview count means `action_calculate` has a calculation to take. */
  lemma PreviewedAreAssignable(cs: seq<Calculation>, b: Batch, v: bool, a: bool)
    requires PreviewCount(cs, b.dateFrom, b.dateTo, b.company, v, a) > 0
    ensures exists j :: 0 <= j < |cs| && Assignable(cs[j], b)
  {
    PreviewCountPositive(cs, b.dateFrom, b.dateTo, b.company, v, a);
    var k :| 0 <= k < |cs| && PreviewSelects(cs[k], b.dateFrom, b.dateTo, b.company, v, a);
    PreviewWithinAssignment(cs[k], b, v, a);
  }

  /** A window that meets no batch of the company passes the batch's own overlap test. */
  lemma NoIntersectionNoOverlap(bs: seq<Batch>, company: CompanyId, from: Date, to: Date)
    requires !exists j :: 0 <= j < |bs| && bs[j].company == company && PeriodsIntersect(bs[j], from, to)
    ensures Le(from, to) ==> !OverlapAsWritten(bs, |bs|, company, from, to)
  {
    if Le(from, to) {
      forall j | 0 <= j < |bs| && bs[j].company == company
        ensures !EndpointInside(bs[j], from, to)
      {
        if EndpointInside(bs[j], from, to) {
          EndpointInsideIntersects(bs[j], from, to);
        }
      }
    }
  }

  /** The preview loop. */
  method ComputePreview(cs: seq<Calculation>, from: Option<Date>, to: Option<Date>, company: CompanyId, v: bool, a: bool, rate: RateService)
    returns (p: Preview)
    ensures p == PreviewOf(cs, from, to, company, v, a, rate)
  {
    if from.None? || to.None? {
      return Preview(0, 0, 0.0);
    }
    var count := 0;
    var sps: seq<UserId> := [];
    var total := 0.0;
    var j := 0;
    while j < |cs|
      invariant 0 <= j <= |cs|
      invariant count == PreviewCount(cs[..j], from.value, to.value, company, v, a)
      invariant sps == PreviewSalespersons(cs[..j], from.value, to.value, company, v, a)
      invariant total == PreviewTotal(cs[..j], from.value, to.value, company, v, a, rate)
    {
      assert cs[..j + 1][..j] == cs[..j];
      if PreviewSelects(cs[j], from.value, to.value, company, v, a) {
        count := count + 1;
        sps := sps + [cs[j].salesperson];
        total := total + CommissionAmountCompany(cs[j], rate);
      }
      j := j + 1;
    }
    assert cs[..|cs|] == cs;
    p := Preview(count, |Distinct(sps)|, total);
  }

  // ---------------------------------------------------------------------------------
  // Date check (`_check_dates`)

  /** As written: the branch for inverted dates raises `ValidationError`, a name the file
      never imports, so it fails with a name error instead of the intended message. */
  function CheckDatesAsWritten(from: Option<Date>, to: Option<Date>): (o: Outcome)
    ensures o.Fail? <==> from.Some? && to.Some? && Lt(to.value, from.value)
    ensures o.Fail? ==> o.error == UndefinedNameValidationError
  {
    if from.Some? && to.Some? && Lt(to.value, from.value) then Fail(UndefinedNameValidationError) else Pass
  }

  /** As intended: inverted dates are refused with the validation message. */
  function CheckDates(from: Option<Date>, to: Option<Date>): (o: Outcome)
    ensures o == Pass <==> from.None? || to.None? || Le(from.value, to.value)
    ensures o.Fail? ==> o.error == WizardDatesInverted
  {
    if from.Some? && to.Some? && Lt(to.value, from.value) then Fail(WizardDatesInverted) else Pass
  }

  /** The two agree on what they accept; on inverted dates the written one fails with the
      wrong error. */
  lemma CheckDatesDiscrepancy()
    ensures CheckDatesAsWritten(Some(CivilDate(2024, 3, 31)), Some(CivilDate(2024, 3, 1))) == Fail(UndefinedNameValidationError)
    ensures CheckDates(Some(CivilDate(2024, 3, 31)), Some(CivilDate(2024, 3, 1))) == Fail(WizardDatesInverted)
    ensures forall f, t :: CheckDatesAsWritten(f, t).Pass? <==> CheckDates(f, t).Pass?
  {
  }

  // ---------------------------------------------------------------------------------
  // The wizard

  /** The batch name for a month: "Commissions <month> <year>". */
  function MonthlyName(month: int, year: int): string
    requires 1 <= month <= 12
  {
    "Commissions " + MonthName(month) + " " + IntToString(year)
  }

  class BatchCreateWizard {
    var name: string
    var periodType: PeriodType
    var month: Option<int>
    var year: int
    var dateFrom: Option<Date>
    var dateTo: Option<Date>
    var paymentDate: Option<Date>
    var includeValidated: bool
    var includeApproved: bool

    ghost predicate Valid()
      reads this
    {
      month.Some? ==> 1 <= month.value <= 12
    }

    /** A monthly wizard for the month of `today`, validated calculations included. */
    constructor (today: Date)
      ensures Valid() && periodType == MonthPeriod && month == Some(today.month) && year == today.year
      ensures name == [] && dateFrom.None? && dateTo.None? && paymentDate.None?
      ensures includeValidated && !includeApproved
    {
      name := [];
      periodType := MonthPeriod;
      month := Some(today.month);
      year := today.year;
      dateFrom := None;
      dateTo := None;
      paymentDate := None;
      includeValidated := true;
      includeApproved := false;
    }

    /** `_onchange_period`: for a monthly period with a month and a non-zero year, the
        window is the whole month and the payment date the 10th of the next month; the
        name is regenerated when it is empty or mentions "Commissions". A year that does
        not parse as four digits, or December 9999, fails and changes nothing. */
    method OnchangePeriod() returns (o: Outcome)
      requires Valid()
      modifies this
      ensures Valid()
      ensures !(old(periodType) == MonthPeriod && old(month).Some? && old(year) != 0) ==> o == Pass && unchanged(this)
      ensures old(periodType) == MonthPeriod && old(month).Some? && old(year) != 0
              && !(1000 <= old(year) <= 9999 && !(old(year) == 9999 && old(month).value == 12)) ==>
        o == Fail(DateOutOfRange) && unchanged(this)
      ensures old(periodType) == MonthPeriod && old(month).Some? && 1000 <= old(year) <= 9999
              && !(old(year) == 9999 && old(month).value == 12) ==>
        (var m := old(month).value; var y := old(year);
         o == Pass
         && dateFrom == Some(CivilDate(y, m, 1)) && dateTo == Some(CivilDate(y, m, DaysInMonth(y, m)))
         && paymentDate == Some(if m == 12 then CivilDate(y + 1, 1, 10) else CivilDate(y, m + 1, 10))
         && name == (if old(name) == [] || IsSubstring("Commissions", old(name)) then MonthlyName(m, y) else old(name))
         && periodType == old(periodType) && month == old(month) && year == old(year)
         && includeValidated == old(includeValidated) && includeApproved == old(includeApproved))
    {
      if !(periodType == MonthPeriod && month.Some? && year != 0) {
        return Pass;
      }
      if !(1000 <= year <= 9999) {
        return Fail(DateOutOfRange);
      }
      var first: Date := CivilDate(year, month.value, 1);
      MonthWindowEndFacts(first);
      AddOneMonthShape(first);
      var last := MonthWindowEnd(first);
      var next := AddOneMonth(first);
      if last.Err? || next.Err? {
        return Fail(DateOutOfRange);
      }
      dateFrom := Some(first);
      dateTo := Some(last.value);
      paymentDate := Some(TenthOfMonth(next.value));
      if name == [] || IsSubstring("Commissions", name) {
        name := MonthlyName(month.value, year);
      }
      o := Pass;
    }

    /** Writing a window by hand: the `_check_dates` constraint runs on the new dates,
        with the intended error, and a refused window leaves the wizard as it was. */
    method SetWindow(from: Option<Date>, to: Option<Date>) returns (o: Outcome)
      requires Valid()
      modifies this
      ensures Valid() && o == CheckDates(from, to)
      ensures o.Fail? ==> unchanged(this)
      ensures o.Pass? ==>
        dateFrom == from && dateTo == to && name == old(name) && paymentDate == old(paymentDate)
        && periodType == old(periodType) && month == old(month) && year == old(year)
        && includeValidated == old(includeValidated) && includeApproved == old(includeApproved)
    {
      o := CheckDates(from, to);
      if o.Pass? {
        dateFrom, dateTo := from, to;
      }
    }

    /** `action_create_batch`: refused when a batch of the company shares a date with the
        window, or when the preview finds nothing; otherwise the batch is created and
        calculated, which takes every assignable calculation of the window. */
    method CreateBatch(bt: BatchTable, ct: CalculationTable, company: CompanyId, rate: RateService) returns (r: Result<BatchId>)
      requires Valid() && bt.Valid() && ct.Valid() && BatchRefsExist(ct.calcs, bt.batches)
      requires dateFrom.Some? && dateTo.Some? && paymentDate.Some?
      modifies bt, ct
      ensures bt.Valid() && ct.Valid() && BatchRefsExist(ct.calcs, bt.batches)
      ensures (exists j :: 0 <= j < |old(bt.batches)| && old(bt.batches)[j].company == company
                           && PeriodsIntersect(old(bt.batches)[j], dateFrom.value, dateTo.value)) ==>
        r == Err(BatchExistsForPeriod) && bt.batches == old(bt.batches) && ct.calcs == old(ct.calcs)
      ensures r.Ok? ==>
        (var b := Batch(|old(bt.batches)|, name, company, dateFrom.value, dateTo.value, paymentDate, BatchCalculated, None, None, None);
         r.value == b.id && bt.batches == old(bt.batches) + [b]
         && ct.calcs == AssignTo(old(ct.calcs), b.(state := BatchDraft))
         && PreviewOf(old(ct.calcs), dateFrom, dateTo, company, includeValidated, includeApproved, rate).count > 0)
      ensures r.Err? ==> bt.batches == old(bt.batches) && ct.calcs == old(ct.calcs)
      ensures r.Err? && r.error == NoCalculationsForCriteria ==>
        PreviewOf(old(ct.calcs), dateFrom, dateTo, company, includeValidated, includeApproved, rate).count == 0
      ensures (!(exists j :: 0 <= j < |old(bt.batches)| && old(bt.batches)[j].company == company
                             && PeriodsIntersect(old(bt.batches)[j], dateFrom.value, dateTo.value))
               && Le(dateFrom.value, dateTo.value)
               && PreviewOf(old(ct.calcs), dateFrom, dateTo, company, includeValidated, includeApproved, rate).count > 0) ==> r.Ok?
    {
      var from := dateFrom.value;
      var to := dateTo.value;
      if exists j :: 0 <= j < |bt.batches| && bt.batches[j].company == company && PeriodsIntersect(bt.batches[j], from, to) {
        return Err(BatchExistsForPeriod);
      }
      var preview := ComputePreview(ct.calcs, dateFrom, dateTo, company, includeValidated, includeApproved, rate);
      if preview.count == 0 {
        return Err(NoCalculationsForCriteria);
      }
      PreviewedAreAssignable(ct.calcs, Batch(|bt.batches|, name, company, from, to, paymentDate, BatchDraft, None, None, None),
                             includeValidated, includeApproved);
      r := CreateCalculated(bt, ct, name, company, from, to, paymentDate);
    }
  }

  /** The batch creation and `action_calculate` once the wizard's checks have passed. */
  method CreateCalculated(bt: BatchTable, ct: CalculationTable, name: string, company: CompanyId, from: Date, to: Date,
                          paymentDate: Option<Date>) returns (r: Result<BatchId>)
    requires bt.Valid() && ct.Valid() && BatchRefsExist(ct.calcs, bt.batches)
    requires !exists j :: 0 <= j < |bt.batches| && bt.batches[j].company == company && PeriodsIntersect(bt.batches[j], from, to)
    requires var b := Batch(|bt.batches|, name, company, from, to, paymentDate, BatchDraft, None, None, None);
      exists j :: 0 <= j < |ct.calcs| && Assignable(ct.calcs[j], b)
    modifies bt, ct
    ensures bt.Valid() && ct.Valid() && BatchRefsExist(ct.calcs, bt.batches)
    ensures !Le(from, to) ==> r == Err(BatchDatesInverted) && bt.batches == old(bt.batches) && ct.calcs == old(ct.calcs)
    ensures Le(from, to) ==>
      (var b := Batch(|old(bt.batches)|, name, company, from, to, paymentDate, BatchDraft, None, None, None);
       r == Ok(b.id) && bt.batches == old(bt.batches) + [b.(state := BatchCalculated)] && ct.calcs == AssignTo(old(ct.calcs), b))
  {
    NoIntersectionNoOverlap(bt.batches, company, from, to);
    var created := bt.Create(name, company, from, to, paymentDate);
    if created.Err? {
      return created;
    }
    var calculated := bt.Calculate(created.value, ct);
    r := created;
  }
}
