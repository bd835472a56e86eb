/** Commission batches (`commission.batch`): the calculations of one company whose payment
    date falls in a window, taken through calculated, reviewed, payment-generated and
    paid, with the payment document generated from them. */
module Batches {
  import opened Common
  import opened Dates
  import opened Records
  import opened Calculations
  import opened Documents

  // ---------------------------------------------------------------------------------
  // Periods

  /** The overlap test of `_check_dates` as written: an endpoint of the new window lies
      inside the other batch's window. */
  predicate EndpointInside(o: Batch, from: Date, to: Date)
  {
    InWindow(from, o.dateFrom, o.dateTo) || InWindow(to, o.dateFrom, o.dateTo)
  }

  /** Some other batch of the company has an endpoint of the window inside it (batches have
      no cancelled state, so the source's state filter removes nothing). */
  predicate OverlapAsWritten(bs: seq<Batch>, self: BatchId, company: CompanyId, from: Date, to: Date)
  {
    exists j :: 0 <= j < |bs| && j != self && bs[j].company == company && EndpointInside(bs[j], from, to)
  }

  /** Two closed windows share a date: the test the creation wizard uses. */
  predicate PeriodsIntersect(o: Batch, from: Date, to: Date)
  {
    Le(o.dateFrom, to) && Le(from, o.dateTo)
  }

  lemma LeTransitive(a: Date, b: Date, c: Date)
    requires Le(a, b) && Le(b, c)
    ensures Le(a, c)
  {
  }

  /** The closed-interval test holds exactly when the two windows share a date. */
  lemma PeriodsIntersectExact(o: Batch, from: Date, to: Date)
    requires Le(o.dateFrom, o.dateTo) && Le(from, to)
    ensures PeriodsIntersect(o, from, to) <==> exists d: Date :: InWindow(d, o.dateFrom, o.dateTo) && InWindow(d, from, to)
  {
    if PeriodsIntersect(o, from, to) {
      var d := if Le(from, o.dateFrom) then o.dateFrom else from;
      assert InWindow(d, o.dateFrom, o.dateTo) && InWindow(d, from, to);
    }
    if exists d: Date :: InWindow(d, o.dateFrom, o.dateTo) && InWindow(d, from, to) {
      var d: Date :| InWindow(d, o.dateFrom, o.dateTo) && InWindow(d, from, to);
      LeTransitive(o.dateFrom, d, to);
      LeTransitive(from, d, o.dateTo);
    }
  }

  /** Whatever the written test catches the intersection test catches too. */
  lemma EndpointInsideIntersects(o: Batch, from: Date, to: Date)
    requires Le(from, to) && EndpointInside(o, from, to)
    ensures PeriodsIntersect(o, from, to)
  {
    if InWindow(from, o.dateFrom, o.dateTo) {
      LeTransitive(o.dateFrom, from, to);
    } else {
      LeTransitive(from, to, o.dateTo);
    }
  }

  /** A window strictly containing another batch's window passes the written test although
      the two share every date of the inner one. */
  lemma ContainingWindowNotCaught()
    ensures var inner := Batch(0, "Commissions February 2024", 1, CivilDate(2024, 2, 1), CivilDate(2024, 2, 29),
                               None, BatchDraft, None, None, None);
      !OverlapAsWritten([inner], 1, 1, CivilDate(2024, 1, 1), CivilDate(2024, 3, 31))
      && PeriodsIntersect(inner, CivilDate(2024, 1, 1), CivilDate(2024, 3, 31))
  {
  }

  // ---------------------------------------------------------------------------------
  // Calculation side effects

  /** The calculations `action_calculate` takes into the batch. */
  predicate Assignable(c: Calculation, b: Batch)
  {
    c.paymentDate.Some? && InWindow(c.paymentDate.value, b.dateFrom, b.dateTo)
    && c.batch.None? && c.state != Cancelled && c.company == b.company
  }

  function AssignTo(cs: seq<Calculation>, b: Batch): (r: seq<Calculation>)
    ensures |r| == |cs|
    ensures forall j :: 0 <= j < |cs| ==> r[j] == (if Assignable(cs[j], b) then cs[j].(batch := Some(b.id)) else cs[j])
  {
    seq(|cs|, j requires 0 <= j < |cs| => if Assignable(cs[j], b) then cs[j].(batch := Some(b.id)) else cs[j])
  }

  predicate InBatch(c: Calculation, id: BatchId)
  {
    c.batch == Some(id)
  }

  /** `calculation_ids.write({'batch_id': False})`. */
  function DetachAll(cs: seq<Calculation>, id: BatchId): (r: seq<Calculation>)
    ensures |r| == |cs|
    ensures forall j :: 0 <= j < |cs| ==> r[j] == (if InBatch(cs[j], id) then cs[j].(batch := None) else cs[j])
  {
    seq(|cs|, j requires 0 <= j < |cs| => if InBatch(cs[j], id) then cs[j].(batch := None) else cs[j])
  }

  /** The approved calculations of the batch paid. */
  function PayBatch(cs: seq<Calculation>, id: BatchId): (r: seq<Calculation>)
    ensures |r| == |cs|
    ensures forall j :: 0 <= j < |cs| ==>
      r[j] == (if InBatch(cs[j], id) && cs[j].state == Approved then cs[j].(state := Paid) else cs[j])
  {
    seq(|cs|, j requires 0 <= j < |cs| => if InBatch(cs[j], id) && cs[j].state == Approved then cs[j].(state := Paid) else cs[j])
  }

  /** After `action_calculate` every calculation that was assignable is in the batch, and
      calculations that were in some batch before stay where they were. */
  lemma AssignToEffect(cs: seq<Calculation>, b: Batch)
    ensures forall j :: 0 <= j < |cs| && Assignable(cs[j], b) ==> InBatch(AssignTo(cs, b)[j], b.id)
    ensures forall j :: 0 <= j < |cs| && cs[j].batch.Some? ==> AssignTo(cs, b)[j] == cs[j]
    ensures forall j :: 0 <= j < |cs| ==>
      (InBatch(AssignTo(cs, b)[j], b.id) <==> InBatch(cs[j], b.id) || Assignable(cs[j], b))
  {
  }

  // ---------------------------------------------------------------------------------
  // Statistics (`_compute_statistics`, `get_summary_by_currency`)

  predicate LiveIn(c: Calculation, id: BatchId)
  {
    c.batch == Some(id) && c.state != Cancelled
  }

  function LiveCount(cs: seq<Calculation>, id: BatchId): nat
  {
    if cs == [] then 0 else LiveCount(cs[..|cs| - 1], id) + (if LiveIn(cs[|cs| - 1], id) then 1 else 0)
  }

  /** The salespersons of the batch's non-cancelled calculations, in table order. */
  function LiveSalespersons(cs: seq<Calculation>, id: BatchId): (r: seq<UserId>)
    ensures |r| == LiveCount(cs, id)
  {
    if cs == [] then []
    else LiveSalespersons(cs[..|cs| - 1], id) + (if LiveIn(cs[|cs| - 1], id) then [cs[|cs| - 1].salesperson] else [])
  }

  /** A calculation's commission as it counts towards the USD total: USD as it is, VES not
      at all, any other currency converted into USD at its payment date (today without
      one). */
  function UsdShare(c: Calculation, company: CompanyId, convert: Converter, today: Date): real
  {
    if c.currency == USD then c.commissionAmount
    else if c.currency == VES then 0.0
    else convert(c.commissionAmount, c.currency, USD, company, if c.paymentDate.Some? then c.paymentDate.value else today)
  }

  function StatUsd(cs: seq<Calculation>, b: Batch, convert: Converter, today: Date): real
  {
    if cs == [] then 0.0
    else
      var c := cs[|cs| - 1];
      StatUsd(cs[..|cs| - 1], b, convert, today) + (if LiveIn(c, b.id) then UsdShare(c, b.company, convert, today) else 0.0)
  }

  function StatVes(cs: seq<Calculation>, id: BatchId): real
  {
    if cs == [] then 0.0
    else
      var c := cs[|cs| - 1];
      StatVes(cs[..|cs| - 1], id) + (if LiveIn(c, id) && c.currency == VES then c.commissionAmount else 0.0)
  }

  /** The plain sum of the batch's non-cancelled commissions, whatever their currency. */
  function LiveAmount(cs: seq<Calculation>, id: BatchId): real
  {
    if cs == [] then 0.0
    else LiveAmount(cs[..|cs| - 1], id) + (if LiveIn(cs[|cs| - 1], id) then cs[|cs| - 1].commissionAmount else 0.0)
  }

  datatype BatchStats = BatchStats(count: nat, salespersons: nat, totalUsd: real, totalVes: real)

  lemma {:induction false} DistinctNoLonger(s: seq<UserId>)
    ensures |Distinct(s)| <= |s|
  {
    if s != [] {
      DistinctNoLonger(s[..|s| - 1]);
    }
  }

  /** At most as many salespersons as calculations; with a converter that leaves amounts
      unchanged the two totals together are all the batch's non-cancelled commissions. */
  lemma {:induction false} StatisticsFacts(cs: seq<Calculation>, b: Batch, convert: Converter, today: Date)
    ensures |Distinct(LiveSalespersons(cs, b.id))| <= LiveCount(cs, b.id)
    ensures (forall a, from, to, co, d :: convert(a, from, to, co, d) == a) ==>
      StatUsd(cs, b, convert, today) + StatVes(cs, b.id) == LiveAmount(cs, b.id)
  {
    DistinctNoLonger(LiveSalespersons(cs, b.id));
    if cs != [] {
      StatisticsFacts(cs[..|cs| - 1], b, convert, today);
    }
  }

  /** What the batch's calculations contribute in one currency. */
  datatype CurrencyTotals = CurrencyTotals(total: real, count: nat, salespersons: set<UserId>)

  /** The summary loop: a map from currency to its running totals. */
  function SummaryOf(cs: seq<Calculation>, id: BatchId): map<Currency, CurrencyTotals>
  {
    if cs == [] then map[]
    else
      var m := SummaryOf(cs[..|cs| - 1], id);
      var c := cs[|cs| - 1];
      if !LiveIn(c, id) then m
      else
        var t := if c.currency in m then m[c.currency] else CurrencyTotals(0.0, 0, {});
        m[c.currency := CurrencyTotals(t.total + c.commissionAmount, t.count + 1, t.salespersons + {c.salesperson})]
  }

  function CountIn(cs: seq<Calculation>, id: BatchId, cur: Currency): nat
  {
    if cs == [] then 0
    else CountIn(cs[..|cs| - 1], id, cur) + (if LiveIn(cs[|cs| - 1], id) && cs[|cs| - 1].currency == cur then 1 else 0)
  }

  function TotalIn(cs: seq<Calculation>, id: BatchId, cur: Currency): real
  {
    if cs == [] then 0.0
    else
      var c := cs[|cs| - 1];
      TotalIn(cs[..|cs| - 1], id, cur) + (if LiveIn(c, id) && c.currency == cur then c.commissionAmount else 0.0)
  }

  function SalespersonsIn(cs: seq<Calculation>, id: BatchId, cur: Currency): set<UserId>
  {
    if cs == [] then {}
    else
      var c := cs[|cs| - 1];
      SalespersonsIn(cs[..|cs| - 1], id, cur) + (if LiveIn(c, id) && c.currency == cur then {c.salesperson} else {})
  }

  /** A currency without calculations has nothing to sum. */
  lemma {:induction false} NoneInCurrency(cs: seq<Calculation>, id: BatchId, cur: Currency)
    requires CountIn(cs, id, cur) == 0
    ensures TotalIn(cs, id, cur) == 0.0 && SalespersonsIn(cs, id, cur) == {}
  {
    if cs != [] {
      NoneInCurrency(cs[..|cs| - 1], id, cur);
    }
  }

  /** A currency has an entry exactly when a non-cancelled calculation of the batch is in
      it; the entry's count, total and salespersons are those of exactly these
      calculations. */
  lemma {:induction false} SummaryOfSpec(cs: seq<Calculation>, id: BatchId)
    ensures forall cur :: cur in SummaryOf(cs, id) <==> CountIn(cs, id, cur) > 0
    ensures forall cur :: cur in SummaryOf(cs, id) ==>
      SummaryOf(cs, id)[cur] == CurrencyTotals(TotalIn(cs, id, cur), CountIn(cs, id, cur), SalespersonsIn(cs, id, cur))
  {
    if cs != [] {
      var init := cs[..|cs| - 1];
      var c := cs[|cs| - 1];
      SummaryOfSpec(init, id);
      if LiveIn(c, id) && c.currency !in SummaryOf(init, id) {
        NoneInCurrency(init, id, c.currency);
      }
    }
  }

  /** The salespersons of a currency are those of its non-cancelled calculations. */
  lemma {:induction false} SalespersonsInMembers(cs: seq<Calculation>, id: BatchId, cur: Currency)
    ensures forall sp :: sp in SalespersonsIn(cs, id, cur) <==>
      exists j :: 0 <= j < |cs| && LiveIn(cs[j], id) && cs[j].currency == cur && cs[j].salesperson == sp
  {
    if cs != [] {
      var init := cs[..|cs| - 1];
      SalespersonsInMembers(init, id, cur);
      assert forall j :: 0 <= j < |init| ==> init[j] == cs[j];
      forall sp | exists j :: 0 <= j < |cs| && LiveIn(cs[j], id) && cs[j].currency == cur && cs[j].salesperson == sp
        ensures sp in SalespersonsIn(cs, id, cur)
      {
        var j :| 0 <= j < |cs| && LiveIn(cs[j], id) && cs[j].currency == cur && cs[j].salesperson == sp;
        assert j < |init| ==> LiveIn(init[j], id) && init[j].currency == cur && init[j].salesperson == sp;
      }
    }
  }

  /** The summary with the salesperson sets turned into counts. */
  function SummaryCounts(m: map<Currency, CurrencyTotals>): map<Currency, (real, nat, nat)>
  {
    map cur | cur in m :: (m[cur].total, m[cur].count, |m[cur].salespersons|)
  }

  // ---------------------------------------------------------------------------------
  // The table

  /** All batches, a batch's id being its position. */
  class BatchTable {
    var batches: seq<Batch>

    ghost predicate Valid()
      reads this
    {
      forall j :: 0 <= j < |batches| ==> batches[j].id == j && Le(batches[j].dateFrom, batches[j].dateTo)
    }

    constructor ()
      ensures Valid() && batches == []
    {
      batches := [];
    }

    /** `create`: the date order (a database constraint) is checked first, then the written
        overlap test against the other batches of the company. */
    method Create(name: string, company: CompanyId, from: Date, to: Date, paymentDate: Option<Date>) returns (r: Result<BatchId>)
      requires Valid()
      modifies this
      ensures Valid()
      ensures !Le(from, to) ==> r == Err(BatchDatesInverted) && batches == old(batches)
      ensures Le(from, to) && OverlapAsWritten(old(batches), |old(batches)|, company, from, to) ==>
        r == Err(BatchPeriodOverlap) && batches == old(batches)
      ensures Le(from, to) && !OverlapAsWritten(old(batches), |old(batches)|, company, from, to) ==>
        r == Ok(|old(batches)|)
        && batches == old(batches) + [Batch(|old(batches)|, name, company, from, to, paymentDate, BatchDraft, None, None, None)]
    {
      if !Le(from, to) {
        return Err(BatchDatesInverted);
      }
      if OverlapAsWritten(batches, |batches|, company, from, to) {
        return Err(BatchPeriodOverlap);
      }
      r := Ok(|batches|);
      batches := batches + [Batch(|batches|, name, company, from, to, paymentDate, BatchDraft, None, None, None)];
    }

    /** `action_calculate`. */
    method Calculate(id: BatchId, ct: CalculationTable) returns (o: Outcome)
      requires Valid() && ct.Valid() && id < |batches| && BatchRefsExist(ct.calcs, batches)
      modifies this, ct
      ensures Valid() && ct.Valid() && BatchRefsExist(ct.calcs, batches) && |batches| == |old(batches)|
      ensures var b := old(batches)[id];
        (b.state != BatchDraft ==> o == Fail(OnlyDraftCanBeCalculated) && batches == old(batches) && ct.calcs == old(ct.calcs))
        && (b.state == BatchDraft && !(exists j :: 0 <= j < |old(ct.calcs)| && Assignable(old(ct.calcs)[j], b)) ==>
              o == Fail(NoCalculationsInPeriod) && batches == old(batches) && ct.calcs == old(ct.calcs))
        && (b.state == BatchDraft && (exists j :: 0 <= j < |old(ct.calcs)| && Assignable(old(ct.calcs)[j], b)) ==>
              o == Pass && ct.calcs == AssignTo(old(ct.calcs), b)
              && batches == old(batches)[id := b.(state := BatchCalculated)])
    {
      var b := batches[id];
      if b.state != BatchDraft {
        return Fail(OnlyDraftCanBeCalculated);
      }
      if !exists j :: 0 <= j < |ct.calcs| && Assignable(ct.calcs[j], b) {
        return Fail(NoCalculationsInPeriod);
      }
      ct.calcs := AssignTo(ct.calcs, b);
      batches := batches[id := b.(state := BatchCalculated)];
      o := Pass;
    }

    /** `action_review`. */
    method Review(id: BatchId, cs: seq<Calculation>, user: UserId, now: Moment) returns (o: Outcome)
      requires Valid() && id < |batches|
      modifies this
      ensures Valid()
      ensures var b := old(batches)[id];
        (b.state != BatchCalculated ==> o == Fail(OnlyCalculatedCanBeReviewed) && batches == old(batches))
        && (b.state == BatchCalculated && !(exists j :: 0 <= j < |cs| && InBatch(cs[j], id)) ==>
              o == Fail(EmptyBatch) && batches == old(batches))
        && (b.state == BatchCalculated && (exists j :: 0 <= j < |cs| && InBatch(cs[j], id)) ==>
              o == Pass && batches == old(batches)[id := b.(state := Reviewed, reviewer := Some(user), reviewedAt := Some(now))])
    {
      var b := batches[id];
      if b.state != BatchCalculated {
        return Fail(OnlyCalculatedCanBeReviewed);
      }
      if !exists j :: 0 <= j < |cs| && InBatch(cs[j], id) {
        return Fail(EmptyBatch);
      }
      batches := batches[id := b.(state := Reviewed, reviewer := Some(user), reviewedAt := Some(now))];
      o := Pass;
    }

    /** `action_generate_payment_document`: one new document, its lines generated. */
    method GenerateDocument(id: BatchId, ct: CalculationTable, dt: DocumentTable, rate: RateService, convert: Converter)
      returns (o: Outcome)
      requires Valid() && ct.Valid() && dt.Valid() && id < |batches|
      modifies this, ct, dt
      ensures Valid() && ct.Valid() && dt.Valid() && |batches| == |old(batches)|
      ensures var b := old(batches)[id];
        (b.state != Reviewed ==> o == Fail(OnlyReviewedCanGenerate) && unchanged(this, ct, dt))
        && (b.state == Reviewed && b.paymentDate.None? ==> o == Fail(MissingPaymentDate) && unchanged(this, ct, dt))
        && (b.state == Reviewed && b.paymentDate.Some? ==>
              (o == Pass && batches[id].document.Some?
               && var doc := batches[id].document.value;
                  doc !in old(dt.docs)
                  && batches == old(batches)[id := b.(state := PaymentGenerated, document := Some(doc))]
                  && var d := Document(doc, id, b.paymentDate.value, b.company, DocDraft, [], 0.0);
                     dt.docs == old(dt.docs)[doc := d.(lines := GeneratedLines(old(ct.calcs), d, convert),
                                                       rateUsdVes := rate(USD, VES, b.company, b.paymentDate.value))]
                     && ct.calcs == ApproveBatch(old(ct.calcs), id)))
    {
      var b := batches[id];
      if b.state != Reviewed {
        return Fail(OnlyReviewedCanGenerate);
      }
      if b.paymentDate.None? {
        return Fail(MissingPaymentDate);
      }
      var doc := dt.Create(id, b.paymentDate.value, b.company);
      var generated := dt.GenerateLines(doc, ct, rate, convert);
      batches := batches[id := b.(state := PaymentGenerated, document := Some(doc))];
      o := Pass;
    }

    /** `action_mark_paid`: the approved calculations of the batch are paid, the document
        is marked paid, then the batch. */
    method MarkPaid(id: BatchId, ct: CalculationTable, dt: DocumentTable) returns (o: Outcome)
      requires Valid() && ct.Valid() && dt.Valid() && id < |batches|
      modifies this, ct, dt
      ensures Valid() && ct.Valid() && dt.Valid() && |batches| == |old(batches)|
      ensures var b := old(batches)[id];
        (b.state != PaymentGenerated ==> o == Fail(OnlyPaymentGeneratedCanBePaid) && unchanged(this, ct, dt))
        && (b.state == PaymentGenerated ==>
              (o == Pass && ct.calcs == PayBatch(old(ct.calcs), id)
               && batches == old(batches)[id := b.(state := BatchPaid)]
               && dt.docs == (if b.document.Some? && b.document.value in old(dt.docs)
                              then old(dt.docs)[b.document.value := old(dt.docs)[b.document.value].(state := DocPaid)]
                              else old(dt.docs))))
    {
      var b := batches[id];
      if b.state != PaymentGenerated {
        return Fail(OnlyPaymentGeneratedCanBePaid);
      }
      var approved: seq<CalcId> := [];
      var j := 0;
      while j < |ct.calcs|
        invariant 0 <= j <= |ct.calcs| && InRange(approved, ct.calcs)
        invariant forall k :: 0 <= k < |approved| ==> approved[k] < j
        invariant forall m :: m in approved <==> 0 <= m < j && InBatch(ct.calcs[m], id) && ct.calcs[m].state == Approved
      {
        if InBatch(ct.calcs[j], id) && ct.calcs[j].state == Approved {
          approved := approved + [j];
        }
        j := j + 1;
      }
      ghost var before := ct.calcs;
      var paid := ct.Apply(Action.MarkPaid, approved);
      assert paid == Pass;
      forall m | 0 <= m < |before| ensures ct.calcs[m] == PayBatch(before, id)[m] {
      }
      if b.document.Some? && b.document.value in dt.docs {
        dt.SetPaid(b.document.value);
      }
      batches := batches[id := b.(state := BatchPaid)];
      o := Pass;
    }

    /** `action_reset_draft`: refused for a paid batch; otherwise the calculations are
        detached, the document is deleted and the review is cleared. */
    method ResetDraft(id: BatchId, ct: CalculationTable, dt: DocumentTable) returns (o: Outcome)
      requires Valid() && ct.Valid() && dt.Valid() && id < |batches|
      modifies this, ct, dt
      ensures Valid() && ct.Valid() && dt.Valid() && |batches| == |old(batches)|
      ensures var b := old(batches)[id];
        (b.state == BatchPaid ==> o == Fail(CannotResetPaidBatch) && unchanged(this, ct, dt))
        && (b.state != BatchPaid ==>
              (o == Pass && ct.calcs == DetachAll(old(ct.calcs), id)
               && dt.docs == (if b.document.Some? then old(dt.docs) - {b.document.value} else old(dt.docs))
               && batches == old(batches)[id := b.(state := BatchDraft, document := None, reviewer := None, reviewedAt := None)]))
    {
      var b := batches[id];
      if b.state == BatchPaid {
        return Fail(CannotResetPaidBatch);
      }
      ct.calcs := DetachAll(ct.calcs, id);
      if b.document.Some? {
        dt.Delete(b.document.value);
      }
      batches := batches[id := b.(state := BatchDraft, document := None, reviewer := None, reviewedAt := None)];
      o := Pass;
    }

    /** The document's `action_mark_paid`: refused unless the document is confirmed; the
        document is paid, then its batch when that batch awaits payment. */
    method MarkDocumentPaid(doc: DocId, ct: CalculationTable, dt: DocumentTable) returns (o: Outcome)
      requires Valid() && ct.Valid() && dt.Valid() && doc in dt.docs && dt.docs[doc].batch < |batches|
      modifies this, ct, dt
      ensures Valid() && ct.Valid() && dt.Valid()
      ensures var d := old(dt.docs)[doc]; var b := old(batches)[d.batch];
        (d.state != Confirmed ==> o == Fail(OnlyConfirmedCanBePaid) && unchanged(this, ct, dt))
        && (d.state == Confirmed && b.state != PaymentGenerated ==>
              (o == Pass && dt.docs == old(dt.docs)[doc := d.(state := DocPaid)] && unchanged(this, ct)))
        && (d.state == Confirmed && b.state == PaymentGenerated ==>
              (o == Pass && ct.calcs == PayBatch(old(ct.calcs), d.batch)
               && batches == old(batches)[d.batch := b.(state := BatchPaid)]
               && var paid := old(dt.docs)[doc := d.(state := DocPaid)];
               dt.docs == (if b.document.Some? && b.document.value in paid
                           then paid[b.document.value := paid[b.document.value].(state := DocPaid)]
                           else paid)))
    {
      var d := dt.docs[doc];
      if d.state != Confirmed {
        return Fail(OnlyConfirmedCanBePaid);
      }
      dt.SetPaid(doc);
      if batches[d.batch].state == PaymentGenerated {
        o := MarkPaid(d.batch, ct, dt);
      } else {
        o := Pass;
      }
    }

    /** `create_monthly_batch`: the previous calendar month of `date`, paid on the 10th of
        the month of `date`; an existing batch of the company with exactly that window
        (the newest one) is returned instead. */
    method CreateMonthly(date: Date, company: CompanyId) returns (r: Result<BatchId>)
      requires Valid()
      modifies this
      ensures Valid()
      ensures r.Ok? ==>
        (r.value < |batches| && MonthlyMatch(batches[r.value], date, company)
         && forall j :: r.value < j < |batches| ==> !MonthlyMatch(batches[j], date, company))
      ensures (exists j :: 0 <= j < |old(batches)| && MonthlyMatch(old(batches)[j], date, company)) ==>
        r.Ok? && batches == old(batches)
      ensures r.Ok? && r.value == |old(batches)| ==>
        (batches[r.value].paymentDate == Some(TenthOfMonth(date))
         && batches[r.value].name == "Commissions " + MonthYearLabel(batches[r.value].dateFrom))
      ensures (forall j :: 0 <= j < |old(batches)| ==> !MonthlyMatch(old(batches)[j], date, company)) && r.Ok? ==>
        r.value == |old(batches)|
        && batches == old(batches) + [Batch(|old(batches)|, "Commissions " + MonthYearLabel(FirstOfPreviousMonth(date).value),
                                            company, FirstOfPreviousMonth(date).value, LastOfPreviousMonth(date).value,
                                            Some(TenthOfMonth(date)), BatchDraft, None, None, None)]
      ensures FirstOfPreviousMonth(date).Err? ==> r == Err(DateOutOfRange)
      ensures (forall j :: 0 <= j < |old(batches)| ==> !MonthlyMatch(old(batches)[j], date, company))
              && FirstOfPreviousMonth(date).Ok? ==>
        (r.Ok? <==> !OverlapAsWritten(old(batches), |old(batches)|, company,
                                      FirstOfPreviousMonth(date).value, LastOfPreviousMonth(date).value))
        && (r.Err? ==> r == Err(BatchPeriodOverlap))
      ensures r.Err? ==> batches == old(batches)
    {
      PreviousMonthFacts(date);
      var first := FirstOfPreviousMonth(date);
      var last := LastOfPreviousMonth(date);
      if first.Err? || last.Err? {
        return Err(DateOutOfRange);
      }
      var j := |batches|;
      while j > 0
        invariant 0 <= j <= |batches|
        invariant forall k :: j <= k < |batches| ==> !MonthlyMatch(batches[k], date, company)
      {
        if MonthlyMatch(batches[j - 1], date, company) {
          return Ok(j - 1);
        }
        j := j - 1;
      }
      r := Create("Commissions " + MonthYearLabel(first.value), company, first.value, last.value, Some(TenthOfMonth(date)));
    }
  }

  /** A batch of the company whose window is the previous month of `date`. */
  predicate MonthlyMatch(b: Batch, date: Date, company: CompanyId)
  {
    Ok(b.dateFrom) == FirstOfPreviousMonth(date) && Ok(b.dateTo) == LastOfPreviousMonth(date) && b.company == company
  }

  /** Asking twice for the monthly batch gives the same batch and creates nothing the
      second time. */
  method CreateMonthlyTwice(t: BatchTable, date: Date, company: CompanyId) returns (first: Result<BatchId>, second: Result<BatchId>)
    requires t.Valid()
    modifies t
    ensures first.Ok? ==> second == first
  {
    first := t.CreateMonthly(date, company);
    ghost var after := t.batches;
    second := t.CreateMonthly(date, company);
    if first.Ok? {
      assert MonthlyMatch(after[first.value], date, company);
    }
  }

  /** `_onchange_date_from`: the window runs to the day before the same day next month,
      the payment date is the 10th of the next month and an empty name is filled in. */
  function OnchangeDateFrom(from: Date, name: string): (r: Result<(Date, Date, string)>)
    ensures r.Err? <==> from.year == 9999 && from.month == 12
    ensures r.Ok? ==>
      var (to, payment, name') := r.value;
      Le(from, to) && payment.day == 10
      && (if from.month == 12 then payment.year == from.year + 1 && payment.month == 1
          else payment.year == from.year && payment.month == from.month + 1)
      && (from.day == 1 ==> to == CivilDate(from.year, from.month, DaysInMonth(from.year, from.month)))
      && (name != [] ==> name' == name) && (name == [] ==> name' == "Commissions " + MonthYearLabel(from))
  {
    MonthWindowEndFacts(from);
    AddOneMonthShape(from);
    match (MonthWindowEnd(from), AddOneMonth(from))
    case (Ok(to), Ok(next)) => Ok((to, TenthOfMonth(next), if name == [] then "Commissions " + MonthYearLabel(from) else name))
    case _ => Err(DateOutOfRange)
  }

  /** The batch statistics loop. */
  method ComputeStatistics(b: Batch, cs: seq<Calculation>, convert: Converter, today: Date) returns (s: BatchStats)
    ensures s == BatchStats(LiveCount(cs, b.id), |Distinct(LiveSalespersons(cs, b.id))|,
                            StatUsd(cs, b, convert, today), StatVes(cs, b.id))
  {
    var count := 0;
    var sps: seq<UserId> := [];
    var usd := 0.0;
    var ves := 0.0;
    var j := 0;
    while j < |cs|
      invariant 0 <= j <= |cs|
      invariant count == LiveCount(cs[..j], b.id) && sps == LiveSalespersons(cs[..j], b.id)
      invariant usd == StatUsd(cs[..j], b, convert, today) && ves == StatVes(cs[..j], b.id)
    {
      var c := cs[j];
      assert cs[..j + 1][..j] == cs[..j];
      if c.batch == Some(b.id) && c.state != Cancelled {
        count := count + 1;
        sps := sps + [c.salesperson];
        if c.currency == USD {
          usd := usd + c.commissionAmount;
        } else if c.currency == VES {
          ves := ves + c.commissionAmount;
        } else {
          var at := if c.paymentDate.Some? then c.paymentDate.value else today;
          usd := usd + convert(c.commissionAmount, c.currency, USD, b.company, at);
        }
      }
      j := j + 1;
    }
    assert cs[..|cs|] == cs;
    s := BatchStats(count, |Distinct(sps)|, usd, ves);
  }

  /** The summary loop of `get_summary_by_currency`. */
  method SummaryByCurrency(id: BatchId, cs: seq<Calculation>) returns (m: map<Currency, (real, nat, nat)>)
    ensures m == SummaryCounts(SummaryOf(cs, id))
  {
    var summary: map<Currency, CurrencyTotals> := map[];
    var j := 0;
    while j < |cs|
      invariant 0 <= j <= |cs| && summary == SummaryOf(cs[..j], id)
    {
      var c := cs[j];
      assert cs[..j + 1][..j] == cs[..j];
      if c.batch == Some(id) && c.state != Cancelled {
        if c.currency !in summary {
          summary := summary[c.currency := CurrencyTotals(0.0, 0, {})];
        }
        var t := summary[c.currency];
        summary := summary[c.currency := CurrencyTotals(t.total + c.commissionAmount, t.count + 1, t.salespersons + {c.salesperson})];
      }
      j := j + 1;
    }
    assert cs[..|cs|] == cs;
    m := SummaryCounts(summary);
  }
}
