/** The records of the accounting side that the commission engine reads (users, invoices,
    payments) and the commission calculation record itself, with the states of the
    calculation and batch workflows. */
module Records {
  import opened Common
  import opened Dates

  /** A `res.users` record, as far as commissions look at it. */
  datatype User = User(
    id: UserId,
    name: string,
    team: Option<TeamId>,           // sale_team_id
    commissionBandActive: bool,
    company: CompanyId,             // the current company
    companies: seq<CompanyId>,      // company_ids
    share: bool)                    // portal and public users are shared users

  /** A product with its (always set) product category. */
  datatype Product = Product(id: ProductId, category: CategoryId)

  /** An invoice line; section and note lines carry no product. */
  datatype InvoiceLine = InvoiceLine(product: Option<Product>)

  /** A customer invoice (`account.move`). Posted invoices always carry a due date. */
  datatype Invoice = Invoice(
    id: InvoiceId,
    name: string,
    partner: PartnerId,
    salesperson: Option<User>,      // invoice_user_id
    moveUser: Option<User>,         // user_id
    team: Option<TeamId>,
    teamLeader: Option<User>,       // team_id.user_id
    paymentTerm: Option<TermId>,
    lines: seq<InvoiceLine>,
    company: CompanyId,
    invoiceDate: Option<Date>,
    dueDate: Date,
    deliveryDate: Option<Date>,
    isSaleDocument: bool,
    skipCommission: bool,
    overrideRule: Option<RuleId>)   // commission_override_rule_id

  datatype PaymentType = Inbound | Outbound
  datatype PartnerType = Customer | Supplier
  datatype PaymentState = PaymentDraft | Posted | PaymentCancelled

  /** An `account.payment` with the invoices it is reconciled against. */
  datatype Payment = Payment(
    id: PaymentId,
    name: string,
    amount: real,
    date: Date,
    currency: Currency,
    journal: JournalId,
    company: CompanyId,
    paymentType: PaymentType,
    partnerType: PartnerType,
    state: PaymentState,
    isReconciled: bool,
    skipCommission: bool,
    reconciledInvoices: seq<Invoice>)

  datatype CalcState = Draft | Calculated | Validated | Approved | Paid | Cancelled

  /** Batch states; there is no cancelled state. */
  datatype BatchState = BatchDraft | BatchCalculated | Reviewed | PaymentGenerated | BatchPaid

  /** A point in time, for the review timestamp of a batch. */
  type Moment = int

  /** A `commission.batch`: the calculations of one company in a payment-date window,
      paid out together through one payment document. */
  datatype Batch = Batch(
    id: BatchId,
    name: string,
    company: CompanyId,
    dateFrom: Date,
    dateTo: Date,
    paymentDate: Option<Date>,
    state: BatchState,
    document: Option<DocId>,        // payment_document_id
    reviewer: Option<UserId>,       // reviewed_by_id
    reviewedAt: Option<Moment>)     // reviewed_date

  /** A `commission.calculation` record: the commission earned by one salesperson on one
      invoice through one payment. */
  datatype Calculation = Calculation(
    id: CalcId,
    payment: PaymentId,
    invoice: InvoiceId,
    salesperson: UserId,
    company: CompanyId,
    rule: Option<RuleId>,
    band: Option<BandId>,
    range: Option<RangeId>,
    batch: Option<BatchId>,
    invoiceDate: Option<Date>,
    dueDate: Option<Date>,
    paymentDate: Option<Date>,
    paymentAmount: real,
    commissionRate: real,
    commissionAmount: real,
    currency: Currency,
    companyCurrency: Currency,
    isReconciled: bool,
    state: CalcState)

  /** `days_overdue`: the signed days from the due date to the payment date, 0 when
      either is missing. */
  function DaysOverdue(c: Calculation): (d: int)
    ensures c.dueDate.Some? && c.paymentDate.Some? ==>
      (d < 0 <==> Lt(c.paymentDate.value, c.dueDate.value)) && (d == 0 <==> c.paymentDate == c.dueDate)
    ensures c.dueDate.None? || c.paymentDate.None? ==> d == 0
  {
    if c.dueDate.Some? && c.paymentDate.Some? then
      DaysBetweenSign(c.paymentDate.value, c.dueDate.value);
      DaysBetween(c.paymentDate.value, c.dueDate.value)
    else 0
  }

  /** The conversion rate service: the rate from one currency to another for a company
      on a date. */
  type RateService = (Currency, Currency, CompanyId, Date) -> real

  /** The currency conversion service (`_convert`): an amount from one currency into
      another for a company on a date. */
  type Converter = (real, Currency, Currency, CompanyId, Date) -> real

  /** `exchange_rate`: the payment-date rate into the company currency, 1.0 without a
      payment date. */
  function ExchangeRate(c: Calculation, rate: RateService): real
  {
    if c.paymentDate.Some? then rate(c.currency, c.companyCurrency, c.company, c.paymentDate.value) else 1.0
  }

  /** `commission_amount_company`. */
  function CommissionAmountCompany(c: Calculation, rate: RateService): (r: real)
    ensures c.currency == c.companyCurrency ==> r == c.commissionAmount
    ensures c.currency != c.companyCurrency ==> r == c.commissionAmount * ExchangeRate(c, rate)
  {
    if c.currency != c.companyCurrency then c.commissionAmount * ExchangeRate(c, rate) else c.commissionAmount
  }

  /** `payment_amount_company`. */
  function PaymentAmountCompany(c: Calculation, rate: RateService): (r: real)
    ensures c.currency == c.companyCurrency ==> r == c.paymentAmount
    ensures c.currency != c.companyCurrency ==> r == c.paymentAmount * ExchangeRate(c, rate)
  {
    if c.currency != c.companyCurrency then c.paymentAmount * ExchangeRate(c, rate) else c.paymentAmount
  }

  /** The company amounts convert both amounts at the one payment-date rate, so the
      commission keeps its share of the payment; they depend on the rate service only
      through that one rate, and not at all in the company currency; and a non-negative
      rate keeps non-negative amounts non-negative. */
  lemma CompanyAmountsFacts(c: Calculation, rate1: RateService, rate2: RateService)
    ensures CommissionAmountCompany(c, rate1) * c.paymentAmount == PaymentAmountCompany(c, rate1) * c.commissionAmount
    ensures (c.currency == c.companyCurrency || ExchangeRate(c, rate1) == ExchangeRate(c, rate2)) ==>
      CommissionAmountCompany(c, rate1) == CommissionAmountCompany(c, rate2)
      && PaymentAmountCompany(c, rate1) == PaymentAmountCompany(c, rate2)
    ensures c.currency == c.companyCurrency ==>
      CommissionAmountCompany(c, rate1) == c.commissionAmount && PaymentAmountCompany(c, rate1) == c.paymentAmount
    ensures ExchangeRate(c, rate1) >= 0.0 && c.commissionAmount >= 0.0 && c.paymentAmount >= 0.0 ==>
      CommissionAmountCompany(c, rate1) >= 0.0 && PaymentAmountCompany(c, rate1) >= 0.0
  {
  }

  /** The amount constraints, commission amount first (Odoo runs them by method name). */
  function CheckCalculationAmounts(c: Calculation): (o: Outcome)
    ensures o == Pass <==> c.commissionAmount >= 0.0 && c.paymentAmount > 0.0
  {
    if c.commissionAmount < 0.0 then Fail(NegativeCommissionAmount)
    else if c.paymentAmount <= 0.0 then Fail(NonPositivePaymentAmount)
    else Pass
  }
}
