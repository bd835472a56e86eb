/** A commission rule: optional restrictions deciding whether it applies to a payment of
    an invoice by a salesperson, and one of four ways of computing the commission. */
module Rules {
  import opened Common
  import opened Dates
  import opened Ranges
  import opened Bands
  import opened Records

  datatype CommissionType = PercentageType | FixedType | BandType | NoneType

  /** A `commission.rule`. Each many-to-many restriction is a set that is empty when the
      restriction is not used; amounts of 0.0 are "not set". */
  datatype Rule = Rule(
    id: RuleId,
    name: string,
    code: string,
    active: bool,
    company: CompanyId,
    sequence: int,
    priority: int,
    salespersons: set<UserId>,
    teams: set<TeamId>,
    categories: set<CategoryId>,
    products: set<ProductId>,
    customers: set<PartnerId>,
    kind: CommissionType,
    fixedAmount: real,
    percentageRate: real,
    band: Option<Band>,
    dateFrom: Option<Date>,
    dateTo: Option<Date>,
    minAmount: real,
    maxAmount: real,
    paymentTerms: set<TermId>,
    journals: set<JournalId>)

  /** The type's own setting is present. */
  predicate ConfigComplete(r: Rule)
  {
    match r.kind
    case BandType => r.band.Some?
    case FixedType => r.fixedAmount != 0.0
    case PercentageType => r.percentageRate != 0.0
    case NoneType => true
  }

  predicate DatesOrdered(r: Rule)
  {
    r.dateFrom.Some? && r.dateTo.Some? ==> Le(r.dateFrom.value, r.dateTo.value)
  }

  predicate AmountsOrdered(r: Rule)
  {
    r.minAmount != 0.0 && r.maxAmount != 0.0 ==> r.minAmount <= r.maxAmount
  }

  function CheckCommissionConfig(r: Rule): Outcome
  {
    if r.kind == BandType && r.band.None? then Fail(MissingBand)
    else if r.kind == FixedType && r.fixedAmount == 0.0 then Fail(MissingFixedAmount)
    else if r.kind == PercentageType && r.percentageRate == 0.0 then Fail(MissingPercentageRate)
    else Pass
  }

  function CheckDates(r: Rule): Outcome
  {
    if r.dateFrom.Some? && r.dateTo.Some? && Lt(r.dateTo.value, r.dateFrom.value) then Fail(RuleDatesInverted) else Pass
  }

  function CheckAmounts(r: Rule): Outcome
  {
    if r.minAmount != 0.0 && r.maxAmount != 0.0 && r.minAmount > r.maxAmount then Fail(RuleAmountsInverted) else Pass
  }

  /** The rule's constraints in the order Odoo runs them (by method name). */
  function CheckRule(r: Rule): (o: Outcome)
  {
    if CheckAmounts(r).Fail? then CheckAmounts(r)
    else if CheckCommissionConfig(r).Fail? then CheckCommissionConfig(r)
    else CheckDates(r)
  }

  predicate RuleWellFormed(r: Rule)
  {
    ConfigComplete(r) && DatesOrdered(r) && AmountsOrdered(r)
  }

  /** The checks accept exactly the well-formed rules, and each error names the
      constraint that is broken. */
  lemma CheckRuleAccepts(r: Rule)
    ensures CheckRule(r) == Pass <==> RuleWellFormed(r)
    ensures CheckRule(r) == Fail(MissingBand) ==> r.kind == BandType && r.band.None?
    ensures CheckRule(r) == Fail(MissingFixedAmount) ==> r.kind == FixedType && r.fixedAmount == 0.0
    ensures CheckRule(r) == Fail(MissingPercentageRate) ==> r.kind == PercentageType && r.percentageRate == 0.0
    ensures CheckRule(r) == Fail(RuleDatesInverted) ==> !DatesOrdered(r)
    ensures CheckRule(r) == Fail(RuleAmountsInverted) ==> !AmountsOrdered(r)
  {
    if r.dateFrom.Some? && r.dateTo.Some? {
      OrdinalOrder(r.dateFrom.value, r.dateTo.value);
      OrdinalOrder(r.dateTo.value, r.dateFrom.value);
    }
  }

  /** The type-change handler: clears the band, the fixed amount and the percentage
      unless they belong to the new type. */
  function ClearForType(r: Rule): (r': Rule)
  {
    r.(band := if r.kind == BandType then r.band else None,
       fixedAmount := if r.kind == FixedType then r.fixedAmount else 0.0,
       percentageRate := if r.kind == PercentageType then r.percentageRate else 0.0)
  }

  /** After the handler only the setting of the chosen type can be set, that setting is
      kept, nothing else changes, and running it again changes nothing. */
  lemma ClearForTypeFacts(r: Rule)
    ensures var c := ClearForType(r);
      c == r.(band := c.band, fixedAmount := c.fixedAmount, percentageRate := c.percentageRate)
      && (c.band.Some? ==> c.kind == BandType) && (c.fixedAmount != 0.0 ==> c.kind == FixedType)
      && (c.percentageRate != 0.0 ==> c.kind == PercentageType)
      && (ConfigComplete(c) <==> ConfigComplete(r))
      && ClearForType(c) == c
  {
  }

  /** A rule being edited in a form. */
  class RuleForm {
    var rule: Rule

    constructor(r: Rule)
      ensures rule == r
    {
      rule := r;
    }

    /** `_onchange_commission_type`. */
    method OnchangeCommissionType()
      modifies this
      ensures rule == ClearForType(old(rule))
    {
      if rule.kind != BandType {
        rule := rule.(band := None);
      }
      if rule.kind != FixedType {
        rule := rule.(fixedAmount := 0.0);
      }
      if rule.kind != PercentageType {
        rule := rule.(percentageRate := 0.0);
      }
    }
  }

  function InvoiceProducts(inv: Invoice): set<ProductId>
  {
    set i | 0 <= i < |inv.lines| && inv.lines[i].product.Some? :: inv.lines[i].product.value.id
  }

  function InvoiceCategories(inv: Invoice): set<CategoryId>
  {
    set i | 0 <= i < |inv.lines| && inv.lines[i].product.Some? :: inv.lines[i].product.value.category
  }

  /** `matches_criteria`, check by check as written; `today` stands for the date used
      when no payment is given. */
  function MatchesCriteria(r: Rule, invoice: Option<Invoice>, payment: Option<Payment>, salesperson: Option<User>, today: Date): (b: bool)
  {
    var checkDate := if payment.Some? then payment.value.date else today;
    if r.dateFrom.Some? && Lt(checkDate, r.dateFrom.value) then false
    else if r.dateTo.Some? && Lt(r.dateTo.value, checkDate) then false
    else
      var amount := if payment.Some? then payment.value.amount else 0.0;
      if r.minAmount != 0.0 && amount < r.minAmount then false
      else if r.maxAmount != 0.0 && amount > r.maxAmount then false
      else if r.salespersons != {} && salesperson.Some? && salesperson.value.id !in r.salespersons then false
      else if r.teams != {} && salesperson.Some? && salesperson.value.team.Some? && salesperson.value.team.value !in r.teams then false
      else if r.customers != {} && invoice.Some? && invoice.value.partner !in r.customers then false
      else if r.paymentTerms != {} && invoice.Some? && (invoice.value.paymentTerm.None? || invoice.value.paymentTerm.value !in r.paymentTerms) then false
      else if r.journals != {} && payment.Some? && payment.value.journal !in r.journals then false
      else if (r.products != {} || r.categories != {}) && invoice.Some? then
        if r.products != {} && r.products * InvoiceProducts(invoice.value) == {} then false
        else if r.categories != {} && r.categories * InvoiceCategories(invoice.value) == {} then false
        else true
      else true
  }

  /** The validity window holds the payment date (today without a payment). */
  predicate InValidity(r: Rule, d: Date)
  {
    (r.dateFrom.Some? ==> Le(r.dateFrom.value, d)) && (r.dateTo.Some? ==> Le(d, r.dateTo.value))
  }

  /** A restriction that is set must be met by the record it concerns, when that record
      is given. */
  predicate SalespersonAllowed(r: Rule, salesperson: Option<User>)
  {
    r.salespersons != {} && salesperson.Some? ==> salesperson.value.id in r.salespersons
  }

  /** The team restriction only concerns a salesperson who has a team. */
  predicate TeamAllowed(r: Rule, salesperson: Option<User>)
  {
    r.teams != {} && salesperson.Some? && salesperson.value.team.Some? ==> salesperson.value.team.value in r.teams
  }

  predicate InvoiceAllowed(r: Rule, invoice: Option<Invoice>)
  {
    invoice.Some? ==>
      (r.customers != {} ==> invoice.value.partner in r.customers)
      && (r.paymentTerms != {} ==> invoice.value.paymentTerm.Some? && invoice.value.paymentTerm.value in r.paymentTerms)
      && (r.products != {} ==> exists p :: p in r.products && p in InvoiceProducts(invoice.value))
      && (r.categories != {} ==> exists c :: c in r.categories && c in InvoiceCategories(invoice.value))
  }

  predicate PaymentAllowed(r: Rule, payment: Option<Payment>)
  {
    var amount := if payment.Some? then payment.value.amount else 0.0;
    (r.minAmount != 0.0 ==> amount >= r.minAmount) && (r.maxAmount != 0.0 ==> amount <= r.maxAmount)
    && (r.journals != {} && payment.Some? ==> payment.value.journal in r.journals)
  }

  /** Matching is the conjunction of the independent restrictions, so the order of the
      checks does not matter. */
  lemma MatchesCriteriaIff(r: Rule, invoice: Option<Invoice>, payment: Option<Payment>, salesperson: Option<User>, today: Date)
    ensures MatchesCriteria(r, invoice, payment, salesperson, today) <==>
      InValidity(r, if payment.Some? then payment.value.date else today)
      && PaymentAllowed(r, payment)
      && SalespersonAllowed(r, salesperson)
      && TeamAllowed(r, salesperson)
      && InvoiceAllowed(r, invoice)
  {
    var d := if payment.Some? then payment.value.date else today;
    if r.dateFrom.Some? {
      OrdinalOrder(r.dateFrom.value, d);
      OrdinalOrder(d, r.dateFrom.value);
    }
    if r.dateTo.Some? {
      OrdinalOrder(r.dateTo.value, d);
      OrdinalOrder(d, r.dateTo.value);
    }
    if invoice.Some? {
      var ps, cs := InvoiceProducts(invoice.value), InvoiceCategories(invoice.value);
      assert (exists p :: p in r.products && p in ps) <==> r.products * ps != {} by {
        if r.products * ps != {} {
          var p :| p in r.products * ps;
        }
        if exists p :: p in r.products && p in ps {
          var p :| p in r.products && p in ps;
          assert p in r.products * ps;
        }
      }
      assert (exists c :: c in r.categories && c in cs) <==> r.categories * cs != {} by {
        if r.categories * cs != {} {
          var c :| c in r.categories * cs;
        }
        if exists c :: c in r.categories && c in cs {
          var c :| c in r.categories && c in cs;
          assert c in r.categories * cs;
        }
      }
    }
  }

  /** A salesperson without a team passes any team restriction, while product and
      category restrictions must both be met. */
  lemma MatchingEdgeCases(r: Rule, inv: Invoice, payment: Option<Payment>, u: User, today: Date)
    ensures MatchesCriteria(r, Some(inv), payment, Some(u.(team := None)), today) ==
      MatchesCriteria(r.(teams := {}), Some(inv), payment, Some(u.(team := None)), today)
    ensures r.products != {} && r.categories != {} && MatchesCriteria(r, Some(inv), payment, Some(u), today) ==>
      (exists p :: p in r.products && p in InvoiceProducts(inv)) && (exists c :: c in r.categories && c in InvoiceCategories(inv))
    ensures MatchesCriteria(r, None, None, None, today) <==>
      InValidity(r, today) && (r.minAmount != 0.0 ==> 0.0 >= r.minAmount) && (r.maxAmount != 0.0 ==> 0.0 <= r.maxAmount)
  {
    MatchesCriteriaIff(r, Some(inv), payment, Some(u.(team := None)), today);
    MatchesCriteriaIff(r.(teams := {}), Some(inv), payment, Some(u.(team := None)), today);
    MatchesCriteriaIff(r, Some(inv), payment, Some(u), today);
    MatchesCriteriaIff(r, None, None, None, today);
  }

  /** The values `calculate_commission` hands to the new calculation. */
  datatype CommissionData = CommissionData(
    paymentAmount: real,
    invoiceDate: Option<Date>,
    dueDate: Date,
    paymentDate: Date,
    commissionRate: real,
    commissionAmount: real,
    band: Option<BandId>,
    range: Option<RangeId>,
    daysOverdue: Option<int>)

  function CalculateCommission(r: Rule, payment: Payment, invoice: Invoice): (o: Option<CommissionData>)
  {
    match r.kind
    case NoneType => None
    case FixedType =>
      Some(CommissionData(payment.amount, invoice.invoiceDate, invoice.dueDate, payment.date, 0.0, r.fixedAmount, None, None, None))
    case PercentageType =>
      Some(CommissionData(payment.amount, invoice.invoiceDate, invoice.dueDate, payment.date,
        r.percentageRate, payment.amount * (r.percentageRate / 100.0), None, None, None))
    case BandType =>
      if r.band.None? then None
      else
        var days := DaysBetween(payment.date, invoice.dueDate);
        var res := GetCommissionRate(r.band.value, days, payment.amount, Some(payment.currency));
        if res.commissionRate > 0.0 then
          Some(CommissionData(payment.amount, invoice.invoiceDate, invoice.dueDate, payment.date,
            res.commissionRate * 100.0, payment.amount * res.commissionRate, Some(r.band.value.id), res.range, Some(days)))
        else None
  }

  /** What each commission type yields: nothing for `none`; the fixed amount with rate 0;
      the payment times the percentage, keeping the percentage as the rate; or, for a
      band, the percentage of the range the payment's days fall in, applied to the
      payment, and nothing when there is no band or that percentage is 0. */
  lemma CalculateCommissionSpec(r: Rule, payment: Payment, invoice: Invoice)
    ensures var o := CalculateCommission(r, payment, invoice);
      (o.Some? ==> (o.value.paymentAmount == payment.amount && o.value.paymentDate == payment.date
         && o.value.dueDate == invoice.dueDate && o.value.invoiceDate == invoice.invoiceDate))
      && (r.kind == NoneType ==> o.None?)
      && (r.kind == FixedType ==> o.Some? && o.value.commissionRate == 0.0 && o.value.commissionAmount == r.fixedAmount)
      && (r.kind == PercentageType ==> (o.Some? && o.value.commissionRate == r.percentageRate
            && o.value.commissionAmount == payment.amount * r.percentageRate / 100.0))
      && (r.kind == BandType && r.band.None? ==> o.None?)
      && (r.kind == BandType && r.band.Some? ==>
            var days := DaysBetween(payment.date, invoice.dueDate);
            var b := r.band.value;
            (o.Some? <==> (!CurrencyBlocked(b, Some(payment.currency))
               && FirstApplicable(b.ranges, days, payment.amount, Some(payment.currency)).Some?
               && FirstApplicable(b.ranges, days, payment.amount, Some(payment.currency)).value.commissionRate > 0.0))
            && (o.Some? ==>
                 var rg := FirstApplicable(b.ranges, days, payment.amount, Some(payment.currency)).value;
                 o.value.commissionRate == rg.commissionRate
                 && o.value.commissionAmount == payment.amount * rg.commissionRate / 100.0
                 && o.value.range == Some(rg.id) && o.value.band == Some(b.id) && o.value.daysOverdue == Some(days)))
  {
  }

  /** With a non-negative payment and well-formed settings the commission is never
      negative. */
  lemma CalculateCommissionNonNegative(r: Rule, payment: Payment, invoice: Invoice)
    requires payment.amount >= 0.0 && r.fixedAmount >= 0.0 && r.percentageRate >= 0.0
    requires r.band.Some? ==> AllWellFormed(r.band.value.ranges)
    ensures CalculateCommission(r, payment, invoice).Some? ==> CalculateCommission(r, payment, invoice).value.commissionAmount >= 0.0
  {
  }

  /** `copy`: the rule under a new id with " (copy)" and "_COPY" appended. */
  function CopyRule(r: Rule, newId: RuleId): (c: Rule)
    ensures c.name != r.name && c.code != r.code
    ensures c == r.(id := newId, name := c.name, code := c.code)
  {
    assert |r.name + " (copy)"| != |r.name| && |r.code + "_COPY"| != |r.code|;
    r.(id := newId, name := r.name + " (copy)", code := r.code + "_COPY")
  }

  /** `unique(code, company_id)`. */
  predicate CodesUniquePerCompany(rules: seq<Rule>)
  {
    forall i, j :: 0 <= i < j < |rules| && rules[i].company == rules[j].company ==> rules[i].code != rules[j].code
  }

  function CheckNewRule(rules: seq<Rule>, r: Rule): Outcome
  {
    if exists i :: 0 <= i < |rules| && rules[i].company == r.company && rules[i].code == r.code then Fail(DuplicateRuleCode)
    else CheckRule(r)
  }

  /** The rules of the database, a rule's id being its position. */
  class RuleTable {
    var rules: seq<Rule>

    ghost predicate Valid()
      reads this
    {
      (forall i :: 0 <= i < |rules| ==> rules[i].id == i)
      && CodesUniquePerCompany(rules)
      && (forall i :: 0 <= i < |rules| ==> CheckRule(rules[i]) == Pass)
    }

    constructor()
      ensures Valid() && rules == []
    {
      rules := [];
    }

    /** `create`: stores the rule under the next id, or refuses it and changes nothing. */
    method Create(r: Rule) returns (res: Result<RuleId>)
      requires Valid()
      modifies this
      ensures Valid()
      ensures CheckNewRule(old(rules), r) == Pass ==> res == Ok(|old(rules)|) && rules == old(rules) + [r.(id := |old(rules)|)]
      ensures CheckNewRule(old(rules), r).Fail? ==> res == Err(CheckNewRule(old(rules), r).error) && rules == old(rules)
    {
      var stored := r.(id := |rules|);
      assert CheckNewRule(rules, stored) == CheckNewRule(rules, r);
      var check := CheckNewRule(rules, stored);
      if check.Fail? {
        return Err(check.error);
      }
      var t := rules + [stored];
      forall i, j | 0 <= i < j < |t| && t[i].company == t[j].company ensures t[i].code != t[j].code {
        if j == |rules| {
          assert t[i] == rules[i];
        }
      }
      rules := t;
      res := Ok(|t| - 1);
    }
  }
}
