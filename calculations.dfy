/** The commission calculation records and their workflow: the six-state machine with its
    guards, validation with the salesperson's minimum and maximum, detaching from a batch,
    the creation of calculations from a reconciled payment, and the validation cron. */
module Calculations {
  import opened Common
  import opened Dates
  import opened Records
  import opened Rules
  import opened Configs
  import opened Users

  // ---------------------------------------------------------------------------------
  // The state machine of one calculation

  datatype Action = Calculate | Validate | Approve | MarkPaid | Cancel | Reset

  /** The state each action leads to when it is allowed. */
  function Target(a: Action): CalcState
  {
    match a
    case Calculate => Calculated
    case Validate => Validated
    case Approve => Approved
    case MarkPaid => Paid
    case Cancel => Cancelled
    case Reset => Draft
  }

  /** Where an action takes a calculation in state `s`, `None` when its guard refuses:
      validate needs calculated, approve validated, mark-paid approved, and cancel and
      reset refuse only a paid calculation; calculate has no guard. */
  function Step(a: Action, s: CalcState): (r: Option<CalcState>)
    ensures r.Some? ==> r.value == Target(a)
    ensures r == Some(Paid) ==> a == MarkPaid && s == Approved
    ensures r == Some(Approved) ==> a == Approve && s == Validated
    ensures r == Some(Validated) ==> a == Validate && s == Calculated
    ensures s == Paid && r.Some? ==> a == Calculate
    ensures (a == Cancel || a == Reset) ==> (r.None? <==> s == Paid)
    ensures a == Calculate ==> r.Some?
  {
    match a
    case Calculate => Some(Calculated)
    case Validate => if s == Calculated then Some(Validated) else None
    case Approve => if s == Validated then Some(Approved) else None
    case MarkPaid => if s == Approved then Some(Paid) else None
    case Cancel => if s != Paid then Some(Cancelled) else None
    case Reset => if s != Paid then Some(Draft) else None
  }

  /** The error an action raises when its guard refuses a calculation. */
  function StepError(a: Action): Error
  {
    match a
    case Calculate => OnlyCalculatedCanBeValidated   // never raised
    case Validate => OnlyCalculatedCanBeValidated
    case Approve => OnlyValidatedCanBeApproved
    case MarkPaid => OnlyApprovedCanBePaid
    case Cancel => CannotCancelPaid
    case Reset => CannotResetPaid
  }

  /** Runs actions one after the other, stopping at the first refusal. */
  function Run(acts: seq<Action>, s: CalcState): Option<CalcState>
  {
    if acts == [] then Some(s)
    else match Step(acts[0], s)
      case None => None
      case Some(t) => Run(acts[1..], t)
  }

  /** The action that leads into a state of the approval chain, and the state it
      needs. */
  function Into(t: CalcState): Action
  {
    if t == Paid then MarkPaid else if t == Approved then Approve else Validate
  }

  function Before(t: CalcState): CalcState
  {
    if t == Paid then Approved else if t == Approved then Validated else Calculated
  }

  lemma RunPrefixStep(acts: seq<Action>, s: CalcState, k: nat)
    requires 0 < |acts| && k < |acts| && Step(acts[0], s).Some?
    ensures Run(acts[..k + 1], s) == Run(acts[1..][..k], Step(acts[0], s).value)
  {
    assert acts[..k + 1][1..] == acts[1..][..k];
  }

  /** Reaching a validated, approved or paid state from another state means the last
      entry into it came from its required predecessor through its own action. */
  lemma {:induction false} ReachThrough(acts: seq<Action>, s: CalcState, t: CalcState)
    requires t == Paid || t == Approved || t == Validated
    requires s != t && Run(acts, s) == Some(t)
    ensures exists k :: 0 <= k < |acts| && acts[k] == Into(t) && Run(acts[..k], s) == Some(Before(t))
  {
    var u := Step(acts[0], s).value;
    if u == t {
      assert acts[..0] == [];
      assert acts[0] == Into(t) && Run(acts[..0], s) == Some(Before(t));
    } else {
      ReachThrough(acts[1..], u, t);
      var k :| 0 <= k < |acts[1..]| && acts[1..][k] == Into(t) && Run(acts[1..][..k], u) == Some(Before(t));
      RunPrefixStep(acts, s, k);
      assert acts[k + 1] == Into(t) && Run(acts[..k + 1], s) == Some(Before(t));
    }
  }

  /** Whatever the actions in between, a calculation that was not paid becomes paid only
      through a validation, then an approval, then a mark-paid. */
  lemma PaidNeedsApproval(acts: seq<Action>, s: CalcState)
    requires s != Paid && Run(acts, s) == Some(Paid)
    ensures exists k :: 0 <= k < |acts| && acts[k] == MarkPaid && Run(acts[..k], s) == Some(Approved)
    ensures s != Approved ==> exists j, k :: 0 <= j < k < |acts| && acts[j] == Approve && acts[k] == MarkPaid
    ensures s != Approved && s != Validated ==>
      exists i, j, k :: 0 <= i < j < k < |acts| && acts[i] == Validate && acts[j] == Approve && acts[k] == MarkPaid
  {
    ReachThrough(acts, s, Paid);
    assert Into(Paid) == MarkPaid && Before(Paid) == Approved;
    var k :| 0 <= k < |acts| && acts[k] == MarkPaid && Run(acts[..k], s) == Some(Approved);
    if s != Approved {
      var p := acts[..k];
      ReachThrough(p, s, Approved);
      assert Into(Approved) == Approve && Before(Approved) == Validated;
      var j :| 0 <= j < k && p[j] == Approve && Run(p[..j], s) == Some(Validated);
      assert p[j] == acts[j];
      assert 0 <= j < k < |acts| && acts[j] == Approve && acts[k] == MarkPaid;
      if s != Validated {
        var q := p[..j];
        ReachThrough(q, s, Validated);
        var i :| 0 <= i < j && q[i] == Validate;
        assert q[i] == p[i] == acts[i];
        assert 0 <= i < j < k < |acts| && acts[i] == Validate && acts[j] == Approve && acts[k] == MarkPaid;
      }
    }
  }

  /** The calculations with the selected positions moved to state `s`. */
  function WithState(cs: seq<Calculation>, ids: seq<CalcId>, s: CalcState): (r: seq<Calculation>)
    ensures |r| == |cs|
    ensures forall j :: 0 <= j < |cs| ==> r[j] == (if j in ids then cs[j].(state := s) else cs[j])
  {
    seq(|cs|, j requires 0 <= j < |cs| => if j in ids then cs[j].(state := s) else cs[j])
  }

  /** Every calculation that names a batch names an existing one. */
  predicate BatchRefsExist(cs: seq<Calculation>, batches: seq<Batch>)
  {
    forall j :: 0 <= j < |cs| && cs[j].batch.Some? ==> cs[j].batch.value < |batches|
  }

  predicate InRange(ids: seq<CalcId>, cs: seq<Calculation>)
  {
    forall k :: 0 <= k < |ids| ==> ids[k] < |cs|
  }

  // ---------------------------------------------------------------------------------
  // Validation

  /** The minimum and then the maximum of the salesperson's configuration, each only
      when set (non-zero). */
  function Clamp(amount: real, config: Option<Config>): real
  {
    if config.None? then amount
    else
      var c := config.value;
      var raised := if c.minCommission != 0.0 && amount < c.minCommission then c.minCommission else amount;
      if c.maxCommission != 0.0 && raised > c.maxCommission then c.maxCommission else raised
  }

  /** With limits that pass the configuration check, the clamped amount lies within each
      limit that is set, an amount already within them is kept, and clamping twice is
      clamping once. Without that check the maximum wins. */
  lemma ClampFacts(amount: real, config: Option<Config>)
    ensures config.None? ==> Clamp(amount, config) == amount
    ensures config.Some? && config.value.maxCommission != 0.0 ==> Clamp(amount, config) <= config.value.maxCommission
    ensures config.Some? && CheckCommissionLimits(config.value) == Pass ==>
      var c := config.value;
      (c.minCommission != 0.0 ==> Clamp(amount, config) >= c.minCommission)
      && (((c.minCommission == 0.0 || amount >= c.minCommission) && (c.maxCommission == 0.0 || amount <= c.maxCommission))
            ==> Clamp(amount, config) == amount)
      && Clamp(Clamp(amount, config), config) == Clamp(amount, config)
  {
  }

  /** Whether one of the two writes of `action_validate` stores a negative amount, which
      the non-negative amount constraint refuses on that write: the minimum when it is
      written and negative, else the maximum when it is written and negative. */
  predicate ClampRefused(amount: real, config: Option<Config>)
  {
    config.Some? &&
      var c := config.value;
      var raised := if c.minCommission != 0.0 && amount < c.minCommission then c.minCommission else amount;
      ((c.minCommission != 0.0 && amount < c.minCommission && c.minCommission < 0.0)
       || (c.maxCommission != 0.0 && raised > c.maxCommission && c.maxCommission < 0.0))
  }

  /** The amount stored once the writes have happened: the clamped amount, except that a
      refused write of the minimum stops before the maximum is looked at. */
  function ClampWritten(amount: real, config: Option<Config>): real
  {
    if config.Some? && config.value.minCommission != 0.0 && amount < config.value.minCommission
       && config.value.minCommission < 0.0
    then config.value.minCommission
    else Clamp(amount, config)
  }

  /** For a non-negative amount a write is refused exactly when the clamped amount is
      negative, and then the stored amount is the clamped one. A negative amount that no
      write touches is not refused. */
  lemma ClampRefusedFacts(amount: real, config: Option<Config>)
    ensures amount >= 0.0 ==> (ClampRefused(amount, config) <==> Clamp(amount, config) < 0.0)
    ensures amount >= 0.0 ==> ClampWritten(amount, config) == Clamp(amount, config)
    ensures !ClampRefused(amount, config) ==> ClampWritten(amount, config) == Clamp(amount, config)
    ensures ClampRefused(amount, config) ==> ClampWritten(amount, config) < 0.0
    ensures config.Some? && (config.value.minCommission == 0.0 || amount >= config.value.minCommission)
      && (config.value.maxCommission == 0.0 || amount <= config.value.maxCommission)
      ==> !ClampRefused(amount, config) && Clamp(amount, config) == amount
  {
  }

  function ConfigOf(c: Calculation, configs: seq<Config>): Option<Config>
  {
    Find(configs, c.salesperson, c.company)
  }

  /** The checks `action_validate` makes on one calculation, in its order, ending with
      the non-negative amount constraint on the writes of the limits. */
  function ValidateCheck(c: Calculation, configs: seq<Config>, batches: seq<Batch>): Outcome
    requires c.batch.Some? ==> c.batch.value < |batches|
  {
    var config := ConfigOf(c, configs);
    if c.state != Calculated then Fail(OnlyCalculatedCanBeValidated)
    else if c.batch.Some? && batches[c.batch.value].state != BatchCalculated && batches[c.batch.value].state != Reviewed
    then Fail(BatchNotOpenForValidation)
    else if !c.isReconciled then Fail(PaymentNotReconciled)
    else if config.Some? && !config.value.commissionActive then Fail(CommissionNotActive)
    else if ClampRefused(c.commissionAmount, config) then Fail(NegativeCommissionAmount)
    else Pass
  }

  function ValidatedCalc(c: Calculation, configs: seq<Config>): Calculation
  {
    c.(commissionAmount := Clamp(c.commissionAmount, ConfigOf(c, configs)), state := Validated)
  }

  /** `action_validate` over the selection as written: each calculation is checked and
      clamped in turn, the first refusal aborts everything, and at the end the whole
      selection is written `validated`. */
  function ValidateRun(cs: seq<Calculation>, ids: seq<CalcId>, i: nat, configs: seq<Config>, batches: seq<Batch>): Result<seq<Calculation>>
    requires i <= |ids| && InRange(ids, cs) && BatchRefsExist(cs, batches)
    decreases |ids| - i
  {
    if i == |ids| then Ok(WithState(cs, ids, Validated))
    else
      var c := cs[ids[i]];
      var check := ValidateCheck(c, configs, batches);
      if check.Fail? then Err(check.error)
      else
        var next := cs[ids[i] := c.(commissionAmount := Clamp(c.commissionAmount, ConfigOf(c, configs)))];
        assert BatchRefsExist(next, batches) by {
          forall j | 0 <= j < |next| && next[j].batch.Some? ensures next[j].batch.value < |batches| {
            assert next[j].batch == cs[j].batch;
          }
        }
        ValidateRun(next, ids, i + 1, configs, batches)
  }

  /** The calculations after validating a selection that passes: each selected one is
      clamped and validated, nothing else changes. */
  function ValidatedAll(cs: seq<Calculation>, ids: seq<CalcId>, configs: seq<Config>): (r: seq<Calculation>)
    ensures |r| == |cs|
    ensures forall j :: 0 <= j < |cs| ==> r[j] == (if j in ids then ValidatedCalc(cs[j], configs) else cs[j])
  {
    seq(|cs|, j requires 0 <= j < |cs| => if j in ids then ValidatedCalc(cs[j], configs) else cs[j])
  }

  /** The calculations part-way through: the first `i` selected ones clamped. */
  function Prefixed(cs: seq<Calculation>, ids: seq<CalcId>, i: nat, configs: seq<Config>): (r: seq<Calculation>)
    requires i <= |ids|
    ensures |r| == |cs|
    ensures forall j :: 0 <= j < |cs| ==>
      r[j] == (if j in ids[..i] then cs[j].(commissionAmount := Clamp(cs[j].commissionAmount, ConfigOf(cs[j], configs))) else cs[j])
  {
    seq(|cs|, j requires 0 <= j < |cs| =>
      if j in ids[..i] then cs[j].(commissionAmount := Clamp(cs[j].commissionAmount, ConfigOf(cs[j], configs))) else cs[j])
  }

  lemma NotYetSeen(ids: seq<CalcId>, i: nat)
    requires NoDuplicates(ids) && i < |ids|
    ensures ids[i] !in ids[..i]
  {
  }

  lemma PrefixedStep(cs: seq<Calculation>, ids: seq<CalcId>, i: nat, configs: seq<Config>)
    requires NoDuplicates(ids) && i < |ids| && InRange(ids, cs)
    ensures var p := Prefixed(cs, ids, i, configs); var c := cs[ids[i]];
      p[ids[i]] == c
      && p[ids[i] := c.(commissionAmount := Clamp(c.commissionAmount, ConfigOf(c, configs)))] == Prefixed(cs, ids, i + 1, configs)
  {
    NotYetSeen(ids, i);
    assert ids[..i + 1] == ids[..i] + [ids[i]];
  }

  lemma PrefixedKeepsRefs(cs: seq<Calculation>, ids: seq<CalcId>, i: nat, configs: seq<Config>, batches: seq<Batch>)
    requires i <= |ids| && BatchRefsExist(cs, batches)
    ensures BatchRefsExist(Prefixed(cs, ids, i, configs), batches)
  {
    var p := Prefixed(cs, ids, i, configs);
    forall j | 0 <= j < |p| && p[j].batch.Some? ensures p[j].batch.value < |batches| {
      assert p[j].batch == cs[j].batch;
    }
  }

  lemma PrefixedComplete(cs: seq<Calculation>, ids: seq<CalcId>, configs: seq<Config>)
    ensures WithState(Prefixed(cs, ids, |ids|, configs), ids, Validated) == ValidatedAll(cs, ids, configs)
  {
    assert ids[..|ids|] == ids;
  }

  lemma {:induction false} ValidateRunFrom(cs: seq<Calculation>, ids: seq<CalcId>, i: nat, configs: seq<Config>, batches: seq<Batch>)
    requires NoDuplicates(ids) && i <= |ids| && InRange(ids, cs) && BatchRefsExist(cs, batches)
    ensures BatchRefsExist(Prefixed(cs, ids, i, configs), batches)
    ensures var r := ValidateRun(Prefixed(cs, ids, i, configs), ids, i, configs, batches);
      (r.Ok? <==> forall k :: i <= k < |ids| ==> ValidateCheck(cs[ids[k]], configs, batches) == Pass)
      && (r.Ok? ==> r.value == ValidatedAll(cs, ids, configs))
      && (r.Err? ==> exists k :: i <= k < |ids| && ValidateCheck(cs[ids[k]], configs, batches) == Fail(r.error)
                      && forall k' :: i <= k' < k ==> ValidateCheck(cs[ids[k']], configs, batches) == Pass)
    decreases |ids| - i
  {
    PrefixedKeepsRefs(cs, ids, i, configs, batches);
    if i == |ids| {
      PrefixedComplete(cs, ids, configs);
    } else {
      PrefixedStep(cs, ids, i, configs);
      ValidateRunFrom(cs, ids, i + 1, configs, batches);
      var check := ValidateCheck(cs[ids[i]], configs, batches);
      var r := ValidateRun(Prefixed(cs, ids, i, configs), ids, i, configs, batches);
      if check.Fail? {
        assert r == Err(check.error);
      } else {
        PrefixedKeepsRefs(cs, ids, i + 1, configs, batches);
        var r' := ValidateRun(Prefixed(cs, ids, i + 1, configs), ids, i + 1, configs, batches);
        assert r == r';
        if r'.Err? {
          var k :| i + 1 <= k < |ids| && ValidateCheck(cs[ids[k]], configs, batches) == Fail(r'.error)
                   && forall k' :: i + 1 <= k' < k ==> ValidateCheck(cs[ids[k']], configs, batches) == Pass;
          assert forall k' :: i <= k' < k ==> ValidateCheck(cs[ids[k']], configs, batches) == Pass;
        }
      }
    }
  }

  /** Validating a selection without repeats succeeds exactly when every selected
      calculation passes its checks; then each is clamped and validated and nothing else
      changes, and otherwise the error is that of the first calculation refused. */
  lemma ValidateRunSpec(cs: seq<Calculation>, ids: seq<CalcId>, configs: seq<Config>, batches: seq<Batch>)
    requires NoDuplicates(ids) && InRange(ids, cs) && BatchRefsExist(cs, batches)
    ensures var r := ValidateRun(cs, ids, 0, configs, batches);
      (r.Ok? <==> forall k :: 0 <= k < |ids| ==> ValidateCheck(cs[ids[k]], configs, batches) == Pass)
      && (r.Ok? ==> r.value == ValidatedAll(cs, ids, configs))
      && (r.Err? ==> exists k :: 0 <= k < |ids| && ValidateCheck(cs[ids[k]], configs, batches) == Fail(r.error)
                      && forall k' :: 0 <= k' < k ==> ValidateCheck(cs[ids[k']], configs, batches) == Pass)
  {
    assert Prefixed(cs, ids, 0, configs) == cs;
    ValidateRunFrom(cs, ids, 0, configs, batches);
  }

  /** A validated calculation keeps the amount constraints. */
  lemma ValidatedKeepsAmounts(c: Calculation, configs: seq<Config>, batches: seq<Batch>)
    requires c.batch.Some? ==> c.batch.value < |batches|
    requires CheckCalculationAmounts(c) == Pass && ValidateCheck(c, configs, batches) == Pass
    ensures CheckCalculationAmounts(ValidatedCalc(c, configs)) == Pass
  {
  }

  // ---------------------------------------------------------------------------------
  // Creation from a payment (`_calculate_commission_from_payment`)

  /** A non-cancelled calculation exists for the payment and the invoice. */
  predicate HasLive(cs: seq<Calculation>, payment: PaymentId, invoice: InvoiceId)
  {
    exists j :: 0 <= j < |cs| && cs[j].payment == payment && cs[j].invoice == invoice && cs[j].state != Cancelled
  }

  /** At most one non-cancelled calculation per (payment, invoice) pair. */
  predicate UniqueLive(cs: seq<Calculation>)
  {
    forall i, j :: 0 <= i < j < |cs| && cs[i].state != Cancelled && cs[j].state != Cancelled ==>
      (cs[i].payment, cs[i].invoice) != (cs[j].payment, cs[j].invoice)
  }

  /** The rule used for the invoice: the applicable one, else the configuration's default
      rule as it is, without checking that it is active or matches. */
  function ChosenRule(sp: User, configs: seq<Config>, rules: seq<Rule>, inv: Invoice, payment: Payment, today: Date): Option<Rule>
  {
    var applicable := GetApplicableRule(sp, configs, rules, Some(inv), Some(payment), today);
    var config := Find(configs, sp.id, inv.company);
    if applicable.None? && config.Some? && config.value.defaultRule.Some? then config.value.defaultRule else applicable
  }

  /** The context of one trigger run: the tables it reads and the environment. */
  datatype Context = Context(
    configs: seq<Config>,
    rules: seq<Rule>,
    company: CompanyId,             // the environment's company, the default of `company_id`
    companyCurrency: Currency,      // that company's currency
    today: Date)

  /** The reasons an invoice is passed over that do not depend on existing calculations:
      no salesperson, an inactive configuration, no rule, or no commission data. */
  predicate Skipped(inv: Invoice, payment: Payment, ctx: Context)
  {
    inv.salesperson.None?
    || (Find(ctx.configs, inv.salesperson.value.id, inv.company).Some? && !Find(ctx.configs, inv.salesperson.value.id, inv.company).value.commissionActive)
    || ChosenRule(inv.salesperson.value, ctx.configs, ctx.rules, inv, payment, ctx.today).None?
    || CalculateCommission(ChosenRule(inv.salesperson.value, ctx.configs, ctx.rules, inv, payment, ctx.today).value, payment, inv).None?
  }

  /** The calculation record created from the commission data. */
  function NewCalc(id: CalcId, payment: Payment, inv: Invoice, sp: User, rule: Rule, data: CommissionData, ctx: Context): Calculation
  {
    Calculation(id, payment.id, inv.id, sp.id, ctx.company, Some(rule.id), data.band, data.range, None,
      data.invoiceDate, Some(data.dueDate), Some(data.paymentDate), data.paymentAmount, data.commissionRate,
      data.commissionAmount, payment.currency, ctx.companyCurrency, payment.isReconciled, Calculated)
  }

  /** The calculation the trigger creates for one invoice, if any: it is skipped when
      skipped above or when a non-cancelled calculation for the pair exists. */
  function NewCalcFor(cs: seq<Calculation>, payment: Payment, inv: Invoice, ctx: Context): (r: Option<Calculation>)
    ensures r.None? <==> Skipped(inv, payment, ctx) || HasLive(cs, payment.id, inv.id)
    ensures r.Some? ==> (r.value.id == |cs| && r.value.payment == payment.id && r.value.invoice == inv.id
      && r.value.state == Calculated && r.value.batch.None? && r.value.company == ctx.company
      && r.value.salesperson == inv.salesperson.value.id)
  {
    if inv.salesperson.None? then None
    else
      var sp := inv.salesperson.value;
      var config := Find(ctx.configs, sp.id, inv.company);
      if config.Some? && !config.value.commissionActive then None
      else if HasLive(cs, payment.id, inv.id) then None
      else
        var rule := ChosenRule(sp, ctx.configs, ctx.rules, inv, payment, ctx.today);
        if rule.None? then None
        else
          var data := CalculateCommission(rule.value, payment, inv);
          if data.None? then None
          else Some(NewCalc(|cs|, payment, inv, sp, rule.value, data.value, ctx))
  }

  /** The invoices from `i` on; a calculation violating the amount constraints aborts
      the whole run. */
  function TriggerFrom(cs: seq<Calculation>, payment: Payment, i: nat, ctx: Context): Result<seq<Calculation>>
    requires i <= |payment.reconciledInvoices|
    decreases |payment.reconciledInvoices| - i
  {
    if i == |payment.reconciledInvoices| then Ok(cs)
    else
      var made := NewCalcFor(cs, payment, payment.reconciledInvoices[i], ctx);
      if made.None? then TriggerFrom(cs, payment, i + 1, ctx)
      else if CheckCalculationAmounts(made.value).Fail? then Err(CheckCalculationAmounts(made.value).error)
      else TriggerFrom(cs + [made.value], payment, i + 1, ctx)
  }

  /** One invoice of `_calculate_commission_from_payment`: a calculation appended when
    one is due, or the refusal of its amounts. */
  method TriggerStep(cs: seq<Calculation>, payment: Payment, i: nat, ctx: Context) returns (r: Result<seq<Calculation>>)
    requires i < |payment.reconciledInvoices|
    requires forall j :: 0 <= j < |cs| ==> cs[j].id == j && CheckCalculationAmounts(cs[j]) == Pass
    ensures r.Ok? ==> TriggerFrom(r.value, payment, i + 1, ctx) == TriggerFrom(cs, payment, i, ctx)
    ensures r.Ok? ==> forall j :: 0 <= j < |r.value| ==> r.value[j].id == j && CheckCalculationAmounts(r.value[j]) == Pass
    ensures r.Err? ==> TriggerFrom(cs, payment, i, ctx) == Err(r.error)
  {
    var made := NewCalcFor(cs, payment, payment.reconciledInvoices[i], ctx);
    if made.None? {
      return Ok(cs);
    }
    var check := CheckCalculationAmounts(made.value);
    if check.Fail? {
      return Err(check.error);
    }
    r := Ok(cs + [made.value]);
  }

  /** The whole trigger: nothing for an unreconciled payment. */
  function Trigger(cs: seq<Calculation>, payment: Payment, ctx: Context): Result<seq<Calculation>>
  {
    if !payment.isReconciled then Ok(cs) else TriggerFrom(cs, payment, 0, ctx)
  }

  lemma HasLiveExtends(cs: seq<Calculation>, t: seq<Calculation>, payment: PaymentId, invoice: InvoiceId)
    requires HasLive(cs, payment, invoice) && |cs| <= |t| && t[..|cs|] == cs
    ensures HasLive(t, payment, invoice)
  {
    var j :| 0 <= j < |cs| && cs[j].payment == payment && cs[j].invoice == invoice && cs[j].state != Cancelled;
    assert t[j] == t[..|cs|][j];
  }

  /** A run only appends, and what it appends are calculated records of this payment,
      of the environment's company, outside any batch, numbered on from the table. */
  lemma {:induction false} TriggerFromAppends(cs: seq<Calculation>, payment: Payment, i: nat, ctx: Context)
    requires i <= |payment.reconciledInvoices|
    requires forall j :: 0 <= j < |cs| ==> cs[j].id == j
    ensures var r := TriggerFrom(cs, payment, i, ctx);
      r.Ok? ==> (|r.value| >= |cs| && r.value[..|cs|] == cs
        && (forall j :: 0 <= j < |r.value| ==> r.value[j].id == j)
        && forall j :: |cs| <= j < |r.value| ==>
             r.value[j].state == Calculated && r.value[j].payment == payment.id && r.value[j].batch.None?
             && r.value[j].company == ctx.company && CheckCalculationAmounts(r.value[j]) == Pass)
    decreases |payment.reconciledInvoices| - i
  {
    if i < |payment.reconciledInvoices| {
      var made := NewCalcFor(cs, payment, payment.reconciledInvoices[i], ctx);
      if made.None? {
        TriggerFromAppends(cs, payment, i + 1, ctx);
      } else if CheckCalculationAmounts(made.value).Pass? {
        var cs' := cs + [made.value];
        TriggerFromAppends(cs', payment, i + 1, ctx);
        var r := TriggerFrom(cs', payment, i + 1, ctx);
        if r.Ok? {
          assert r.value[..|cs|] == r.value[..|cs'|][..|cs|];
        }
      }
    }
  }

  /** A run never creates a second non-cancelled calculation for a (payment, invoice)
      pair. */
  lemma {:induction false} TriggerFromKeepsUnique(cs: seq<Calculation>, payment: Payment, i: nat, ctx: Context)
    requires i <= |payment.reconciledInvoices| && UniqueLive(cs)
    ensures var r := TriggerFrom(cs, payment, i, ctx); r.Ok? ==> UniqueLive(r.value)
    decreases |payment.reconciledInvoices| - i
  {
    if i < |payment.reconciledInvoices| {
      var inv := payment.reconciledInvoices[i];
      var made := NewCalcFor(cs, payment, inv, ctx);
      if made.None? {
        TriggerFromKeepsUnique(cs, payment, i + 1, ctx);
      } else if CheckCalculationAmounts(made.value).Pass? {
        var cs' := cs + [made.value];
        forall a, b | 0 <= a < b < |cs'| && cs'[a].state != Cancelled && cs'[b].state != Cancelled
          ensures (cs'[a].payment, cs'[a].invoice) != (cs'[b].payment, cs'[b].invoice)
        {
          if b == |cs| {
            assert cs'[a] == cs[a];
          }
        }
        TriggerFromKeepsUnique(cs', payment, i + 1, ctx);
      }
    }
  }

  /** A run only appends to the calculations it starts from. */
  lemma {:induction false} TriggerFromGrows(cs: seq<Calculation>, payment: Payment, i: nat, ctx: Context)
    requires i <= |payment.reconciledInvoices|
    ensures var r := TriggerFrom(cs, payment, i, ctx);
      r.Ok? ==> |cs| <= |r.value| && r.value[..|cs|] == cs
    decreases |payment.reconciledInvoices| - i
  {
    if i < |payment.reconciledInvoices| {
      var made := NewCalcFor(cs, payment, payment.reconciledInvoices[i], ctx);
      if made.None? {
        TriggerFromGrows(cs, payment, i + 1, ctx);
      } else if CheckCalculationAmounts(made.value).Pass? {
        var cs' := cs + [made.value];
        TriggerFromGrows(cs', payment, i + 1, ctx);
        var r := TriggerFrom(cs', payment, i + 1, ctx);
        if r.Ok? {
          assert r.value[..|cs|] == r.value[..|cs'|][..|cs|];
        }
      }
    }
  }

  /** An invoice the trigger passes over is skipped or already covered, also in any
      extension of the calculations. */
  lemma SettledWhenNotMade(cs: seq<Calculation>, t: seq<Calculation>, payment: Payment, inv: Invoice, ctx: Context)
    requires NewCalcFor(cs, payment, inv, ctx).None? && |cs| <= |t| && t[..|cs|] == cs
    ensures Skipped(inv, payment, ctx) || HasLive(t, payment.id, inv.id)
  {
    if !Skipped(inv, payment, ctx) {
      HasLiveExtends(cs, t, payment.id, inv.id);
    }
  }

  /** An invoice the trigger creates a calculation for is covered by it. */
  lemma SettledWhenMade(cs: seq<Calculation>, t: seq<Calculation>, payment: Payment, inv: Invoice, ctx: Context)
    requires NewCalcFor(cs, payment, inv, ctx).Some? && |cs| < |t| && t[|cs|] == NewCalcFor(cs, payment, inv, ctx).value
    ensures HasLive(t, payment.id, inv.id)
  {
    assert t[|cs|].payment == payment.id && t[|cs|].invoice == inv.id && t[|cs|].state != Cancelled;
  }

  /** After a run every invoice from `i` on is either skipped or covered by a
      non-cancelled calculation. */
  lemma {:induction false} TriggerFromSettles(cs: seq<Calculation>, payment: Payment, i: nat, ctx: Context)
    requires i <= |payment.reconciledInvoices|
    ensures var r := TriggerFrom(cs, payment, i, ctx);
      r.Ok? ==> forall k :: i <= k < |payment.reconciledInvoices| ==>
        Skipped(payment.reconciledInvoices[k], payment, ctx) || HasLive(r.value, payment.id, payment.reconciledInvoices[k].id)
    decreases |payment.reconciledInvoices| - i
  {
    if i < |payment.reconciledInvoices| {
      var inv := payment.reconciledInvoices[i];
      var made := NewCalcFor(cs, payment, inv, ctx);
      var cs' := if made.None? then cs else cs + [made.value];
      if made.None? || CheckCalculationAmounts(made.value).Pass? {
        assert TriggerFrom(cs, payment, i, ctx) == TriggerFrom(cs', payment, i + 1, ctx);
        TriggerFromSettles(cs', payment, i + 1, ctx);
        TriggerFromGrows(cs', payment, i + 1, ctx);
        var r := TriggerFrom(cs', payment, i + 1, ctx);
        if r.Ok? {
          forall k | i <= k < |payment.reconciledInvoices|
            ensures Skipped(payment.reconciledInvoices[k], payment, ctx) || HasLive(r.value, payment.id, payment.reconciledInvoices[k].id)
          {
            if k == i {
              if made.None? {
                SettledWhenNotMade(cs, r.value, payment, inv, ctx);
              } else {
                assert r.value[|cs|] == r.value[..|cs'|][|cs|];
                SettledWhenMade(cs, r.value, payment, inv, ctx);
              }
            }
          }
        }
      }
    }
  }

  /** Once every invoice from `i` on is skipped or covered, a run creates nothing. */
  lemma {:induction false} SettledRunIsIdle(cs: seq<Calculation>, payment: Payment, i: nat, ctx: Context)
    requires i <= |payment.reconciledInvoices|
    requires forall k :: i <= k < |payment.reconciledInvoices| ==>
      Skipped(payment.reconciledInvoices[k], payment, ctx) || HasLive(cs, payment.id, payment.reconciledInvoices[k].id)
    ensures TriggerFrom(cs, payment, i, ctx) == Ok(cs)
    decreases |payment.reconciledInvoices| - i
  {
    if i < |payment.reconciledInvoices| {
      SettledRunIsIdle(cs, payment, i + 1, ctx);
    }
  }

  /** Running the trigger again right after a successful run creates nothing. */
  lemma TriggerIdempotent(cs: seq<Calculation>, payment: Payment, ctx: Context)
    requires Trigger(cs, payment, ctx).Ok?
    ensures var r := Trigger(cs, payment, ctx).value; Trigger(r, payment, ctx) == Ok(r)
  {
    if payment.isReconciled {
      TriggerFromSettles(cs, payment, 0, ctx);
      SettledRunIsIdle(Trigger(cs, payment, ctx).value, payment, 0, ctx);
    }
  }

  /** An unreconciled payment creates nothing; a reconciled one creates a calculation for
      exactly the invoices neither skipped nor already covered. */
  lemma TriggerCoverage(cs: seq<Calculation>, payment: Payment, ctx: Context)
    ensures !payment.isReconciled ==> Trigger(cs, payment, ctx) == Ok(cs)
    ensures UniqueLive(cs) && Trigger(cs, payment, ctx).Ok? ==> UniqueLive(Trigger(cs, payment, ctx).value)
    ensures payment.isReconciled && Trigger(cs, payment, ctx).Ok? ==>
      forall k :: 0 <= k < |payment.reconciledInvoices| ==>
        Skipped(payment.reconciledInvoices[k], payment, ctx)
        || HasLive(Trigger(cs, payment, ctx).value, payment.id, payment.reconciledInvoices[k].id)
  {
    if payment.isReconciled {
      TriggerFromSettles(cs, payment, 0, ctx);
      if UniqueLive(cs) {
        TriggerFromKeepsUnique(cs, payment, 0, ctx);
      }
    }
  }

  /** The invoices from `i` on when the caller catches the refusal without undoing it,
      as the pending-commission cron does: the record whose amounts the constraint
      refuses has already been inserted, so it stays with those before it, and the
      invoices after it are not looked at. */
  function TriggerFromCaught(cs: seq<Calculation>, payment: Payment, i: nat, ctx: Context): seq<Calculation>
    requires i <= |payment.reconciledInvoices|
    decreases |payment.reconciledInvoices| - i
  {
    if i == |payment.reconciledInvoices| then cs
    else
      var made := NewCalcFor(cs, payment, payment.reconciledInvoices[i], ctx);
      if made.None? then TriggerFromCaught(cs, payment, i + 1, ctx)
      else if CheckCalculationAmounts(made.value).Fail? then cs + [made.value]
      else TriggerFromCaught(cs + [made.value], payment, i + 1, ctx)
  }

  function TriggerCaught(cs: seq<Calculation>, payment: Payment, ctx: Context): seq<Calculation>
  {
    if !payment.isReconciled then cs else TriggerFromCaught(cs, payment, 0, ctx)
  }

  /** A caught run agrees with the run when that succeeds. When it is refused, the run
      keeps what it created, ending with the refused record itself, whose amounts fail
      with the run's error, while every earlier one passes. Either way it only appends
      calculated records of this payment, outside any batch, numbered on from the table. */
  lemma {:induction false} TriggerFromCaughtFacts(cs: seq<Calculation>, payment: Payment, i: nat, ctx: Context)
    requires i <= |payment.reconciledInvoices|
    ensures var k := TriggerFromCaught(cs, payment, i, ctx); var r := TriggerFrom(cs, payment, i, ctx);
      |k| >= |cs| && k[..|cs|] == cs && (Numbered(cs) ==> Numbered(k))
      && (forall j :: |cs| <= j < |k| ==>
            k[j].state == Calculated && k[j].payment == payment.id && k[j].batch.None? && k[j].company == ctx.company)
      && (r.Ok? ==> k == r.value)
      && (r.Err? ==> |k| > |cs| && CheckCalculationAmounts(k[|k| - 1]) == Fail(r.error)
                     && forall j :: |cs| <= j < |k| - 1 ==> CheckCalculationAmounts(k[j]) == Pass)
    decreases |payment.reconciledInvoices| - i
  {
    if i < |payment.reconciledInvoices| {
      var made := NewCalcFor(cs, payment, payment.reconciledInvoices[i], ctx);
      if made.None? {
        TriggerFromCaughtFacts(cs, payment, i + 1, ctx);
      } else if CheckCalculationAmounts(made.value).Pass? {
        var cs' := cs + [made.value];
        TriggerFromCaughtFacts(cs', payment, i + 1, ctx);
        var k := TriggerFromCaught(cs', payment, i + 1, ctx);
        assert k[..|cs|] == k[..|cs'|][..|cs|];
        assert k[|cs|] == cs'[|cs|];
      }
    }
  }

  // ---------------------------------------------------------------------------------
  // The table

  /** All calculations, a calculation's id being its position. */
  class CalculationTable {
    var calcs: seq<Calculation>

    ghost predicate Valid()
      reads this
    {
      (forall j :: 0 <= j < |calcs| ==> calcs[j].id == j)
      && forall j :: 0 <= j < |calcs| ==> CheckCalculationAmounts(calcs[j]) == Pass
    }

    constructor()
      ensures Valid() && calcs == []
    {
      calcs := [];
    }

    /** `action_calculate`, `action_approve`, `action_mark_paid`, `action_cancel` and
      `action_reset_draft`: every selected calculation is checked before any state is
      written; one refusal leaves everything as it was. */
    method Apply(a: Action, ids: seq<CalcId>) returns (o: Outcome)
      requires Valid() && InRange(ids, calcs) && a != Validate
      modifies this
      ensures Valid()
      ensures o == Pass <==> forall k :: 0 <= k < |ids| ==> Step(a, old(calcs)[ids[k]].state).Some?
      ensures o.Pass? ==> calcs == WithState(old(calcs), ids, Target(a))
      ensures o.Fail? ==> o == Fail(StepError(a)) && calcs == old(calcs)
    {
      var k := 0;
      while k < |ids|
        invariant 0 <= k <= |ids|
        invariant forall m :: 0 <= m < k ==> Step(a, calcs[ids[m]].state).Some?
      {
        if Step(a, calcs[ids[k]].state).None? {
          return Fail(StepError(a));
        }
        k := k + 1;
      }
      calcs := WithState(calcs, ids, Target(a));
      o := Pass;
    }

    /** `action_validate`. */
    method ValidateSelection(ids: seq<CalcId>, configs: seq<Config>, batches: seq<Batch>) returns (o: Outcome)
      requires Valid() && InRange(ids, calcs) && BatchRefsExist(calcs, batches)
      modifies this
      ensures Valid()
      ensures var r := ValidateRun(old(calcs), ids, 0, configs, batches);
        (r.Ok? ==> o == Pass && calcs == r.value) && (r.Err? ==> o == Fail(r.error) && calcs == old(calcs))
    {
      var next := calcs;
      var i := 0;
      while i < |ids|
        invariant 0 <= i <= |ids| && |next| == |calcs|
        invariant BatchRefsExist(next, batches)
        invariant ValidateRun(next, ids, i, configs, batches) == ValidateRun(calcs, ids, 0, configs, batches)
        invariant forall j :: 0 <= j < |next| ==> next[j].id == j && CheckCalculationAmounts(next[j]) == Pass
      {
        var c := next[ids[i]];
        var check := ValidateCheck(c, configs, batches);
        if check.Fail? {
          return Fail(check.error);
        }
        var amount := Clamp(c.commissionAmount, ConfigOf(c, configs));
        next := next[ids[i] := c.(commissionAmount := amount)];
        i := i + 1;
      }
      calcs := WithState(next, ids, Validated);
      o := Pass;
    }

    /** `action_remove_from_batch`: refused, with nothing changed, when a selected
      calculation's batch has its payment document generated or is paid. */
    method RemoveFromBatch(ids: seq<CalcId>, batches: seq<Batch>) returns (o: Outcome)
      requires Valid() && InRange(ids, calcs) && BatchRefsExist(calcs, batches)
      modifies this
      ensures Valid()
      ensures o == Pass <==> forall k :: 0 <= k < |ids| ==> !Locked(old(calcs)[ids[k]], batches)
      ensures o.Pass? ==> calcs == Detached(old(calcs), ids)
      ensures o.Fail? ==> o == Fail(BatchLocked) && calcs == old(calcs)
    {
      var next := calcs;
      var k := 0;
      while k < |ids|
        invariant 0 <= k <= |ids|
        invariant next == Detached(calcs, ids[..k])
        invariant forall m :: 0 <= m < k ==> !Locked(calcs[ids[m]], batches)
      {
        if Locked(next[ids[k]], batches) {
          assert next[ids[k]] == calcs[ids[k]];
          return Fail(BatchLocked);
        }
        assert ids[..k + 1] == ids[..k] + [ids[k]];
        next := next[ids[k] := next[ids[k]].(batch := None)];
        k := k + 1;
      }
      assert ids[..k] == ids;
      calcs := next;
      o := Pass;
    }

    /** `_calculate_commission_from_payment`. */
    method CalculateFromPayment(payment: Payment, ctx: Context) returns (o: Outcome)
      requires Valid()
      modifies this
      ensures Valid()
      ensures var r := Trigger(old(calcs), payment, ctx);
        (r.Ok? ==> o == Pass && calcs == r.value) && (r.Err? ==> o == Fail(r.error) && calcs == old(calcs))
    {
      if !payment.isReconciled {
        return Pass;
      }
      var next := calcs;
      var i := 0;
      while i < |payment.reconciledInvoices|
        invariant 0 <= i <= |payment.reconciledInvoices|
        invariant calcs == old(calcs)
        invariant TriggerFrom(next, payment, i, ctx) == TriggerFrom(calcs, payment, 0, ctx)
        invariant forall j :: 0 <= j < |next| ==> next[j].id == j && CheckCalculationAmounts(next[j]) == Pass
      {
        var step := TriggerStep(next, payment, i, ctx);
        if step.Err? {
          return Fail(step.error);
        }
        next := step.value;
        i := i + 1;
      }
      calcs := next;
      o := Pass;
    }

    /** `_calculate_commission_from_payment` called from the pending-commission cron,
      which catches its exception: each created record is stored at once, and a record
      refused by the amount constraint stays stored and ends the run. */
    method CalculateFromPaymentCaught(payment: Payment, ctx: Context) returns (o: Outcome)
      requires Numbered(calcs)
      modifies this
      ensures Numbered(calcs)
      ensures calcs == TriggerCaught(old(calcs), payment, ctx)
      ensures var r := Trigger(old(calcs), payment, ctx); (r.Ok? ==> o == Pass) && (r.Err? ==> o == Fail(r.error))
    {
      if !payment.isReconciled {
        return Pass;
      }
      ghost var start := calcs;
      TriggerFromCaughtFacts(start, payment, 0, ctx);
      var i := 0;
      while i < |payment.reconciledInvoices|
        invariant 0 <= i <= |payment.reconciledInvoices| && Numbered(calcs)
        invariant TriggerFromCaught(calcs, payment, i, ctx) == TriggerFromCaught(start, payment, 0, ctx)
        invariant TriggerFrom(calcs, payment, i, ctx) == TriggerFrom(start, payment, 0, ctx)
      {
        var made := NewCalcFor(calcs, payment, payment.reconciledInvoices[i], ctx);
        if made.Some? {
          calcs := calcs + [made.value];
          var check := CheckCalculationAmounts(made.value);
          if check.Fail? {
            return check;
          }
        }
        i := i + 1;
      }
      o := Pass;
    }

    /** `cron_validate_commissions`: validates each calculated, reconciled calculation on
      its own; a refused one is passed over, and a refused write of a limit stays stored.
      The amount constraint can then fail on the table afterwards, so only the numbering
      part of the table invariant is kept (see `CronValidatedAmounts`). */
    method CronValidate(configs: seq<Config>, batches: seq<Batch>)
      requires Valid() && BatchRefsExist(calcs, batches)
      modifies this
      ensures Numbered(calcs)
      ensures calcs == CronValidated(old(calcs), configs, batches)
    {
      var j := 0;
      ghost var start := calcs;
      while j < |calcs|
        invariant 0 <= j <= |calcs| == |start|
        invariant Numbered(calcs) && BatchRefsExist(calcs, batches)
        invariant forall m :: 0 <= m < j ==> calcs[m] == CronStep(start[m], configs, batches)
        invariant forall m :: j <= m < |calcs| ==> calcs[m] == start[m]
      {
        if calcs[j].state == Calculated && calcs[j].isReconciled {
          ValidateOne(j, configs, batches);
        }
        j := j + 1;
      }
      assert calcs == CronValidated(start, configs, batches);
    }

    /** One step of the cron, `action_validate` on `[j]` with its `UserError` caught: the
      calculation validated with its clamped amount, or, when the write of a limit is
      refused, that write kept and the state left, or nothing changed on an earlier
      refusal. */
    method ValidateOne(j: CalcId, configs: seq<Config>, batches: seq<Batch>)
      requires Numbered(calcs) && BatchRefsExist(calcs, batches) && j < |calcs|
      requires calcs[j].state == Calculated && calcs[j].isReconciled
      modifies this
      ensures Numbered(calcs) && BatchRefsExist(calcs, batches)
      ensures calcs == old(calcs)[j := CronStep(old(calcs)[j], configs, batches)]
    {
      var c := calcs[j];
      var config := ConfigOf(c, configs);
      var check := ValidateCheck(c, configs, batches);
      if check == Pass {
        calcs := calcs[j := c.(commissionAmount := Clamp(c.commissionAmount, config), state := Validated)];
      } else if check == Fail(NegativeCommissionAmount) {
        calcs := calcs[j := c.(commissionAmount := ClampWritten(c.commissionAmount, config))];
      }
    }
  }

  /** The batch of the calculation has its payment document generated or is paid. */
  predicate Locked(c: Calculation, batches: seq<Batch>)
    requires c.batch.Some? ==> c.batch.value < |batches|
  {
    c.batch.Some? && (batches[c.batch.value].state == PaymentGenerated || batches[c.batch.value].state == BatchPaid)
  }

  function Detached(cs: seq<Calculation>, ids: seq<CalcId>): (r: seq<Calculation>)
    ensures |r| == |cs|
    ensures forall j :: 0 <= j < |cs| ==> r[j] == (if j in ids then cs[j].(batch := None) else cs[j])
  {
    seq(|cs|, j requires 0 <= j < |cs| => if j in ids then cs[j].(batch := None) else cs[j])
  }

  /** The table's ids are its positions. */
  predicate Numbered(cs: seq<Calculation>)
  {
    forall j :: 0 <= j < |cs| ==> cs[j].id == j
  }

  /** The cron's effect as written: each calculation takes its own step. */
  function CronValidated(cs: seq<Calculation>, configs: seq<Config>, batches: seq<Batch>): (r: seq<Calculation>)
    requires BatchRefsExist(cs, batches)
    ensures |r| == |cs|
  {
    seq(|cs|, j requires 0 <= j < |cs| => CronStep(cs[j], configs, batches))
  }

  /** What the cron does to one calculation as written: a calculated, reconciled
      calculation that passes the checks is validated; one refused by the amount
      constraint on the write of a limit keeps that write and its state; every other is
      left as it was. */
  function CronStep(c: Calculation, configs: seq<Config>, batches: seq<Batch>): Calculation
    requires c.batch.Some? ==> c.batch.value < |batches|
  {
    if !(c.state == Calculated && c.isReconciled) then c
    else if ValidateCheck(c, configs, batches) == Pass then ValidatedCalc(c, configs)
    else if ValidateCheck(c, configs, batches) == Fail(NegativeCommissionAmount)
    then c.(commissionAmount := ClampWritten(c.commissionAmount, ConfigOf(c, configs)))
    else c
  }

  /** The cron only touches calculated, reconciled calculations: one it changes is
      validated with its clamped amount when it passed the checks, and otherwise was
      refused by the amount constraint and holds the refused, negative write with its
      state still calculated; all its other fields are kept. */
  lemma CronValidatedFacts(cs: seq<Calculation>, configs: seq<Config>, batches: seq<Batch>)
    requires BatchRefsExist(cs, batches)
    ensures forall j :: 0 <= j < |cs| && CronValidated(cs, configs, batches)[j] != cs[j] ==>
      cs[j].state == Calculated && cs[j].isReconciled
      && ((ValidateCheck(cs[j], configs, batches) == Pass
           && CronValidated(cs, configs, batches)[j] == ValidatedCalc(cs[j], configs))
          || (ValidateCheck(cs[j], configs, batches) == Fail(NegativeCommissionAmount)
              && CronValidated(cs, configs, batches)[j]
                 == cs[j].(commissionAmount := ClampWritten(cs[j].commissionAmount, ConfigOf(cs[j], configs)))
              && CronValidated(cs, configs, batches)[j].commissionAmount < 0.0))
  {
    var r := CronValidated(cs, configs, batches);
    forall j | 0 <= j < |cs| && r[j] != cs[j] && ValidateCheck(cs[j], configs, batches) != Pass
      ensures r[j].commissionAmount < 0.0
    {
      assert r[j] == CronStep(cs[j], configs, batches);
      ClampRefusedFacts(cs[j].commissionAmount, ConfigOf(cs[j], configs));
    }
  }

  /** Only a refused write breaks the amount constraint: every calculation after the cron
      passes it, save one left calculated with a refused negative write. */
  lemma CronValidatedAmounts(cs: seq<Calculation>, configs: seq<Config>, batches: seq<Batch>)
    requires BatchRefsExist(cs, batches)
    requires forall j :: 0 <= j < |cs| ==> CheckCalculationAmounts(cs[j]) == Pass
    ensures forall j :: 0 <= j < |cs| ==>
      CheckCalculationAmounts(CronValidated(cs, configs, batches)[j]) == Pass
      || (CronValidated(cs, configs, batches)[j].state == Calculated
          && ValidateCheck(cs[j], configs, batches) == Fail(NegativeCommissionAmount))
  {
    var r := CronValidated(cs, configs, batches);
    forall j | 0 <= j < |cs| ensures CheckCalculationAmounts(r[j]) == Pass
      || (r[j].state == Calculated && ValidateCheck(cs[j], configs, batches) == Fail(NegativeCommissionAmount))
    {
      assert r[j] == CronStep(cs[j], configs, batches);
      if cs[j].state == Calculated && cs[j].isReconciled && ValidateCheck(cs[j], configs, batches) == Pass {
        ValidatedKeepsAmounts(cs[j], configs, batches);
      }
    }
  }

  /** A negative maximum is validated on the second run: the first run stores it and
      leaves the calculation calculated, and the next run finds nothing to write and
      validates the negative amount. */
  lemma CronValidatesNegativeMaximum(c: Calculation, configs: seq<Config>, batches: seq<Batch>)
    requires c.batch.None? && c.state == Calculated && c.isReconciled
    requires ConfigOf(c, configs).Some? && ConfigOf(c, configs).value.commissionActive
    requires ConfigOf(c, configs).value.minCommission == 0.0
    requires ConfigOf(c, configs).value.maxCommission < 0.0 < c.commissionAmount
    ensures var max := ConfigOf(c, configs).value.maxCommission;
      CronStep(c, configs, batches) == c.(commissionAmount := max)
      && CronStep(CronStep(c, configs, batches), configs, batches) == c.(commissionAmount := max, state := Validated)
      && CheckCalculationAmounts(CronStep(CronStep(c, configs, batches), configs, batches)).Fail?
  {
    var max := ConfigOf(c, configs).value.maxCommission;
    var c1 := c.(commissionAmount := max);
    assert ConfigOf(c1, configs) == ConfigOf(c, configs);
    ClampRefusedFacts(max, ConfigOf(c1, configs));
  }

  /** The cron as evidently intended: each validation undone as a whole when refused, so
      a calculation is validated or left exactly as it was. */
  function AtomicCronStep(c: Calculation, configs: seq<Config>, batches: seq<Batch>): Calculation
    requires c.batch.Some? ==> c.batch.value < |batches|
  {
    if c.state == Calculated && c.isReconciled && ValidateCheck(c, configs, batches) == Pass
    then ValidatedCalc(c, configs) else c
  }

  function AtomicCronValidated(cs: seq<Calculation>, configs: seq<Config>, batches: seq<Batch>): (r: seq<Calculation>)
    requires BatchRefsExist(cs, batches)
    ensures |r| == |cs|
  {
    seq(|cs|, j requires 0 <= j < |cs| => AtomicCronStep(cs[j], configs, batches))
  }

  /** The intended cron only validates: a calculation it changes was calculated and
      reconciled and is now validated with its clamped amount and all else kept, the
      amount constraint holds afterwards, and a second sweep changes nothing. It differs
      from the cron as written only on calculations refused by the amount constraint. */
  lemma AtomicCronFacts(cs: seq<Calculation>, configs: seq<Config>, batches: seq<Batch>)
    requires BatchRefsExist(cs, batches)
    ensures BatchRefsExist(AtomicCronValidated(cs, configs, batches), batches)
    ensures forall j :: 0 <= j < |cs| && AtomicCronValidated(cs, configs, batches)[j] != cs[j] ==>
      cs[j].state == Calculated && cs[j].isReconciled && ValidateCheck(cs[j], configs, batches) == Pass
      && AtomicCronValidated(cs, configs, batches)[j] == ValidatedCalc(cs[j], configs)
    ensures (forall j :: 0 <= j < |cs| ==> CheckCalculationAmounts(cs[j]) == Pass) ==>
      forall j :: 0 <= j < |cs| ==> CheckCalculationAmounts(AtomicCronValidated(cs, configs, batches)[j]) == Pass
    ensures AtomicCronValidated(AtomicCronValidated(cs, configs, batches), configs, batches)
      == AtomicCronValidated(cs, configs, batches)
    ensures forall j :: 0 <= j < |cs| && ValidateCheck(cs[j], configs, batches) != Fail(NegativeCommissionAmount) ==>
      AtomicCronValidated(cs, configs, batches)[j] == CronValidated(cs, configs, batches)[j]
  {
    var r := AtomicCronValidated(cs, configs, batches);
    assert BatchRefsExist(r, batches) by {
      forall j | 0 <= j < |r| && r[j].batch.Some? ensures r[j].batch.value < |batches| {
        assert r[j].batch == cs[j].batch;
      }
    }
    if forall j :: 0 <= j < |cs| ==> CheckCalculationAmounts(cs[j]) == Pass {
      forall j | 0 <= j < |cs| ensures CheckCalculationAmounts(r[j]) == Pass {
        if r[j] != cs[j] {
          ValidatedKeepsAmounts(cs[j], configs, batches);
        }
      }
    }
    var r2 := AtomicCronValidated(r, configs, batches);
    forall j | 0 <= j < |r| ensures r2[j] == r[j] {
      assert r[j] == AtomicCronStep(cs[j], configs, batches);
    }
  }
}
