/** The payment side of the engine: the payment-level guard in front of the
    calculation trigger, and the places that fire it (posting, reconciliation,
    recalculation, the pending-commission cron and switching the skip flag off), with
    the payment's commission count and total. */
module Payments {
  import opened Common
  import opened Records
  import opened Calculations

  // ---------------------------------------------------------------------------------
  // The payment-level guard (`_trigger_commission_calculation`)

  predicate CustomerInbound(p: Payment)
  {
    p.paymentType == Inbound && p.partnerType == Customer
  }

  /** Some non-cancelled calculation of the payment exists, for whatever invoice. */
  predicate HasLiveOfPayment(cs: seq<Calculation>, pid: PaymentId)
  {
    exists j :: 0 <= j < |cs| && cs[j].payment == pid && cs[j].state != Cancelled
  }

  /** The trigger delegates only for an inbound customer payment that is reconciled, not
      skipped and without any non-cancelled calculation. */
  predicate TriggerGuard(cs: seq<Calculation>, p: Payment)
  {
    CustomerInbound(p) && p.isReconciled && !p.skipCommission && !HasLiveOfPayment(cs, p.id)
  }

  /** The calculation table after triggering the payment. */
  function PaymentTrigger(cs: seq<Calculation>, p: Payment, ctx: Context): Result<seq<Calculation>>
  {
    if TriggerGuard(cs, p) then Trigger(cs, p, ctx) else Ok(cs)
  }

  /** The table only grows, and it grows only when the guard held: the new records are
      calculated records of this payment, outside any batch. */
  lemma PaymentTriggerAppends(cs: seq<Calculation>, p: Payment, ctx: Context)
    requires Numbered(cs)
    ensures var r := PaymentTrigger(cs, p, ctx);
      r.Ok? ==> (|r.value| >= |cs| && r.value[..|cs|] == cs && Numbered(r.value)
        && (|r.value| > |cs| ==> TriggerGuard(cs, p))
        && forall j :: |cs| <= j < |r.value| ==>
             r.value[j].payment == p.id && r.value[j].state == Calculated && r.value[j].batch.None?)
  {
    if TriggerGuard(cs, p) && p.isReconciled {
      TriggerFromAppends(cs, p, 0, ctx);
    }
  }

  /** Any non-cancelled calculation of the payment blocks the whole payment, even when
      another invoice of it has no calculation yet: the guard is stricter than the
      per-invoice duplicate check. */
  lemma AnyLiveBlocksPayment(cs: seq<Calculation>, p: Payment, ctx: Context)
    requires HasLiveOfPayment(cs, p.id)
    ensures PaymentTrigger(cs, p, ctx) == Ok(cs)
  {
  }

  /** Triggering a payment a second time right after a successful run changes nothing. */
  lemma PaymentTriggerIdempotent(cs: seq<Calculation>, p: Payment, ctx: Context)
    requires PaymentTrigger(cs, p, ctx).Ok?
    ensures var r := PaymentTrigger(cs, p, ctx).value; PaymentTrigger(r, p, ctx) == Ok(r)
  {
    var r := PaymentTrigger(cs, p, ctx).value;
    if TriggerGuard(cs, p) && !HasLiveOfPayment(r, p.id) {
      TriggerIdempotent(cs, p, ctx);
      assert TriggerGuard(r, p);
    }
  }

  /** `_trigger_commission_calculation` on the calculation table. */
  method TriggerPayment(p: Payment, ct: CalculationTable, ctx: Context) returns (o: Outcome)
    requires ct.Valid()
    modifies ct
    ensures ct.Valid()
    ensures var r := PaymentTrigger(old(ct.calcs), p, ctx);
      (r.Ok? ==> o == Pass && ct.calcs == r.value) && (r.Err? ==> o == Fail(r.error) && ct.calcs == old(ct.calcs))
  {
    if p.paymentType != Inbound || p.partnerType != Customer {
      return Pass;
    }
    if !p.isReconciled {
      return Pass;
    }
    if p.skipCommission {
      return Pass;
    }
    if HasLiveOfPayment(ct.calcs, p.id) {
      return Pass;
    }
    o := ct.CalculateFromPayment(p, ctx);
  }

  /** `_trigger_commission_calculation` called from the cron, which catches the
      exception: what the trigger created before the refusal stays. */
  method TriggerPaymentCaught(p: Payment, ct: CalculationTable, ctx: Context) returns (o: Outcome)
    requires Numbered(ct.calcs)
    modifies ct
    ensures Numbered(ct.calcs)
    ensures ct.calcs == PaymentTriggerCaught(old(ct.calcs), p, ctx)
    ensures var r := PaymentTrigger(old(ct.calcs), p, ctx); (r.Ok? ==> o == Pass) && (r.Err? ==> o == Fail(r.error))
  {
    if p.paymentType != Inbound || p.partnerType != Customer || !p.isReconciled || p.skipCommission
       || HasLiveOfPayment(ct.calcs, p.id) {
      return Pass;
    }
    o := ct.CalculateFromPaymentCaught(p, ctx);
  }

  // ---------------------------------------------------------------------------------
  // Triggering a list of payments in one transaction

  /** Posting triggers inbound payments that are not skipped. */
  predicate PostSelects(p: Payment)
  {
    p.paymentType == Inbound && !p.skipCommission
  }

  /** Switching the skip flag off triggers reconciled inbound payments. */
  predicate UnskipSelects(p: Payment)
  {
    p.isReconciled && p.paymentType == Inbound
  }

  predicate IdsIn(ids: seq<PaymentId>, ps: seq<Payment>)
  {
    forall k :: 0 <= k < |ids| ==> ids[k] < |ps|
  }

  /** Triggers the selected payments among `ids` from position `k` on, one after the
      other; the first failure aborts the whole call. */
  function TriggerEach(cs: seq<Calculation>, ps: seq<Payment>, ids: seq<PaymentId>, k: nat, ctx: Context,
                       sel: Payment -> bool): Result<seq<Calculation>>
    requires k <= |ids| && IdsIn(ids, ps)
    decreases |ids| - k
  {
    if k == |ids| then Ok(cs)
    else if !sel(ps[ids[k]]) then TriggerEach(cs, ps, ids, k + 1, ctx, sel)
    else match PaymentTrigger(cs, ps[ids[k]], ctx)
      case Err(e) => Err(e)
      case Ok(next) => TriggerEach(next, ps, ids, k + 1, ctx, sel)
  }

  /** A failure-free run only appends, and every appended record belongs to a selected
      payment of the list. */
  lemma {:induction false} TriggerEachAppends(cs: seq<Calculation>, ps: seq<Payment>, ids: seq<PaymentId>, k: nat,
                                             ctx: Context, sel: Payment -> bool)
    requires k <= |ids| && IdsIn(ids, ps) && Numbered(cs)
    ensures var r := TriggerEach(cs, ps, ids, k, ctx, sel);
      r.Ok? ==> (|r.value| >= |cs| && r.value[..|cs|] == cs && Numbered(r.value)
        && forall j :: |cs| <= j < |r.value| ==>
             r.value[j].state == Calculated
             && exists m :: k <= m < |ids| && sel(ps[ids[m]]) && r.value[j].payment == ps[ids[m]].id)
    decreases |ids| - k
  {
    if k < |ids| {
      if !sel(ps[ids[k]]) {
        TriggerEachAppends(cs, ps, ids, k + 1, ctx, sel);
      } else {
        var p := ps[ids[k]];
        PaymentTriggerAppends(cs, p, ctx);
        var t := PaymentTrigger(cs, p, ctx);
        if t.Ok? {
          var next := t.value;
          TriggerEachAppends(next, ps, ids, k + 1, ctx, sel);
          var r := TriggerEach(next, ps, ids, k + 1, ctx, sel);
          if r.Ok? {
            assert r.value[..|cs|] == r.value[..|next|][..|cs|];
            forall j | |cs| <= j < |r.value|
              ensures exists m :: k <= m < |ids| && sel(ps[ids[m]]) && r.value[j].payment == ps[ids[m]].id
            {
              if j < |next| {
                assert r.value[j] == next[j];
              }
            }
          }
        }
      }
    }
  }

  /** When no payment of the list is selected the call changes nothing. */
  lemma {:induction false} NothingSelectedIsIdle(cs: seq<Calculation>, ps: seq<Payment>, ids: seq<PaymentId>, k: nat,
                                                ctx: Context, sel: Payment -> bool)
    requires k <= |ids| && IdsIn(ids, ps)
    requires forall m :: k <= m < |ids| ==> !sel(ps[ids[m]])
    ensures TriggerEach(cs, ps, ids, k, ctx, sel) == Ok(cs)
    decreases |ids| - k
  {
    if k < |ids| {
      NothingSelectedIsIdle(cs, ps, ids, k + 1, ctx, sel);
    }
  }

  /** Triggers the selected payments of the list one after the other on the calculation
      table; a failing trigger undoes the calculations of the whole call. */
  method TriggerListed(ps: seq<Payment>, ids: seq<PaymentId>, ct: CalculationTable, ctx: Context,
                       sel: Payment -> bool) returns (o: Outcome)
    requires ct.Valid() && IdsIn(ids, ps)
    modifies ct
    ensures ct.Valid()
    ensures var r := TriggerEach(old(ct.calcs), ps, ids, 0, ctx, sel);
      (r.Ok? ==> o == Pass && ct.calcs == r.value) && (r.Err? ==> o == Fail(r.error) && ct.calcs == old(ct.calcs))
  {
    var savedCalcs := ct.calcs;
    var k := 0;
    while k < |ids|
      invariant 0 <= k <= |ids| && ct.Valid()
      invariant TriggerEach(ct.calcs, ps, ids, k, ctx, sel) == TriggerEach(savedCalcs, ps, ids, 0, ctx, sel)
    {
      if sel(ps[ids[k]]) {
        var r := TriggerPayment(ps[ids[k]], ct, ctx);
        if r.Fail? {
          ct.calcs := savedCalcs;
          return r;
        }
      }
      k := k + 1;
    }
    o := Pass;
  }

  /** The payments with the given ids posted (what the accounting `action_post` does to
      the payment record itself). */
  function PostedAll(ps: seq<Payment>, ids: seq<PaymentId>): (r: seq<Payment>)
    ensures |r| == |ps|
    ensures forall j :: 0 <= j < |ps| ==> r[j] == (if j in ids then ps[j].(state := Posted) else ps[j])
  {
    seq(|ps|, j requires 0 <= j < |ps| => if j in ids then ps[j].(state := Posted) else ps[j])
  }

  /** The payments with the given ids with the skip flag set to `value`. */
  function SkipSet(ps: seq<Payment>, ids: seq<PaymentId>, value: bool): (r: seq<Payment>)
    ensures |r| == |ps|
    ensures forall j :: 0 <= j < |ps| ==> r[j] == (if j in ids then ps[j].(skipCommission := value) else ps[j])
  {
    seq(|ps|, j requires 0 <= j < |ps| => if j in ids then ps[j].(skipCommission := value) else ps[j])
  }

  // ---------------------------------------------------------------------------------
  // Recalculation (`action_recalculate_commissions`)

  /** The calculations of the payment, except paid and cancelled ones, cancelled. */
  function Recancelled(cs: seq<Calculation>, pid: PaymentId): (r: seq<Calculation>)
    ensures |r| == |cs|
    ensures forall j :: 0 <= j < |cs| ==>
      r[j] == (if cs[j].payment == pid && cs[j].state != Paid && cs[j].state != Cancelled
               then cs[j].(state := Cancelled) else cs[j])
  {
    seq(|cs|, j requires 0 <= j < |cs| =>
      if cs[j].payment == pid && cs[j].state != Paid && cs[j].state != Cancelled then cs[j].(state := Cancelled) else cs[j])
  }

  /** After the cancellation step the only non-cancelled calculations of the payment are
      its paid ones: a surviving paid calculation makes the re-trigger a no-op, and
      without one the trigger runs as on a payment never calculated. */
  lemma RecalculateEffect(cs: seq<Calculation>, p: Payment, ctx: Context)
    ensures var c := Recancelled(cs, p.id);
      (HasLiveOfPayment(c, p.id) <==> exists j :: 0 <= j < |cs| && cs[j].payment == p.id && cs[j].state == Paid)
    ensures var c := Recancelled(cs, p.id);
      (exists j :: 0 <= j < |cs| && cs[j].payment == p.id && cs[j].state == Paid) ==> PaymentTrigger(c, p, ctx) == Ok(c)
    ensures var c := Recancelled(cs, p.id);
      (forall j :: 0 <= j < |cs| && cs[j].payment == p.id ==> cs[j].state != Paid) ==>
        PaymentTrigger(c, p, ctx) == (if CustomerInbound(p) && p.isReconciled && !p.skipCommission then Trigger(c, p, ctx) else Ok(c))
  {
    var c := Recancelled(cs, p.id);
    if HasLiveOfPayment(c, p.id) {
      var j :| 0 <= j < |c| && c[j].payment == p.id && c[j].state != Cancelled;
      assert cs[j].state == Paid;
    }
    if exists j :: 0 <= j < |cs| && cs[j].payment == p.id && cs[j].state == Paid {
      var j :| 0 <= j < |cs| && cs[j].payment == p.id && cs[j].state == Paid;
      assert c[j] == cs[j];
    }
  }

  // ---------------------------------------------------------------------------------
  // The pending-commission cron (`_cron_calculate_pending_commissions`)

  /** The cron's selection, taken once on the table as it was when the cron started:
      posted, reconciled, inbound customer payments not skipped, with no calculation or
      only cancelled ones. */
  predicate CronSelects(p: Payment, start: seq<Calculation>)
  {
    p.state == Posted && CustomerInbound(p) && p.isReconciled && !p.skipCommission && !HasLiveOfPayment(start, p.id)
  }

  /** The trigger as the cron runs it, catching the refusal without undoing it. */
  function PaymentTriggerCaught(cs: seq<Calculation>, p: Payment, ctx: Context): seq<Calculation>
  {
    if TriggerGuard(cs, p) then TriggerCaught(cs, p, ctx) else cs
  }

  /** The caught trigger agrees with the trigger when that succeeds; when it is refused
      it keeps the calculations created up to and including the refused one. Either way it
      only appends calculated records of this payment, and only when the guard held. */
  lemma PaymentTriggerCaughtFacts(cs: seq<Calculation>, p: Payment, ctx: Context)
    requires Numbered(cs)
    ensures var k := PaymentTriggerCaught(cs, p, ctx); var r := PaymentTrigger(cs, p, ctx);
      |k| >= |cs| && k[..|cs|] == cs && Numbered(k)
      && (|k| > |cs| ==> TriggerGuard(cs, p))
      && (forall j :: |cs| <= j < |k| ==> k[j].payment == p.id && k[j].state == Calculated && k[j].batch.None?)
      && (r.Ok? ==> k == r.value)
      && (r.Err? ==> |k| > |cs| && CheckCalculationAmounts(k[|k| - 1]) == Fail(r.error))
  {
    if TriggerGuard(cs, p) && p.isReconciled {
      TriggerFromCaughtFacts(cs, p, 0, ctx);
    }
  }

  /** The cron over the payments from `j` on, as written: a payment whose trigger fails
      is passed over, and what its trigger created before failing stays. */
  function CronFrom(cs: seq<Calculation>, start: seq<Calculation>, ps: seq<Payment>, j: nat, ctx: Context): seq<Calculation>
    requires j <= |ps|
    decreases |ps| - j
  {
    if j == |ps| then cs
    else if !CronSelects(ps[j], start) then CronFrom(cs, start, ps, j + 1, ctx)
    else CronFrom(PaymentTriggerCaught(cs, ps[j], ctx), start, ps, j + 1, ctx)
  }

  /** The calculation belongs to a payment the cron selects from position `j` on. */
  predicate OwnedBySelected(c: Calculation, start: seq<Calculation>, ps: seq<Payment>, j: nat)
  {
    exists q :: j <= q < |ps| && CronSelects(ps[q], start) && c.payment == ps[q].id
  }

  lemma OwnedBySelectedStep(c: Calculation, start: seq<Calculation>, ps: seq<Payment>, j: nat)
    requires j < |ps|
    requires OwnedBySelected(c, start, ps, j + 1) || (CronSelects(ps[j], start) && c.payment == ps[j].id)
    ensures OwnedBySelected(c, start, ps, j)
  {
    if !(CronSelects(ps[j], start) && c.payment == ps[j].id) {
      var q :| j + 1 <= q < |ps| && CronSelects(ps[q], start) && c.payment == ps[q].id;
    }
  }

  /** The cron only appends, and every record it appends is calculated and belongs to a
      selected payment. */
  lemma {:induction false} CronFromAppends(cs: seq<Calculation>, start: seq<Calculation>, ps: seq<Payment>, j: nat, ctx: Context)
    requires j <= |ps| && Numbered(cs)
    ensures var r := CronFrom(cs, start, ps, j, ctx);
      |r| >= |cs| && r[..|cs|] == cs && Numbered(r)
      && forall m :: |cs| <= m < |r| ==> r[m].state == Calculated && OwnedBySelected(r[m], start, ps, j)
    decreases |ps| - j
  {
    if j < |ps| {
      var next := if CronSelects(ps[j], start) then PaymentTriggerCaught(cs, ps[j], ctx) else cs;
      if CronSelects(ps[j], start) {
        PaymentTriggerCaughtFacts(cs, ps[j], ctx);
      }
      assert CronFrom(cs, start, ps, j, ctx) == CronFrom(next, start, ps, j + 1, ctx);
      CronFromAppends(next, start, ps, j + 1, ctx);
      var r := CronFrom(next, start, ps, j + 1, ctx);
      assert r[..|cs|] == r[..|next|][..|cs|];
      forall m | |cs| <= m < |r|
        ensures OwnedBySelected(r[m], start, ps, j)
      {
        if m < |next| {
          assert r[m] == next[m];
        }
        OwnedBySelectedStep(r[m], start, ps, j);
      }
    }
  }

  /** The cron as evidently intended: a failing payment's trigger undone as a whole. */
  function AtomicCronFrom(cs: seq<Calculation>, start: seq<Calculation>, ps: seq<Payment>, j: nat, ctx: Context): seq<Calculation>
    requires j <= |ps|
    decreases |ps| - j
  {
    if j == |ps| then cs
    else if !CronSelects(ps[j], start) then AtomicCronFrom(cs, start, ps, j + 1, ctx)
    else match PaymentTrigger(cs, ps[j], ctx)
      case Err(_) => AtomicCronFrom(cs, start, ps, j + 1, ctx)
      case Ok(next) => AtomicCronFrom(next, start, ps, j + 1, ctx)
  }

  /** The intended cron only appends records of selected payments, each of which passes
      the amount constraint. */
  lemma {:induction false} AtomicCronFromAppends(cs: seq<Calculation>, start: seq<Calculation>, ps: seq<Payment>, j: nat,
                                                ctx: Context)
    requires j <= |ps| && Numbered(cs)
    ensures var r := AtomicCronFrom(cs, start, ps, j, ctx);
      |r| >= |cs| && r[..|cs|] == cs && Numbered(r)
      && forall m :: |cs| <= m < |r| ==>
           r[m].state == Calculated && CheckCalculationAmounts(r[m]) == Pass && OwnedBySelected(r[m], start, ps, j)
    decreases |ps| - j
  {
    if j < |ps| {
      var t := PaymentTrigger(cs, ps[j], ctx);
      var next := if CronSelects(ps[j], start) && t.Ok? then t.value else cs;
      if CronSelects(ps[j], start) && t.Ok? {
        PaymentTriggerAppends(cs, ps[j], ctx);
        if TriggerGuard(cs, ps[j]) && ps[j].isReconciled {
          TriggerFromAppends(cs, ps[j], 0, ctx);
        }
      }
      assert AtomicCronFrom(cs, start, ps, j, ctx) == AtomicCronFrom(next, start, ps, j + 1, ctx);
      AtomicCronFromAppends(next, start, ps, j + 1, ctx);
      var r := AtomicCronFrom(next, start, ps, j + 1, ctx);
      assert r[..|cs|] == r[..|next|][..|cs|];
      forall m | |cs| <= m < |r|
        ensures CheckCalculationAmounts(r[m]) == Pass && OwnedBySelected(r[m], start, ps, j)
      {
        if m < |next| {
          assert r[m] == next[m];
        }
        OwnedBySelectedStep(r[m], start, ps, j);
      }
    }
  }

  /** A payment whose trigger is refused halfway leaves the cron with its records up to
      and including the refused one, where the intended cron leaves none of them. */
  lemma CronKeepsRefusedPayment(cs: seq<Calculation>, p: Payment, ctx: Context)
    requires Numbered(cs) && p.state == Posted && PaymentTrigger(cs, p, ctx).Err?
    ensures var k := CronFrom(cs, cs, [p], 0, ctx);
      |k| > |cs| && k[..|cs|] == cs && CheckCalculationAmounts(k[|k| - 1]).Fail?
    ensures AtomicCronFrom(cs, cs, [p], 0, ctx) == cs
  {
    PaymentTriggerCaughtFacts(cs, p, ctx);
    assert CronSelects(p, cs);
  }

  // ---------------------------------------------------------------------------------
  // Count and total (`_compute_commission_count`, `_compute_total_commission`)

  /** `commission_calculation_count`: all calculations of the payment, cancelled ones
      included. */
  function CalculationCount(cs: seq<Calculation>, pid: PaymentId): (n: nat)
    ensures n <= |cs|
    ensures n > 0 <==> exists j :: 0 <= j < |cs| && cs[j].payment == pid
  {
    if cs == [] then 0
    else
      var last := cs[|cs| - 1];
      assert forall j :: 0 <= j < |cs| - 1 ==> cs[..|cs| - 1][j] == cs[j];
      CalculationCount(cs[..|cs| - 1], pid) + (if last.payment == pid then 1 else 0)
  }

  /** `has_commission_calculations`. */
  function HasCalculations(cs: seq<Calculation>, pid: PaymentId): (b: bool)
    ensures b <==> exists j :: 0 <= j < |cs| && cs[j].payment == pid
  {
    CalculationCount(cs, pid) > 0
  }

  predicate LiveOf(c: Calculation, p: Payment)
  {
    c.payment == p.id && c.state != Cancelled
  }

  /** The non-cancelled commissions of the payment already in its currency. */
  function SameCurrencySum(cs: seq<Calculation>, p: Payment): real
  {
    if cs == [] then 0.0
    else
      var last := cs[|cs| - 1];
      SameCurrencySum(cs[..|cs| - 1], p) + (if LiveOf(last, p) && last.currency == p.currency then last.commissionAmount else 0.0)
  }

  /** The non-cancelled commissions of the payment in other currencies, each converted into
      the payment currency at the payment date. */
  function ConvertedSum(cs: seq<Calculation>, p: Payment, convert: Converter): real
  {
    if cs == [] then 0.0
    else
      var last := cs[|cs| - 1];
      ConvertedSum(cs[..|cs| - 1], p, convert)
        + (if LiveOf(last, p) && last.currency != p.currency
           then convert(last.commissionAmount, last.currency, p.currency, p.company, p.date) else 0.0)
  }

  /** `total_commission_amount`. */
  function TotalCommission(cs: seq<Calculation>, p: Payment, convert: Converter): real
  {
    SameCurrencySum(cs, p) + ConvertedSum(cs, p, convert)
  }

  /** The plain sum of the payment's non-cancelled commissions, whatever their currency. */
  function LiveSum(cs: seq<Calculation>, p: Payment): real
  {
    if cs == [] then 0.0
    else
      var last := cs[|cs| - 1];
      LiveSum(cs[..|cs| - 1], p) + (if LiveOf(last, p) then last.commissionAmount else 0.0)
  }

  /** With a converter that leaves amounts unchanged the total is the plain sum of the
      non-cancelled commissions; in particular it is when every one of them is in the
      payment currency, whatever the converter. */
  lemma {:induction false} TotalIsLiveSum(cs: seq<Calculation>, p: Payment, convert: Converter)
    requires (forall j :: 0 <= j < |cs| && LiveOf(cs[j], p) ==> cs[j].currency == p.currency)
      || (forall a, from, to, company, date :: convert(a, from, to, company, date) == a)
    ensures TotalCommission(cs, p, convert) == LiveSum(cs, p)
  {
    if cs != [] {
      var init := cs[..|cs| - 1];
      assert forall j :: 0 <= j < |init| ==> init[j] == cs[j];
      TotalIsLiveSum(init, p, convert);
    }
  }

  /** Cancelled calculations and calculations of other payments leave the total as it is. */
  lemma TotalIgnoresOthers(cs: seq<Calculation>, c: Calculation, p: Payment, convert: Converter)
    requires !LiveOf(c, p)
    ensures TotalCommission(cs + [c], p, convert) == TotalCommission(cs, p, convert)
  {
    assert (cs + [c])[..|cs|] == cs;
  }

  // ---------------------------------------------------------------------------------
  // The table

  /** All payments, a payment's id being its position. */
  class PaymentTable {
    var payments: seq<Payment>

    ghost predicate Valid()
      reads this
    {
      forall j :: 0 <= j < |payments| ==> payments[j].id == j
    }

    constructor ()
      ensures Valid() && payments == []
    {
      payments := [];
    }

    /** `action_post`: the payments are posted, then each inbound, non-skipped one is
        triggered; a failing trigger undoes the whole call. */
    method Post(ids: seq<PaymentId>, ct: CalculationTable, ctx: Context) returns (o: Outcome)
      requires Valid() && ct.Valid() && IdsIn(ids, payments)
      modifies this, ct
      ensures Valid() && ct.Valid()
      ensures var ps := PostedAll(old(payments), ids); var r := TriggerEach(old(ct.calcs), ps, ids, 0, ctx, PostSelects);
        (r.Ok? ==> o == Pass && payments == ps && ct.calcs == r.value)
        && (r.Err? ==> o == Fail(r.error) && payments == old(payments) && ct.calcs == old(ct.calcs))
    {
      var savedPayments := payments;
      payments := PostedAll(payments, ids);
      o := TriggerListed(payments, ids, ct, ctx, PostSelects);
      if o.Fail? {
        payments := savedPayments;
      }
    }

    /** `_reconcile_create_hook`: a reconciled payment is triggered unless skipped. */
    method ReconcileHook(id: PaymentId, ct: CalculationTable, ctx: Context) returns (o: Outcome)
      requires Valid() && ct.Valid() && id < |payments|
      modifies ct
      ensures ct.Valid()
      ensures var p := payments[id]; var r := if p.skipCommission then Ok(old(ct.calcs)) else PaymentTrigger(old(ct.calcs), p, ctx);
        (r.Ok? ==> o == Pass && ct.calcs == r.value) && (r.Err? ==> o == Fail(r.error) && ct.calcs == old(ct.calcs))
    {
      o := Pass;
      if !payments[id].skipCommission {
        o := TriggerPayment(payments[id], ct, ctx);
      }
    }

    /** `action_recalculate_commissions`: cancels the payment's calculations that are
        neither paid nor cancelled, then triggers it; a failure undoes both steps. */
    method Recalculate(id: PaymentId, ct: CalculationTable, ctx: Context) returns (o: Outcome)
      requires Valid() && ct.Valid() && id < |payments|
      modifies ct
      ensures ct.Valid()
      ensures var c := Recancelled(old(ct.calcs), id); var r := PaymentTrigger(c, payments[id], ctx);
        (r.Ok? ==> o == Pass && ct.calcs == r.value) && (r.Err? ==> o == Fail(r.error) && ct.calcs == old(ct.calcs))
    {
      var savedCalcs := ct.calcs;
      var existing: seq<CalcId> := [];
      var j := 0;
      while j < |ct.calcs|
        invariant 0 <= j <= |ct.calcs| && ct.calcs == savedCalcs && InRange(existing, ct.calcs)
        invariant forall k :: 0 <= k < |existing| ==> existing[k] < j
        invariant forall m :: m in existing <==>
          (0 <= m < j && ct.calcs[m].payment == id && ct.calcs[m].state != Paid && ct.calcs[m].state != Cancelled)
      {
        var c := ct.calcs[j];
        if c.payment == id && c.state != Paid && c.state != Cancelled {
          existing := existing + [j];
        }
        j := j + 1;
      }
      var cancelled := ct.Apply(Cancel, existing);
      assert cancelled == Pass;
      forall m | 0 <= m < |savedCalcs|
        ensures ct.calcs[m] == Recancelled(savedCalcs, id)[m]
      {
      }
      assert ct.calcs == Recancelled(savedCalcs, id);
      o := TriggerPayment(payments[id], ct, ctx);
      if o.Fail? {
        ct.calcs := savedCalcs;
      }
    }

    /** `_cron_calculate_pending_commissions`: each selected payment triggered in turn, a
      failing one logged and passed over with what it created kept. The amount
      constraint can then fail on the table afterwards, so only the numbering part of
      the table invariant is kept. */
    method CronPending(ct: CalculationTable, ctx: Context)
      requires Valid() && ct.Valid()
      modifies ct
      ensures Numbered(ct.calcs)
      ensures ct.calcs == CronFrom(old(ct.calcs), old(ct.calcs), payments, 0, ctx)
    {
      ghost var start := ct.calcs;
      var pending := ct.calcs;
      var j := 0;
      while j < |payments|
        invariant 0 <= j <= |payments| && Numbered(ct.calcs)
        invariant CronFrom(ct.calcs, start, payments, j, ctx) == CronFrom(start, start, payments, 0, ctx)
        invariant pending == start
      {
        var p := payments[j];
        if p.state == Posted && CustomerInbound(p) && p.isReconciled && !p.skipCommission && !HasLiveOfPayment(pending, p.id) {
          var r := TriggerPaymentCaught(p, ct, ctx);
        }
        j := j + 1;
      }
    }

    /** `write` of the skip flag: the flag is stored, and when it is switched off every
        reconciled inbound payment of the call without a non-cancelled calculation is
        triggered; a failing trigger undoes the whole call. */
    method SetSkip(ids: seq<PaymentId>, value: bool, ct: CalculationTable, ctx: Context) returns (o: Outcome)
      requires Valid() && ct.Valid() && IdsIn(ids, payments)
      modifies this, ct
      ensures Valid() && ct.Valid()
      ensures var ps := SkipSet(old(payments), ids, value);
        var r := if value then Ok(old(ct.calcs)) else TriggerEach(old(ct.calcs), ps, ids, 0, ctx, UnskipSelects);
        (r.Ok? ==> o == Pass && payments == ps && ct.calcs == r.value)
        && (r.Err? ==> o == Fail(r.error) && payments == old(payments) && ct.calcs == old(ct.calcs))
    {
      var savedPayments := payments;
      payments := SkipSet(payments, ids, value);
      if value {
        return Pass;
      }
      // the per-payment check for a non-cancelled calculation repeats the trigger's own guard
      o := TriggerListed(payments, ids, ct, ctx, UnskipSelects);
      if o.Fail? {
        payments := savedPayments;
      }
    }

    /** `_compute_total_commission`: the sum in the payment currency, then each other
        currency's commission converted and added. */
    method ComputeTotal(id: PaymentId, cs: seq<Calculation>, convert: Converter) returns (total: real)
      requires Valid() && id < |payments|
      ensures total == TotalCommission(cs, payments[id], convert)
    {
      var p := payments[id];
      total := SameCurrencySum(cs, p);
      var j := 0;
      while j < |cs|
        invariant 0 <= j <= |cs|
        invariant total == SameCurrencySum(cs, p) + ConvertedSum(cs[..j], p, convert)
      {
        var c := cs[j];
        assert cs[..j + 1][..j] == cs[..j];
        if c.payment == p.id && c.state != Cancelled && c.currency != p.currency {
          total := total + convert(c.commissionAmount, c.currency, p.currency, p.company, p.date);
        }
        j := j + 1;
      }
      assert cs[..|cs|] == cs;
    }
  }
}
