/** The commission side of `account.move`: the statistics over an invoice's commission
    calculations, the defaulting of the delivery date and of the salesperson, and the
    commission information an invoice reports (its calculations and the rules that
    could apply to it). */
module Moves {
  import opened Common
  import opened Dates
  import opened Sorting
  import opened Records
  import opened Rules
  import opened Users

  // ---------------------------------------------------------------------------------
  // Statistics (`_compute_commission_stats`)

  /** A calculation of the invoice that is not cancelled. */
  predicate Live(c: Calculation, invoice: InvoiceId)
  {
    c.invoice == invoice && c.state != Cancelled
  }

  /** A live calculation whose `days_overdue` is not zero: the ones averaged. */
  predicate Delayed(c: Calculation, invoice: InvoiceId)
  {
    Live(c, invoice) && DaysOverdue(c) != 0
  }

  function LiveCount(cs: seq<Calculation>, invoice: InvoiceId): nat
  {
    if cs == [] then 0 else LiveCount(cs[..|cs| - 1], invoice) + (if Live(cs[|cs| - 1], invoice) then 1 else 0)
  }

  function LiveTotal(cs: seq<Calculation>, invoice: InvoiceId, rate: RateService): real
  {
    if cs == [] then 0.0
    else
      var c := cs[|cs| - 1];
      LiveTotal(cs[..|cs| - 1], invoice, rate) + (if Live(c, invoice) then CommissionAmountCompany(c, rate) else 0.0)
  }

  function DelayCount(cs: seq<Calculation>, invoice: InvoiceId): nat
  {
    if cs == [] then 0 else DelayCount(cs[..|cs| - 1], invoice) + (if Delayed(cs[|cs| - 1], invoice) then 1 else 0)
  }

  function DelaySum(cs: seq<Calculation>, invoice: InvoiceId): int
  {
    if cs == [] then 0
    else DelaySum(cs[..|cs| - 1], invoice) + (if Delayed(cs[|cs| - 1], invoice) then DaysOverdue(cs[|cs| - 1]) else 0)
  }

  /** `avg_collection_days`: the mean of the non-zero `days_overdue`, 0 when there are
      none. */
  function AvgCollectionDays(cs: seq<Calculation>, invoice: InvoiceId): real
  {
    if DelayCount(cs, invoice) > 0 then DelaySum(cs, invoice) as real / DelayCount(cs, invoice) as real else 0.0
  }

  /** `_compute_commission_stats` for one invoice: the number of its live calculations,
      their total in the company currency and the average collection days. */
  method CommissionStats(cs: seq<Calculation>, invoice: InvoiceId, rate: RateService) returns (count: nat, total: real, avg: real)
    ensures count == LiveCount(cs, invoice) && total == LiveTotal(cs, invoice, rate)
    ensures avg == AvgCollectionDays(cs, invoice)
  {
    count, total := 0, 0.0;
    var daysSum, daysCount := 0, 0;
    var i := 0;
    while i < |cs|
      invariant 0 <= i <= |cs|
      invariant count == LiveCount(cs[..i], invoice) && total == LiveTotal(cs[..i], invoice, rate)
      invariant daysSum == DelaySum(cs[..i], invoice) && daysCount == DelayCount(cs[..i], invoice)
    {
      assert cs[..i + 1][..i] == cs[..i];
      var c := cs[i];
      if Live(c, invoice) {
        count := count + 1;
        total := total + CommissionAmountCompany(c, rate);
        var d := DaysOverdue(c);
        if d != 0 {
          daysSum := daysSum + d;
          daysCount := daysCount + 1;
        }
      }
      i := i + 1;
    }
    assert cs[..i] == cs;
    avg := if daysCount > 0 then daysSum as real / daysCount as real else 0.0;
  }

  /** Cancelled calculations and those of other invoices change none of the
      statistics. */
  lemma {:induction false} StatsIgnoreOthers(cs: seq<Calculation>, extra: seq<Calculation>, invoice: InvoiceId, rate: RateService)
    requires forall i :: 0 <= i < |extra| ==> !Live(extra[i], invoice)
    ensures LiveCount(cs + extra, invoice) == LiveCount(cs, invoice)
    ensures LiveTotal(cs + extra, invoice, rate) == LiveTotal(cs, invoice, rate)
    ensures DelayCount(cs + extra, invoice) == DelayCount(cs, invoice) && DelaySum(cs + extra, invoice) == DelaySum(cs, invoice)
    ensures AvgCollectionDays(cs + extra, invoice) == AvgCollectionDays(cs, invoice)
  {
    if extra != [] {
      var init := extra[..|extra| - 1];
      assert (cs + extra)[..|cs + extra| - 1] == cs + init;
      StatsIgnoreOthers(cs, init, invoice, rate);
    } else {
      assert cs + extra == cs;
    }
  }

  /** A calculation paid on its due date is counted but not averaged. */
  lemma OnTimeCountedNotAveraged(cs: seq<Calculation>, c: Calculation, invoice: InvoiceId)
    requires Live(c, invoice) && DaysOverdue(c) == 0
    ensures LiveCount(cs + [c], invoice) == LiveCount(cs, invoice) + 1
    ensures AvgCollectionDays(cs + [c], invoice) == AvgCollectionDays(cs, invoice)
  {
    assert (cs + [c])[..|cs|] == cs;
  }

  /** No more calculations are averaged than counted. */
  lemma {:induction false} DelayAtMostLive(cs: seq<Calculation>, invoice: InvoiceId)
    ensures DelayCount(cs, invoice) <= LiveCount(cs, invoice)
  {
    if cs != [] {
      DelayAtMostLive(cs[..|cs| - 1], invoice);
    }
  }

  lemma {:induction false} DelaySumBounds(cs: seq<Calculation>, invoice: InvoiceId, lo: int, hi: int)
    requires forall i :: 0 <= i < |cs| && Delayed(cs[i], invoice) ==> lo <= DaysOverdue(cs[i]) <= hi
    ensures lo * DelayCount(cs, invoice) <= DelaySum(cs, invoice) <= hi * DelayCount(cs, invoice)
  {
    if cs != [] {
      var init := cs[..|cs| - 1];
      assert forall i :: 0 <= i < |init| ==> init[i] == cs[i];
      DelaySumBounds(init, invoice, lo, hi);
      MulStep(lo, DelayCount(init, invoice));
      MulStep(hi, DelayCount(init, invoice));
    }
  }

  /** The average lies between the smallest and the largest non-zero delay. */
  lemma AvgWithinBounds(cs: seq<Calculation>, invoice: InvoiceId, lo: int, hi: int)
    requires forall i :: 0 <= i < |cs| && Delayed(cs[i], invoice) ==> lo <= DaysOverdue(cs[i]) <= hi
    ensures DelayCount(cs, invoice) > 0 ==> lo as real <= AvgCollectionDays(cs, invoice) <= hi as real
  {
    DelaySumBounds(cs, invoice, lo, hi);
    if DelayCount(cs, invoice) > 0 {
      QuotientOfBounded(DelaySum(cs, invoice), DelayCount(cs, invoice), lo, hi);
    }
  }

  /** Non-negative amounts at non-negative rates give a non-negative total. */
  lemma {:induction false} TotalNonNegative(cs: seq<Calculation>, invoice: InvoiceId, rate: RateService)
    requires forall i :: 0 <= i < |cs| && Live(cs[i], invoice) ==> cs[i].commissionAmount >= 0.0 && ExchangeRate(cs[i], rate) >= 0.0
    ensures LiveTotal(cs, invoice, rate) >= 0.0
  {
    if cs != [] {
      var init := cs[..|cs| - 1];
      assert forall i :: 0 <= i < |init| ==> init[i] == cs[i];
      TotalNonNegative(init, invoice, rate);
      var c := cs[|cs| - 1];
      if Live(c, invoice) {
        ProductNonNegative(c.commissionAmount, ExchangeRate(c, rate));
      }
    }
  }

  lemma ProductNonNegative(a: real, b: real)
    requires a >= 0.0 && b >= 0.0
    ensures a * b >= 0.0
  {
  }

  // ---------------------------------------------------------------------------------
  // The invoice table: delivery date and salesperson defaulting

  /** The first value that is set, in order. */
  function FirstSet(s: seq<Option<User>>): Option<User>
  {
    if s == [] then None else if s[0].Some? then s[0] else FirstSet(s[1..])
  }

  /** `_onchange_invoice_date_set_delivery`: a set delivery date is kept; an unset one
      takes the invoice date. */
  function DeliveryOnChange(inv: Invoice): Invoice
  {
    if inv.invoiceDate.Some? && inv.deliveryDate.None? then inv.(deliveryDate := inv.invoiceDate) else inv
  }

  /** The delivery date that `_post` fills in: only on sale documents, and only when
      unset. */
  function DeliveryOnPost(inv: Invoice): Invoice
  {
    if inv.isSaleDocument && inv.deliveryDate.None? then inv.(deliveryDate := inv.invoiceDate) else inv
  }

  /** The salesperson `_get_invoice_computed_account` leaves on the invoice: the one set,
      else the move's `user_id`, else the leader of the sales team. */
  function DefaultSalesperson(inv: Invoice): Invoice
  {
    if inv.salesperson.None? && inv.moveUser.Some? then inv.(salesperson := inv.moveUser)
    else if inv.salesperson.None? && inv.team.Some? && inv.teamLeader.Some? then inv.(salesperson := inv.teamLeader)
    else inv
  }

  /** Changing the invoice date changes only the delivery date, which it keeps when set
      and otherwise takes from the invoice date; posting does the same on a sale document
      and nothing on any other; and doing either again changes nothing. */
  lemma DeliveryDefaultsAgree(inv: Invoice)
    ensures DeliveryOnChange(inv).(deliveryDate := inv.deliveryDate) == inv
    ensures DeliveryOnChange(inv).deliveryDate == if inv.deliveryDate.Some? then inv.deliveryDate else inv.invoiceDate
    ensures !inv.isSaleDocument ==> DeliveryOnPost(inv) == inv
    ensures inv.isSaleDocument ==> DeliveryOnPost(inv) == DeliveryOnChange(inv)
    ensures DeliveryOnChange(DeliveryOnChange(inv)) == DeliveryOnChange(inv)
    ensures DeliveryOnPost(DeliveryOnPost(inv)) == DeliveryOnPost(inv)
  {
  }

  /** A posted sale document with an invoice date has a delivery date. */
  lemma PostedSaleHasDelivery(inv: Invoice)
    requires inv.isSaleDocument && inv.invoiceDate.Some?
    ensures DeliveryOnPost(inv).deliveryDate.Some?
  {
  }

  /** Defaulting changes only the salesperson, to the first that is set of the invoice's
      own, the move's `user_id` and the team leader (of a team that is set); so it never
      replaces a salesperson, leaves none only when there is nobody to take, and doing it
      again changes nothing. */
  lemma DefaultSalespersonSpec(inv: Invoice)
    ensures DefaultSalesperson(inv) ==
      inv.(salesperson := FirstSet([inv.salesperson, inv.moveUser, if inv.team.Some? then inv.teamLeader else None]))
    ensures inv.salesperson.Some? ==> DefaultSalesperson(inv) == inv
    ensures DefaultSalesperson(inv).salesperson.None? <==>
      inv.salesperson.None? && inv.moveUser.None? && (inv.team.None? || inv.teamLeader.None?)
    ensures DefaultSalesperson(DefaultSalesperson(inv)) == DefaultSalesperson(inv)
  {
    var leader := if inv.team.Some? then inv.teamLeader else None;
    var opts := [inv.salesperson, inv.moveUser, leader];
    assert opts[1..] == [inv.moveUser, leader] && opts[1..][1..] == [leader] && [leader][1..] == [];
    assert FirstSet([leader]) == leader;
    assert FirstSet([inv.moveUser, leader]) == if inv.moveUser.Some? then inv.moveUser else leader;
    assert FirstSet(opts) == if inv.salesperson.Some? then inv.salesperson else FirstSet([inv.moveUser, leader]);
  }

  /** The invoices (`account.move` records) as far as commissions change them, each at
      the position of its id. */
  class MoveTable {
    var moves: seq<Invoice>

    ghost predicate Valid()
      reads this
    {
      forall j :: 0 <= j < |moves| ==> moves[j].id == j
    }

    constructor()
      ensures Valid() && moves == []
    {
      moves := [];
    }

    /** `_onchange_invoice_date_set_delivery` on one invoice. */
    method OnchangeInvoiceDate(id: InvoiceId)
      requires Valid() && id < |moves|
      modifies this
      ensures Valid()
      ensures moves == old(moves)[id := DeliveryOnChange(old(moves)[id])]
    {
      var inv := moves[id];
      if inv.invoiceDate.Some? && inv.deliveryDate.None? {
        moves := moves[id := inv.(deliveryDate := inv.invoiceDate)];
      }
    }

    /** The salesperson side effect of `_get_invoice_computed_account` on one invoice. */
    method ComputeSalesperson(id: InvoiceId)
      requires Valid() && id < |moves|
      modifies this
      ensures Valid()
      ensures moves == old(moves)[id := DefaultSalesperson(old(moves)[id])]
    {
      var inv := moves[id];
      if inv.salesperson.None? && inv.moveUser.Some? {
        moves := moves[id := inv.(salesperson := inv.moveUser)];
      } else if inv.salesperson.None? && inv.team.Some? && inv.teamLeader.Some? {
        moves := moves[id := inv.(salesperson := inv.teamLeader)];
      }
    }

    /** The delivery-date defaulting of `_post` over the selected invoices (the posting
        itself belongs to the accounting module). */
    method Post(ids: seq<InvoiceId>)
      requires Valid() && forall k :: 0 <= k < |ids| ==> ids[k] < |moves|
      modifies this
      ensures Valid() && |moves| == |old(moves)|
      ensures forall j :: 0 <= j < |moves| ==> moves[j] == if j in ids then DeliveryOnPost(old(moves)[j]) else old(moves)[j]
    {
      ghost var start := moves;
      var k := 0;
      while k < |ids|
        invariant 0 <= k <= |ids| && Valid() && |moves| == |start|
        invariant forall j :: 0 <= j < |moves| ==> moves[j] == if j in ids[..k] then DeliveryOnPost(start[j]) else start[j]
      {
        var id := ids[k];
        var inv := moves[id];
        if inv.isSaleDocument && inv.deliveryDate.None? {
          moves := moves[id := inv.(deliveryDate := inv.invoiceDate)];
        }
        assert ids[..k + 1] == ids[..k] + [id];
        k := k + 1;
      }
      assert ids[..k] == ids;
    }
  }

  // ---------------------------------------------------------------------------------
  // Commission information (`get_commission_info`)

  /** A calculation as the information lists it (ids where the source shows names). */
  datatype CalcEntry = CalcEntry(
    payment: PaymentId,
    paymentDate: Option<Date>,
    daysOverdue: int,
    commissionAmount: real,
    currency: Currency,
    state: CalcState,
    rule: Option<RuleId>)           // None is shown as "Direct"

  function EntryOf(c: Calculation): CalcEntry
  {
    CalcEntry(c.payment, c.paymentDate, DaysOverdue(c), c.commissionAmount, c.currency, c.state, c.rule)
  }

  /** A potential rule as the information lists it. */
  datatype RuleEntry = RuleEntry(name: string, priority: int, kind: CommissionType, band: Option<string>)

  function RuleEntryOf(r: Rule): RuleEntry
  {
    RuleEntry(r.name, r.priority, r.kind, if r.band.Some? then Some(r.band.value.name) else None)
  }

  datatype Info = Info(
    invoice: string,
    salesperson: Option<string>,    // None is shown as "Not assigned"
    skipCommission: bool,
    overrideRule: Option<RuleId>,   // None is shown as "None"
    calculations: seq<CalcEntry>,
    potentialRules: seq<RuleEntry>)

  /** The entries of the invoice's live calculations, in table order. */
  function CalcEntries(cs: seq<Calculation>, invoice: InvoiceId): seq<CalcEntry>
  {
    if cs == [] then []
    else CalcEntries(cs[..|cs| - 1], invoice) + (if Live(cs[|cs| - 1], invoice) then [EntryOf(cs[|cs| - 1])] else [])
  }

  /** The pre-filter of a candidate rule: a customer, salesperson or team restriction
      that is set must be met by the invoice; an invoice without a team meets no team
      restriction. */
  predicate Unrestricted(r: Rule, inv: Invoice)
  {
    (r.customers != {} ==> inv.partner in r.customers)
    && (r.salespersons != {} ==> inv.salesperson.Some? && inv.salesperson.value.id in r.salespersons)
    && (r.teams != {} ==> inv.team.Some? && inv.team.value in r.teams)
  }

  /** The candidates that pass the pre-filter, in the order given. */
  function Potential(cands: seq<Rule>, inv: Invoice): seq<Rule>
  {
    if cands == [] then []
    else Potential(cands[..|cands| - 1], inv) + (if Unrestricted(cands[|cands| - 1], inv) then [cands[|cands| - 1]] else [])
  }

  /** The potential rules: none without a salesperson or with commissions skipped; else
      the active rules of the invoice's company, in `priority, sequence` order, that pass
      the pre-filter. */
  function PotentialRules(inv: Invoice, rules: seq<Rule>): seq<Rule>
  {
    if inv.salesperson.Some? && !inv.skipCommission then Potential(Candidates(rules, inv.company, None), inv) else []
  }

  /** `get_commission_info`. */
  method GetCommissionInfo(inv: Invoice, cs: seq<Calculation>, rules: seq<Rule>) returns (info: Info)
    ensures info.invoice == inv.name && info.skipCommission == inv.skipCommission && info.overrideRule == inv.overrideRule
    ensures info.salesperson == if inv.salesperson.Some? then Some(inv.salesperson.value.name) else None
    ensures info.calculations == CalcEntries(cs, inv.id)
    ensures info.potentialRules == Map(PotentialRules(inv, rules), RuleEntryOf)
  {
    var calcs := ListCalculations(cs, inv.id);
    var potential := [];
    if inv.salesperson.Some? && !inv.skipCommission {
      potential := ListPotentialRules(Candidates(rules, inv.company, None), inv);
    }
    var name := if inv.salesperson.Some? then Some(inv.salesperson.value.name) else None;
    info := Info(inv.name, name, inv.skipCommission, inv.overrideRule, calcs, potential);
  }

  /** The loop of `get_commission_info` over the invoice's calculations. */
  method ListCalculations(cs: seq<Calculation>, invoice: InvoiceId) returns (calcs: seq<CalcEntry>)
    ensures calcs == CalcEntries(cs, invoice)
  {
    calcs := [];
    var i := 0;
    while i < |cs|
      invariant 0 <= i <= |cs| && calcs == CalcEntries(cs[..i], invoice)
    {
      assert cs[..i + 1][..i] == cs[..i];
      if cs[i].state != Cancelled && cs[i].invoice == invoice {
        calcs := calcs + [EntryOf(cs[i])];
      }
      i := i + 1;
    }
    assert cs[..i] == cs;
  }

  /** The loop of `get_commission_info` over the candidate rules, skipping those whose
      restrictions the invoice does not meet. */
  method ListPotentialRules(cands: seq<Rule>, inv: Invoice) returns (potential: seq<RuleEntry>)
    requires inv.salesperson.Some?
    ensures potential == Map(Potential(cands, inv), RuleEntryOf)
  {
    potential := [];
    ghost var kept := [];
    var k := 0;
    while k < |cands|
      invariant 0 <= k <= |cands| && kept == Potential(cands[..k], inv) && potential == Map(kept, RuleEntryOf)
    {
      assert cands[..k + 1][..k] == cands[..k];
      var r := cands[k];
      var skip := false;
      if r.customers != {} && inv.partner !in r.customers {
        skip := true;
      } else if r.salespersons != {} && inv.salesperson.value.id !in r.salespersons {
        skip := true;
      } else if r.teams != {} && (inv.team.None? || inv.team.value !in r.teams) {
        skip := true;
      }
      if !skip {
        MapAppend(kept, r, RuleEntryOf);
        kept := kept + [r];
        potential := potential + [RuleEntryOf(r)];
      }
      k := k + 1;
    }
    assert cands[..k] == cands;
  }

  lemma MapAppend<T, U>(s: seq<T>, x: T, f: T -> U)
    ensures Map(s + [x], f) == Map(s, f) + [f(x)]
  {
    var a := Map(s + [x], f);
    var b := Map(s, f) + [f(x)];
    assert |a| == |b|;
    forall i | 0 <= i < |a| ensures a[i] == b[i] {
      if i < |s| {
        assert (s + [x])[i] == s[i];
      }
    }
  }

  /** The calculation list holds one entry per live calculation of the invoice, the
      number the statistics count. */
  lemma {:induction false} CalcEntriesCount(cs: seq<Calculation>, invoice: InvoiceId)
    ensures |CalcEntries(cs, invoice)| == LiveCount(cs, invoice)
  {
    if cs != [] {
      CalcEntriesCount(cs[..|cs| - 1], invoice);
    }
  }

  /** An entry is listed exactly when it is the entry of a live calculation of the
      invoice. */
  lemma {:induction false} CalcEntriesMembers(cs: seq<Calculation>, invoice: InvoiceId, e: CalcEntry)
    ensures e in CalcEntries(cs, invoice) <==> exists i :: 0 <= i < |cs| && Live(cs[i], invoice) && e == EntryOf(cs[i])
  {
    if cs != [] {
      var init := cs[..|cs| - 1];
      CalcEntriesMembers(init, invoice, e);
      assert forall i :: 0 <= i < |init| ==> init[i] == cs[i];
      if e in CalcEntries(cs, invoice) && e !in CalcEntries(init, invoice) {
        assert Live(cs[|cs| - 1], invoice) && e == EntryOf(cs[|cs| - 1]);
      }
    }
  }

  /** A rule is kept exactly when it is among the candidates and passes the pre-filter. */
  lemma {:induction false} PotentialMembers(cands: seq<Rule>, inv: Invoice, r: Rule)
    ensures r in Potential(cands, inv) <==> r in cands && Unrestricted(r, inv)
  {
    if cands != [] {
      var init := cands[..|cands| - 1];
      PotentialMembers(init, inv, r);
      assert cands == init + [cands[|cands| - 1]];
    }
  }

  /** The pre-filter keeps the order of the candidates. */
  lemma {:induction false} PotentialSorted(cands: seq<Rule>, inv: Invoice)
    requires SortedBy(cands, PriorityKey)
    ensures SortedBy(Potential(cands, inv), PriorityKey)
  {
    if cands != [] {
      var init := cands[..|cands| - 1];
      var last := cands[|cands| - 1];
      assert SortedBy(init, PriorityKey) by {
        forall i, j | 0 <= i < j < |init| ensures KeyLe(PriorityKey(init[i]), PriorityKey(init[j])) {
          assert init[i] == cands[i] && init[j] == cands[j];
        }
      }
      PotentialSorted(init, inv);
      var p := Potential(init, inv);
      if Unrestricted(last, inv) {
        forall i | 0 <= i < |p| ensures KeyLe(PriorityKey(p[i]), PriorityKey(last)) {
          PotentialMembers(init, inv, p[i]);
          var m :| 0 <= m < |init| && init[m] == p[i];
          assert cands[m] == p[i];
        }
        var q := p + [last];
        forall i, j | 0 <= i < j < |q| ensures KeyLe(PriorityKey(q[i]), PriorityKey(q[j])) {
          if j < |p| {
            assert q[i] == p[i] && q[j] == p[j];
          } else {
            assert q[i] == p[i];
          }
        }
      }
    }
  }

  /** The potential rules are exactly the active rules of the invoice's company that
      pass the pre-filter, when the invoice has a salesperson and does not skip
      commissions; and none otherwise. */
  lemma PotentialRulesMembers(inv: Invoice, rules: seq<Rule>, r: Rule)
    ensures r in PotentialRules(inv, rules) <==>
      inv.salesperson.Some? && !inv.skipCommission && r in rules && r.active && r.company == inv.company && Unrestricted(r, inv)
  {
    if inv.salesperson.Some? && !inv.skipCommission {
      var cands := Candidates(rules, inv.company, None);
      PotentialMembers(cands, inv, r);
      SortedElements(InDomain(rules, inv.company, None), PriorityKey);
    }
  }

  /** The potential rules come in `priority, sequence` order. */
  lemma PotentialRulesOrdered(inv: Invoice, rules: seq<Rule>)
    ensures SortedBy(PotentialRules(inv, rules), PriorityKey)
  {
    if inv.salesperson.Some? && !inv.skipCommission {
      SortSorted(InDomain(rules, inv.company, None), PriorityKey);
      PotentialSorted(Candidates(rules, inv.company, None), inv);
    }
  }

  /** Every active rule of the company that the engine's criteria accept for the
      invoice's salesperson is among the potential rules, provided the invoice's team is
      set and is the salesperson's team (the pre-filter reads the invoice's team, the
      criteria the salesperson's). */
  lemma MatchingRulesArePotential(inv: Invoice, rules: seq<Rule>, r: Rule, payment: Option<Payment>, today: Date)
    requires inv.salesperson.Some? && !inv.skipCommission
    requires inv.team.Some? && inv.salesperson.value.team == inv.team
    requires r in rules && r.active && r.company == inv.company
    requires MatchesCriteria(r, Some(inv), payment, inv.salesperson, today)
    ensures r in PotentialRules(inv, rules)
  {
    MatchesCriteriaIff(r, Some(inv), payment, inv.salesperson, today);
    PotentialRulesMembers(inv, rules, r);
  }
}
