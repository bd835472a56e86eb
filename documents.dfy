/** Payment documents (`commission.payment.document`): one per batch, with one line per
    salesperson holding that salesperson's open calculations of the batch, their USD and
    VES sums and the other currencies converted into the VES amount to pay. */
module Documents {
  import opened Common
  import opened Dates
  import opened Records
  import opened Calculations

  datatype DocState = DocDraft | Confirmed | DocPaid

  /** A `commission.payment.line`. */
  datatype PaymentLine = PaymentLine(
    salesperson: UserId,
    calcs: seq<CalcId>,
    count: nat,
    usdOriginal: real,
    vesOriginal: real,
    usdPayment: real,
    vesPayment: real)

  datatype Document = Document(
    id: DocId,
    batch: BatchId,
    paymentDate: Date,
    company: CompanyId,
    state: DocState,
    lines: seq<PaymentLine>,
    rateUsdVes: real)               // exchange_rate_usd_ves

  // ---------------------------------------------------------------------------------
  // What a line is meant to hold

  /** The calculations of the batch that go into the document. */
  predicate Included(c: Calculation, b: BatchId)
  {
    c.batch == Some(b) && (c.state == Calculated || c.state == Validated || c.state == Approved)
  }

  predicate Mine(c: Calculation, b: BatchId, sp: UserId)
  {
    Included(c, b) && c.salesperson == sp
  }

  predicate IsOther(cur: Currency)
  {
    cur != USD && cur != VES
  }

  /** The included calculations of the salesperson, in table order. */
  function IdsFor(cs: seq<Calculation>, b: BatchId, sp: UserId): seq<CalcId>
  {
    if cs == [] then []
    else IdsFor(cs[..|cs| - 1], b, sp) + (if Mine(cs[|cs| - 1], b, sp) then [cs[|cs| - 1].id] else [])
  }

  /** The commission of the salesperson's included calculations in one currency. */
  function AmountIn(cs: seq<Calculation>, b: BatchId, sp: UserId, cur: Currency): real
  {
    if cs == [] then 0.0
    else
      var c := cs[|cs| - 1];
      AmountIn(cs[..|cs| - 1], b, sp, cur) + (if Mine(c, b, sp) && c.currency == cur then c.commissionAmount else 0.0)
  }

  lemma {:induction false} NothingMine(cs: seq<Calculation>, b: BatchId, sp: UserId)
    requires forall j :: 0 <= j < |cs| ==> !Mine(cs[j], b, sp)
    ensures IdsFor(cs, b, sp) == []
    ensures forall cur :: AmountIn(cs, b, sp, cur) == 0.0
  {
    if cs != [] {
      var init := cs[..|cs| - 1];
      assert forall j :: 0 <= j < |init| ==> init[j] == cs[j];
      NothingMine(init, b, sp);
    }
  }

  // ---------------------------------------------------------------------------------
  // The grouping loop (`salesperson_data`)

  /** The running sum of one other currency. */
  datatype OtherTotal = OtherTotal(currency: Currency, amount: real)

  /** The running data of one salesperson. */
  datatype Group = Group(salesperson: UserId, calcs: seq<CalcId>, usd: real, ves: real, other: seq<OtherTotal>)

  function FindOther(os: seq<OtherTotal>, cur: Currency): (k: nat)
    ensures k <= |os| && (k < |os| ==> os[k].currency == cur)
    ensures k == |os| ==> forall j :: 0 <= j < |os| ==> os[j].currency != cur
  {
    if os == [] then 0 else if os[0].currency == cur then 0 else 1 + FindOther(os[1..], cur)
  }

  function FindGroup(gs: seq<Group>, sp: UserId): (k: nat)
    ensures k <= |gs| && (k < |gs| ==> gs[k].salesperson == sp)
    ensures k == |gs| ==> forall j :: 0 <= j < |gs| ==> gs[j].salesperson != sp
  {
    if gs == [] then 0 else if gs[0].salesperson == sp then 0 else 1 + FindGroup(gs[1..], sp)
  }

  function AddOther(os: seq<OtherTotal>, cur: Currency, amount: real): seq<OtherTotal>
  {
    var k := FindOther(os, cur);
    if k < |os| then os[k := os[k].(amount := os[k].amount + amount)] else os + [OtherTotal(cur, amount)]
  }

  /** One calculation added to its salesperson's data: USD, else VES, else its own
      currency's running sum. */
  function AddTo(g: Group, c: Calculation): Group
  {
    g.(calcs := g.calcs + [c.id],
       usd := if c.currency == USD then g.usd + c.commissionAmount else g.usd,
       ves := if c.currency == VES then g.ves + c.commissionAmount else g.ves,
       other := if IsOther(c.currency) then AddOther(g.other, c.currency, c.commissionAmount) else g.other)
  }

  function AddCalc(gs: seq<Group>, c: Calculation): seq<Group>
  {
    var k := FindGroup(gs, c.salesperson);
    if k < |gs| then gs[k := AddTo(gs[k], c)]
    else gs + [AddTo(Group(c.salesperson, [], 0.0, 0.0, []), c)]
  }

  /** The data after the loop over the included calculations of `cs`. */
  function Groups(cs: seq<Calculation>, b: BatchId): seq<Group>
  {
    if cs == [] then []
    else
      var gs := Groups(cs[..|cs| - 1], b);
      if Included(cs[|cs| - 1], b) then AddCalc(gs, cs[|cs| - 1]) else gs
  }

  /** The other-currency sums are exactly the salesperson's amounts in those currencies,
      one entry per currency, every other currency present has one, and there is none
      at all without an other-currency calculation. */
  predicate OthersOK(os: seq<OtherTotal>, cs: seq<Calculation>, b: BatchId, sp: UserId)
  {
    (forall k :: 0 <= k < |os| ==> IsOther(os[k].currency) && os[k].amount == AmountIn(cs, b, sp, os[k].currency))
    && (forall i, j :: 0 <= i < j < |os| ==> os[i].currency != os[j].currency)
    && (forall j :: 0 <= j < |cs| && Mine(cs[j], b, sp) && IsOther(cs[j].currency) ==> FindOther(os, cs[j].currency) < |os|)
    && (os != [] ==> exists j :: 0 <= j < |cs| && Mine(cs[j], b, sp) && IsOther(cs[j].currency))
  }

  predicate GroupOK(g: Group, cs: seq<Calculation>, b: BatchId)
  {
    g.calcs == IdsFor(cs, b, g.salesperson) && g.usd == AmountIn(cs, b, g.salesperson, USD)
    && g.ves == AmountIn(cs, b, g.salesperson, VES) && OthersOK(g.other, cs, b, g.salesperson)
  }

  predicate GroupsOK(gs: seq<Group>, cs: seq<Calculation>, b: BatchId)
  {
    (forall k :: 0 <= k < |gs| ==> GroupOK(gs[k], cs, b) && gs[k].calcs != [])
    && (forall i, j :: 0 <= i < j < |gs| ==> gs[i].salesperson != gs[j].salesperson)
    && (forall j :: 0 <= j < |cs| && Included(cs[j], b) ==> FindGroup(gs, cs[j].salesperson) < |gs|)
  }

  /** The salesperson's amount in a currency after one more calculation. */
  lemma AmountStep(cs: seq<Calculation>, b: BatchId, sp: UserId, cur: Currency)
    requires cs != []
    ensures AmountIn(cs, b, sp, cur) == AmountIn(cs[..|cs| - 1], b, sp, cur)
      + (if Mine(cs[|cs| - 1], b, sp) && cs[|cs| - 1].currency == cur then cs[|cs| - 1].commissionAmount else 0.0)
  {
  }

  lemma AddOtherAmounts(os: seq<OtherTotal>, cs: seq<Calculation>, b: BatchId, sp: UserId)
    requires cs != [] && Mine(cs[|cs| - 1], b, sp) && IsOther(cs[|cs| - 1].currency)
    requires forall k :: 0 <= k < |os| ==> IsOther(os[k].currency) && os[k].amount == AmountIn(cs[..|cs| - 1], b, sp, os[k].currency)
    requires forall i, j :: 0 <= i < j < |os| ==> os[i].currency != os[j].currency
    requires var init := cs[..|cs| - 1];
      forall j :: 0 <= j < |init| && Mine(init[j], b, sp) && IsOther(init[j].currency) ==> FindOther(os, init[j].currency) < |os|
    ensures var os' := AddOther(os, cs[|cs| - 1].currency, cs[|cs| - 1].commissionAmount);
      forall m :: 0 <= m < |os'| ==> IsOther(os'[m].currency) && os'[m].amount == AmountIn(cs, b, sp, os'[m].currency)
  {
    var c := cs[|cs| - 1];
    var os' := AddOther(os, c.currency, c.commissionAmount);
    var k := FindOther(os, c.currency);
    forall m | 0 <= m < |os'|
      ensures IsOther(os'[m].currency) && os'[m].amount == AmountIn(cs, b, sp, os'[m].currency)
    {
      AmountStep(cs, b, sp, os'[m].currency);
      if k < |os| {
        if m == k {
          assert os'[m] == os[k].(amount := os[k].amount + c.commissionAmount);
          assert os'[m].amount == AmountIn(cs, b, sp, os'[m].currency);
        } else {
          assert os'[m] == os[m];
          assert os'[m].amount == AmountIn(cs, b, sp, os'[m].currency);
        }
      } else if m < |os| {
        assert os'[m] == os[m];
        assert os'[m].amount == AmountIn(cs, b, sp, os'[m].currency);
      } else {
        assert os'[m] == OtherTotal(c.currency, c.commissionAmount);
        NothingMineIn(cs[..|cs| - 1], b, sp, c.currency, os);
        assert os'[m].amount == AmountIn(cs, b, sp, os'[m].currency);
      }
    }
  }

  /** A currency without an entry has no amount yet. */
  lemma NothingMineIn(init: seq<Calculation>, b: BatchId, sp: UserId, cur: Currency, os: seq<OtherTotal>)
    requires IsOther(cur) && FindOther(os, cur) == |os|
    requires forall j :: 0 <= j < |init| && Mine(init[j], b, sp) && IsOther(init[j].currency) ==> FindOther(os, init[j].currency) < |os|
    ensures AmountIn(init, b, sp, cur) == 0.0
  {
    if init != [] {
      var init' := init[..|init| - 1];
      assert forall j :: 0 <= j < |init'| ==> init'[j] == init[j];
      NothingMineIn(init', b, sp, cur, os);
    }
  }

  lemma AddOtherCovers(os: seq<OtherTotal>, cs: seq<Calculation>, b: BatchId, sp: UserId)
    requires cs != [] && Mine(cs[|cs| - 1], b, sp) && IsOther(cs[|cs| - 1].currency)
    requires var init := cs[..|cs| - 1];
      forall j :: 0 <= j < |init| && Mine(init[j], b, sp) && IsOther(init[j].currency) ==> FindOther(os, init[j].currency) < |os|
    ensures var os' := AddOther(os, cs[|cs| - 1].currency, cs[|cs| - 1].commissionAmount);
      forall j :: 0 <= j < |cs| && Mine(cs[j], b, sp) && IsOther(cs[j].currency) ==> FindOther(os', cs[j].currency) < |os'|
  {
    var init := cs[..|cs| - 1];
    var c := cs[|cs| - 1];
    var os' := AddOther(os, c.currency, c.commissionAmount);
    var k := FindOther(os, c.currency);
    forall j | 0 <= j < |cs| && Mine(cs[j], b, sp) && IsOther(cs[j].currency)
      ensures FindOther(os', cs[j].currency) < |os'|
    {
      if j < |init| && cs[j].currency != c.currency {
        assert init[j] == cs[j];
        assert os'[FindOther(os, cs[j].currency)].currency == cs[j].currency;
      } else {
        assert os'[if k < |os| then k else |os|].currency == c.currency;
      }
    }
  }

  /** The last calculation being another currency's of this salesperson, its entry grows
      or is appended. */
  lemma AddOtherStep(os: seq<OtherTotal>, cs: seq<Calculation>, b: BatchId, sp: UserId)
    requires cs != [] && Mine(cs[|cs| - 1], b, sp) && IsOther(cs[|cs| - 1].currency)
    requires OthersOK(os, cs[..|cs| - 1], b, sp)
    ensures OthersOK(AddOther(os, cs[|cs| - 1].currency, cs[|cs| - 1].commissionAmount), cs, b, sp)
  {
    AddOtherAmounts(os, cs, b, sp);
    AddOtherCovers(os, cs, b, sp);
    assert Mine(cs[|cs| - 1], b, sp) && IsOther(cs[|cs| - 1].currency);
  }

  /** The last calculation not being another currency's of this salesperson, the entries
      stay right. */
  lemma OthersStay(os: seq<OtherTotal>, cs: seq<Calculation>, b: BatchId, sp: UserId)
    requires cs != [] && !(Mine(cs[|cs| - 1], b, sp) && IsOther(cs[|cs| - 1].currency))
    requires OthersOK(os, cs[..|cs| - 1], b, sp)
    ensures OthersOK(os, cs, b, sp)
  {
    var init := cs[..|cs| - 1];
    assert forall j :: 0 <= j < |init| ==> init[j] == cs[j];
    if os != [] {
      var j :| 0 <= j < |init| && Mine(init[j], b, sp) && IsOther(init[j].currency);
      assert Mine(cs[j], b, sp) && IsOther(cs[j].currency);
    }
  }

  lemma AddToStep(g: Group, cs: seq<Calculation>, b: BatchId)
    requires cs != [] && Mine(cs[|cs| - 1], b, g.salesperson)
    requires GroupOK(g, cs[..|cs| - 1], b)
    ensures GroupOK(AddTo(g, cs[|cs| - 1]), cs, b)
  {
    if IsOther(cs[|cs| - 1].currency) {
      AddOtherStep(g.other, cs, b, g.salesperson);
    } else {
      OthersStay(g.other, cs, b, g.salesperson);
    }
  }

  lemma GroupStays(g: Group, cs: seq<Calculation>, b: BatchId)
    requires cs != [] && !Mine(cs[|cs| - 1], b, g.salesperson)
    requires GroupOK(g, cs[..|cs| - 1], b)
    ensures GroupOK(g, cs, b)
  {
    OthersStay(g.other, cs, b, g.salesperson);
  }

  /** A calculation outside the document leaves the data right. */
  lemma GroupsStepExcluded(cs: seq<Calculation>, b: BatchId)
    requires cs != [] && !Included(cs[|cs| - 1], b)
    requires GroupsOK(Groups(cs[..|cs| - 1], b), cs[..|cs| - 1], b)
    ensures GroupsOK(Groups(cs, b), cs, b)
  {
    var init := cs[..|cs| - 1];
    var gs := Groups(init, b);
    assert Groups(cs, b) == gs;
    forall k | 0 <= k < |gs| ensures GroupOK(gs[k], cs, b) {
      GroupStays(gs[k], cs, b);
    }
    forall j | 0 <= j < |cs| && Included(cs[j], b) ensures FindGroup(gs, cs[j].salesperson) < |gs| {
      assert j < |init| && init[j] == cs[j];
    }
  }

  /** The groups of other salespersons stay right when a calculation is added. */
  lemma OtherGroupsStay(gs: seq<Group>, cs: seq<Calculation>, b: BatchId)
    requires cs != [] && Included(cs[|cs| - 1], b)
    requires GroupsOK(gs, cs[..|cs| - 1], b)
    ensures forall k :: 0 <= k < |gs| && gs[k].salesperson != cs[|cs| - 1].salesperson ==> GroupOK(gs[k], cs, b)
  {
    forall k | 0 <= k < |gs| && gs[k].salesperson != cs[|cs| - 1].salesperson ensures GroupOK(gs[k], cs, b) {
      GroupStays(gs[k], cs, b);
    }
  }

  /** A calculation of a salesperson with a group goes into that group. */
  lemma IntoExistingGroup(gs: seq<Group>, cs: seq<Calculation>, b: BatchId)
    requires cs != [] && Included(cs[|cs| - 1], b) && GroupsOK(gs, cs[..|cs| - 1], b)
    requires FindGroup(gs, cs[|cs| - 1].salesperson) < |gs|
    ensures var gs' := AddCalc(gs, cs[|cs| - 1]);
      forall k :: 0 <= k < |gs'| ==> GroupOK(gs'[k], cs, b) && gs'[k].calcs != []
  {
    var c := cs[|cs| - 1];
    var f := FindGroup(gs, c.salesperson);
    OtherGroupsStay(gs, cs, b);
    AddToStep(gs[f], cs, b);
  }

  /** A calculation of a salesperson without a group opens one. */
  lemma IntoNewGroup(gs: seq<Group>, cs: seq<Calculation>, b: BatchId)
    requires cs != [] && Included(cs[|cs| - 1], b) && GroupsOK(gs, cs[..|cs| - 1], b)
    requires FindGroup(gs, cs[|cs| - 1].salesperson) == |gs|
    ensures var gs' := AddCalc(gs, cs[|cs| - 1]);
      forall k :: 0 <= k < |gs'| ==> GroupOK(gs'[k], cs, b) && gs'[k].calcs != []
  {
    var init := cs[..|cs| - 1];
    var c := cs[|cs| - 1];
    var empty := Group(c.salesperson, [], 0.0, 0.0, []);
    forall j | 0 <= j < |init| ensures !Mine(init[j], b, c.salesperson) {
      assert init[j] == cs[j];
    }
    NothingMine(init, b, c.salesperson);
    AddToStep(empty, cs, b);
    OtherGroupsStay(gs, cs, b);
  }

  /** Every calculation of the document still finds its group. */
  lemma GroupsStillFound(gs: seq<Group>, cs: seq<Calculation>, b: BatchId)
    requires cs != [] && Included(cs[|cs| - 1], b)
    requires forall j :: 0 <= j < |cs| - 1 && Included(cs[j], b) ==> FindGroup(gs, cs[j].salesperson) < |gs|
    ensures var gs' := AddCalc(gs, cs[|cs| - 1]);
      forall j :: 0 <= j < |cs| && Included(cs[j], b) ==> FindGroup(gs', cs[j].salesperson) < |gs'|
  {
    var c := cs[|cs| - 1];
    var gs' := AddCalc(gs, c);
    var f := FindGroup(gs, c.salesperson);
    forall j | 0 <= j < |cs| && Included(cs[j], b) ensures FindGroup(gs', cs[j].salesperson) < |gs'| {
      if j < |cs| - 1 {
        assert gs'[FindGroup(gs, cs[j].salesperson)].salesperson == cs[j].salesperson;
      } else {
        assert gs'[if f < |gs| then f else |gs|].salesperson == c.salesperson;
      }
    }
  }

  /** A calculation of the document lands in the right group, new or existing. */
  lemma GroupsStepIncluded(cs: seq<Calculation>, b: BatchId)
    requires cs != [] && Included(cs[|cs| - 1], b)
    requires GroupsOK(Groups(cs[..|cs| - 1], b), cs[..|cs| - 1], b)
    ensures GroupsOK(Groups(cs, b), cs, b)
  {
    var init := cs[..|cs| - 1];
    var gs := Groups(init, b);
    assert forall j :: 0 <= j < |init| ==> init[j] == cs[j];
    if FindGroup(gs, cs[|cs| - 1].salesperson) < |gs| {
      IntoExistingGroup(gs, cs, b);
    } else {
      IntoNewGroup(gs, cs, b);
    }
    GroupsStillFound(gs, cs, b);
  }

  /** The loop's data is right for every prefix of the table. */
  lemma {:induction false} GroupsCorrect(cs: seq<Calculation>, b: BatchId)
    ensures GroupsOK(Groups(cs, b), cs, b)
  {
    if cs != [] {
      GroupsCorrect(cs[..|cs| - 1], b);
      if Included(cs[|cs| - 1], b) {
        GroupsStepIncluded(cs, b);
      } else {
        GroupsStepExcluded(cs, b);
      }
    }
  }

  // ---------------------------------------------------------------------------------
  // Lines

  /** The other currencies' sums each converted into VES at the document date. */
  function OthersInVes(os: seq<OtherTotal>, company: CompanyId, date: Date, convert: Converter): real
  {
    if os == [] then 0.0
    else
      var o := os[|os| - 1];
      OthersInVes(os[..|os| - 1], company, date, convert) + convert(o.amount, o.currency, VES, company, date)
  }

  function LineOf(g: Group, company: CompanyId, date: Date, convert: Converter): PaymentLine
  {
    PaymentLine(g.salesperson, g.calcs, |g.calcs|, g.usd, g.ves, g.usd, g.ves + OthersInVes(g.other, company, date, convert))
  }

  function LinesOf(gs: seq<Group>, company: CompanyId, date: Date, convert: Converter): (ls: seq<PaymentLine>)
    ensures |ls| == |gs|
    ensures forall k :: 0 <= k < |gs| ==> ls[k] == LineOf(gs[k], company, date, convert)
  {
    if gs == [] then [] else LinesOf(gs[..|gs| - 1], company, date, convert) + [LineOf(gs[|gs| - 1], company, date, convert)]
  }

  /** The lines generated for a document from the calculation table. */
  function GeneratedLines(cs: seq<Calculation>, d: Document, convert: Converter): seq<PaymentLine>
  {
    LinesOf(Groups(cs, d.batch), d.company, d.paymentDate, convert)
  }

  /** One line per salesperson with an included calculation and no other; each line holds
      exactly that salesperson's included calculations and their count; its USD original
      and payment are the USD sum; its VES original is the VES sum and its VES payment
      adds the other currencies converted into VES, which is nothing when the
      salesperson has no calculation in another currency. */
  lemma GeneratedLinesSpec(cs: seq<Calculation>, d: Document, convert: Converter)
    ensures var ls := GeneratedLines(cs, d, convert);
      (forall i, j :: 0 <= i < j < |ls| ==> ls[i].salesperson != ls[j].salesperson)
      && (forall sp :: (exists k :: 0 <= k < |ls| && ls[k].salesperson == sp) <==> IdsFor(cs, d.batch, sp) != [])
      && forall k :: 0 <= k < |ls| ==>
           var sp := ls[k].salesperson;
           ls[k].calcs == IdsFor(cs, d.batch, sp) && ls[k].count == |IdsFor(cs, d.batch, sp)|
           && ls[k].usdOriginal == ls[k].usdPayment == AmountIn(cs, d.batch, sp, USD)
           && ls[k].vesOriginal == AmountIn(cs, d.batch, sp, VES)
           && ((forall j :: 0 <= j < |cs| && Mine(cs[j], d.batch, sp) ==> !IsOther(cs[j].currency)) ==>
                 ls[k].vesPayment == ls[k].vesOriginal)
  {
    var gs := Groups(cs, d.batch);
    var ls := GeneratedLines(cs, d, convert);
    GroupsCorrect(cs, d.batch);
    forall sp ensures (exists k :: 0 <= k < |ls| && ls[k].salesperson == sp) <==> IdsFor(cs, d.batch, sp) != [] {
      if IdsFor(cs, d.batch, sp) != [] {
        if forall j :: 0 <= j < |cs| ==> !Mine(cs[j], d.batch, sp) {
          NothingMine(cs, d.batch, sp);
        }
        var j :| 0 <= j < |cs| && Mine(cs[j], d.batch, sp);
        var f := FindGroup(gs, sp);
        assert ls[f].salesperson == sp;
      }
    }
  }

  /** The calculations of the batch in `calculated` or `validated` state approved. */
  function ApproveBatch(cs: seq<Calculation>, b: BatchId): (r: seq<Calculation>)
    ensures |r| == |cs|
    ensures forall j :: 0 <= j < |cs| ==>
      r[j] == (if cs[j].batch == Some(b) && (cs[j].state == Calculated || cs[j].state == Validated)
               then cs[j].(state := Approved) else cs[j])
  {
    seq(|cs|, j requires 0 <= j < |cs| =>
      if cs[j].batch == Some(b) && (cs[j].state == Calculated || cs[j].state == Validated) then cs[j].(state := Approved) else cs[j])
  }

  /** The grouping loop. */
  method GroupCalculations(cs: seq<Calculation>, b: BatchId) returns (gs: seq<Group>)
    ensures gs == Groups(cs, b)
  {
    gs := [];
    var j := 0;
    while j < |cs|
      invariant 0 <= j <= |cs| && gs == Groups(cs[..j], b)
    {
      assert cs[..j + 1][..j] == cs[..j];
      if Included(cs[j], b) {
        gs := AddCalc(gs, cs[j]);
      }
      j := j + 1;
    }
    assert cs[..|cs|] == cs;
  }

  /** The conversion loop of one line. */
  method ConvertOthers(os: seq<OtherTotal>, company: CompanyId, date: Date, convert: Converter) returns (total: real)
    ensures total == OthersInVes(os, company, date, convert)
  {
    total := 0.0;
    var k := 0;
    while k < |os|
      invariant 0 <= k <= |os| && total == OthersInVes(os[..k], company, date, convert)
    {
      assert os[..k + 1][..k] == os[..k];
      total := total + convert(os[k].amount, os[k].currency, VES, company, date);
      k := k + 1;
    }
    assert os[..|os|] == os;
  }

  /** The line creation loop. */
  method BuildLines(gs: seq<Group>, company: CompanyId, date: Date, convert: Converter) returns (ls: seq<PaymentLine>)
    ensures ls == LinesOf(gs, company, date, convert)
  {
    ls := [];
    var k := 0;
    while k < |gs|
      invariant 0 <= k <= |gs| && ls == LinesOf(gs[..k], company, date, convert)
    {
      assert gs[..k + 1][..k] == gs[..k];
      var g := gs[k];
      var line := PaymentLine(g.salesperson, g.calcs, |g.calcs|, g.usd, g.ves, g.usd, g.ves);
      var otherInVes := ConvertOthers(g.other, company, date, convert);
      line := line.(vesPayment := line.vesPayment + otherInVes);
      ls := ls + [line];
      k := k + 1;
    }
    assert gs[..|gs|] == gs;
  }

  // ---------------------------------------------------------------------------------
  // Totals and summaries

  function UsdOriginals(ls: seq<PaymentLine>): seq<real>
  {
    seq(|ls|, k requires 0 <= k < |ls| => ls[k].usdOriginal)
  }

  function VesOriginals(ls: seq<PaymentLine>): seq<real>
  {
    seq(|ls|, k requires 0 <= k < |ls| => ls[k].vesOriginal)
  }

  function UsdPayments(ls: seq<PaymentLine>): seq<real>
  {
    seq(|ls|, k requires 0 <= k < |ls| => ls[k].usdPayment)
  }

  function VesPayments(ls: seq<PaymentLine>): seq<real>
  {
    seq(|ls|, k requires 0 <= k < |ls| => ls[k].vesPayment)
  }

  function Salespersons(ls: seq<PaymentLine>): seq<UserId>
  {
    seq(|ls|, k requires 0 <= k < |ls| => ls[k].salesperson)
  }

  datatype DocTotals = DocTotals(lines: nat, salespersons: nat, usdOriginal: real, vesOriginal: real,
                                 usdPayment: real, vesPayment: real)

  /** `_compute_totals`. */
  function Totals(d: Document): DocTotals
  {
    var ls := d.lines;
    DocTotals(|ls|, |Distinct(Salespersons(ls))|, Sum(UsdOriginals(ls)), Sum(VesOriginals(ls)),
              Sum(UsdPayments(ls)), Sum(VesPayments(ls)))
  }

  lemma {:induction false} SumsAgree(a: seq<real>, b: seq<real>)
    requires |a| == |b| && forall k :: 0 <= k < |a| ==> a[k] == b[k]
    ensures Sum(a) == Sum(b)
  {
    if a != [] {
      SumsAgree(a[..|a| - 1], b[..|b| - 1]);
    }
  }

  lemma {:induction false} DistinctOfDistinct(s: seq<UserId>)
    requires NoDuplicates(s)
    ensures |Distinct(s)| == |s|
  {
    if s != [] {
      var init := s[..|s| - 1];
      assert forall i, j :: 0 <= i < j < |init| ==> init[i] == s[i] && init[j] == s[j];
      DistinctOfDistinct(init);
      assert s[|s| - 1] !in init;
    }
  }

  /** On freshly generated lines the document counts one salesperson per line, pays in USD
      what was earned in USD, and pays in VES exactly the VES earned when no included
      calculation is in another currency. */
  lemma GeneratedTotals(cs: seq<Calculation>, d: Document, convert: Converter)
    ensures var t := Totals(d.(lines := GeneratedLines(cs, d, convert)));
      t.salespersons == t.lines && t.usdPayment == t.usdOriginal
    ensures (forall j :: 0 <= j < |cs| && Included(cs[j], d.batch) ==> !IsOther(cs[j].currency)) ==>
      var t := Totals(d.(lines := GeneratedLines(cs, d, convert))); t.vesPayment == t.vesOriginal
  {
    var ls := GeneratedLines(cs, d, convert);
    GeneratedLinesSpec(cs, d, convert);
    DistinctOfDistinct(Salespersons(ls));
    SumsAgree(UsdPayments(ls), UsdOriginals(ls));
    if forall j :: 0 <= j < |cs| && Included(cs[j], d.batch) ==> !IsOther(cs[j].currency) {
      SumsAgree(VesPayments(ls), VesOriginals(ls));
    }
  }

  /** The number of lines with a positive amount. */
  function PositiveCount(s: seq<real>): (n: nat)
    ensures n <= |s|
    ensures n == |s| <==> forall k :: 0 <= k < |s| ==> s[k] > 0.0
    ensures n == 0 <==> forall k :: 0 <= k < |s| ==> s[k] <= 0.0
  {
    if s == [] then 0
    else
      var init := s[..|s| - 1];
      assert forall k :: 0 <= k < |init| ==> init[k] == s[k];
      PositiveCount(init) + (if s[|s| - 1] > 0.0 then 1 else 0)
  }

  datatype CurrencySummary = CurrencySummary(original: real, payment: real, salespersonCount: nat)

  /** `get_summary_by_currency`: the USD and the VES summary. */
  function Summary(d: Document): (r: (CurrencySummary, CurrencySummary))
    ensures r.0.original == Totals(d).usdOriginal && r.0.payment == Totals(d).usdPayment
    ensures r.1.original == Totals(d).vesOriginal && r.1.payment == Totals(d).vesPayment
    ensures r.0.salespersonCount <= |d.lines| && r.1.salespersonCount <= |d.lines|
  {
    var ls := d.lines;
    (CurrencySummary(Sum(UsdOriginals(ls)), Sum(UsdPayments(ls)), PositiveCount(UsdOriginals(ls))),
     CurrencySummary(Sum(VesOriginals(ls)), Sum(VesPayments(ls)), PositiveCount(VesOriginals(ls))))
  }

  /** `_compute_total_payment`: the positive USD and VES payments, each converted into the
      company currency at the document date unless already in it. */
  function LineTotal(l: PaymentLine, companyCurrency: Currency, company: CompanyId, date: Date, convert: Converter): real
  {
    (if l.usdPayment > 0.0 then
       (if USD != companyCurrency then convert(l.usdPayment, USD, companyCurrency, company, date) else l.usdPayment)
     else 0.0)
    + (if l.vesPayment > 0.0 then
         (if VES != companyCurrency then convert(l.vesPayment, VES, companyCurrency, company, date) else l.vesPayment)
       else 0.0)
  }

  /** Non-positive amounts count for nothing; an amount in the company currency counts as
      it is; and with a converter that keeps positive amounts positive, the total is
      positive exactly when one of the payments is. */
  lemma LineTotalFacts(l: PaymentLine, companyCurrency: Currency, company: CompanyId, date: Date, convert: Converter)
    ensures l.usdPayment <= 0.0 && l.vesPayment <= 0.0 ==> LineTotal(l, companyCurrency, company, date, convert) == 0.0
    ensures companyCurrency == USD && l.vesPayment <= 0.0 ==>
      LineTotal(l, companyCurrency, company, date, convert) == (if l.usdPayment > 0.0 then l.usdPayment else 0.0)
    ensures companyCurrency == VES && l.usdPayment <= 0.0 ==>
      LineTotal(l, companyCurrency, company, date, convert) == (if l.vesPayment > 0.0 then l.vesPayment else 0.0)
    ensures (forall a, from, to, co, dt :: a > 0.0 ==> convert(a, from, to, co, dt) > 0.0) ==>
      (LineTotal(l, companyCurrency, company, date, convert) > 0.0 <==> l.usdPayment > 0.0 || l.vesPayment > 0.0)
  {
  }

  // ---------------------------------------------------------------------------------
  // The table

  /** The payment documents by id; a batch reset deletes its document. */
  class DocumentTable {
    var docs: map<DocId, Document>
    var nextId: nat

    ghost predicate Valid()
      reads this
    {
      forall id :: id in docs ==> id < nextId && docs[id].id == id
    }

    constructor ()
      ensures Valid() && docs == map[]
    {
      docs := map[];
      nextId := 0;
    }

    /** `create`: a draft document without lines under a fresh id. */
    method Create(batch: BatchId, paymentDate: Date, company: CompanyId) returns (id: DocId)
      requires Valid()
      modifies this
      ensures Valid() && id !in old(docs)
      ensures docs == old(docs)[id := Document(id, batch, paymentDate, company, DocDraft, [], 0.0)]
    {
      id := nextId;
      docs := docs[id := Document(id, batch, paymentDate, company, DocDraft, [], 0.0)];
      nextId := nextId + 1;
    }

    /** `_generate_payment_lines`: refused once lines exist; otherwise records the USD/VES
        rate of the document date, creates the lines and approves the batch's calculated
        and validated calculations. */
    method GenerateLines(id: DocId, ct: CalculationTable, rate: RateService, convert: Converter) returns (o: Outcome)
      requires Valid() && ct.Valid() && id in docs
      modifies this, ct
      ensures Valid() && ct.Valid() && nextId == old(nextId)
      ensures var d := old(docs)[id];
        (d.lines != [] ==> o == Fail(LinesAlreadyGenerated) && docs == old(docs) && ct.calcs == old(ct.calcs))
        && (d.lines == [] ==>
              (o == Pass
               && docs == old(docs)[id := d.(lines := GeneratedLines(old(ct.calcs), d, convert),
                                             rateUsdVes := rate(USD, VES, d.company, d.paymentDate))]
               && ct.calcs == ApproveBatch(old(ct.calcs), d.batch)))
    {
      var d := docs[id];
      if d.lines != [] {
        return Fail(LinesAlreadyGenerated);
      }
      var usdVes := rate(USD, VES, d.company, d.paymentDate);
      var gs := GroupCalculations(ct.calcs, d.batch);
      var ls := BuildLines(gs, d.company, d.paymentDate, convert);
      docs := docs[id := d.(lines := ls, rateUsdVes := usdVes)];
      ct.calcs := ApproveBatch(ct.calcs, d.batch);
      o := Pass;
    }

    /** `action_confirm`. */
    method Confirm(id: DocId) returns (o: Outcome)
      requires Valid() && id in docs
      modifies this
      ensures Valid() && nextId == old(nextId)
      ensures var d := old(docs)[id];
        (d.state != DocDraft ==> o == Fail(OnlyDraftCanBeConfirmed) && docs == old(docs))
        && (d.state == DocDraft && d.lines == [] ==> o == Fail(NoPaymentLines) && docs == old(docs))
        && (d.state == DocDraft && d.lines != [] ==> o == Pass && docs == old(docs)[id := d.(state := Confirmed)])
    {
      var d := docs[id];
      if d.state != DocDraft {
        return Fail(OnlyDraftCanBeConfirmed);
      }
      if d.lines == [] {
        return Fail(NoPaymentLines);
      }
      docs := docs[id := d.(state := Confirmed)];
      o := Pass;
    }

    /** The `state = 'paid'` write. */
    method SetPaid(id: DocId)
      requires Valid() && id in docs
      modifies this
      ensures Valid() && nextId == old(nextId)
      ensures docs == old(docs)[id := old(docs)[id].(state := DocPaid)]
    {
      docs := docs[id := docs[id].(state := DocPaid)];
    }

    /** `unlink` (its lines go with it). */
    method Delete(id: DocId)
      requires Valid()
      modifies this
      ensures Valid() && nextId == old(nextId)
      ensures docs == old(docs) - {id}
    {
      docs := docs - {id};
    }
  }
}
