/** The configuration wizard (`commission.band.config.wizard`): a five-step dialog that
    creates the standard bands and rules and switches commissions on for salespeople. */
module ConfigWizard {
  import opened Common
  import opened Ranges
  import opened Bands
  import opened Rules
  import opened Configs
  import opened Records
  import opened Sorting

  // ---------------------------------------------------------------------------------
  // Steps

  datatype Step = Welcome | BandsStep | RulesStep | UsersStep | Done

  function StepIndex(s: Step): nat
  {
    match s
    case Welcome => 0
    case BandsStep => 1
    case RulesStep => 2
    case UsersStep => 3
    case Done => 4
  }

  /** `action_next`'s state change: one step forward, `done` staying `done`. */
  function NextStep(s: Step): (r: Step)
    ensures s != Done ==> StepIndex(r) == StepIndex(s) + 1
    ensures s == Done ==> r == Done
  {
    match s
    case Welcome => BandsStep
    case BandsStep => RulesStep
    case RulesStep => UsersStep
    case UsersStep => Done
    case Done => Done
  }

  /** `action_previous`: one step back, `welcome` staying `welcome`. */
  function PreviousStep(s: Step): (r: Step)
    ensures s != Welcome ==> StepIndex(r) + 1 == StepIndex(s)
    ensures s == Welcome ==> r == Welcome
  {
    match s
    case Welcome => Welcome
    case BandsStep => Welcome
    case RulesStep => BandsStep
    case UsersStep => RulesStep
    case Done => UsersStep
  }

  /** Going back undoes going forward and the other way round, away from the ends. */
  lemma StepsUndo(s: Step)
    ensures s != Done ==> PreviousStep(NextStep(s)) == s
    ensures s != Welcome ==> NextStep(PreviousStep(s)) == s
  {
  }

  // ---------------------------------------------------------------------------------
  // Created records

  /** A table after a creation loop and the ids of the records the loop created. */
  datatype Created<T> = Created(table: seq<T>, ids: seq<nat>)

  function Extend<T>(ids: seq<nat>, r: Result<Created<T>>): (r': Result<Created<T>>)
    ensures r'.Ok? <==> r.Ok?
    ensures r.Err? ==> r' == r
    ensures r.Ok? ==> r'.value.table == r.value.table && r'.value.ids == ids + r.value.ids
  {
    if r.Ok? then Ok(Created(r.value.table, ids + r.value.ids)) else r
  }

  lemma ExtendTwice<T>(a: seq<nat>, b: seq<nat>, r: Result<Created<T>>)
    ensures Extend(a, Extend(b, r)) == Extend(a + b, r)
  {
    if r.Ok? {
      assert a + (b + r.value.ids) == (a + b) + r.value.ids;
    }
  }

  lemma ExtendStep<T>(goal: Result<Created<T>>, ids: seq<nat>, r: Result<Created<T>>, id: nat, r': Result<Created<T>>)
    requires goal == Extend(ids, r) && r == Extend([id], r')
    ensures goal == Extend(ids + [id], r')
  {
    ExtendTwice(ids, [id], r');
  }

  lemma ExtendNothing<T>(r: Result<Created<T>>)
    ensures Extend([], r) == r
  {
    if r.Ok? {
      assert [] + r.value.ids == r.value.ids;
    }
  }

  // ---------------------------------------------------------------------------------
  // Default bands (`_create_default_bands`)

  datatype RangeData = RangeData(dayFrom: int, dayTo: int, rate: real, indicator: real, name: string)
  datatype BandData = BandData(name: string, code: string, ranges: seq<RangeData>)

  /** The three standard bands with their ranges. */
  function DefaultBands(): seq<BandData>
  {
    [ BandData("Premium Sales Band (Type A)", "BAND_PREMIUM",
        [ RangeData(-999, 15, 2.8, 3.5, "Early payment"),
          RangeData(16, 30, 2.3, 3.0, "On time"),
          RangeData(31, 45, 1.8, 2.5, "Minor delay"),
          RangeData(46, 60, 1.3, 2.0, "Moderate delay"),
          RangeData(61, 120, 1.0, 1.7, "Major delay"),
          RangeData(121, 999, 0.5, 0.5, "Critical delay") ]),
      BandData("Supervision Band (Type B)", "BAND_SUPERVISION",
        [ RangeData(-999, 15, 2.0, 0.0, "Early payment"),
          RangeData(16, 30, 1.5, 0.0, "On time"),
          RangeData(31, 45, 1.0, 0.0, "Minor delay"),
          RangeData(46, 60, 0.75, 0.0, "Moderate delay"),
          RangeData(61, 120, 0.5, 0.0, "Major delay"),
          RangeData(121, 999, 0.25, 0.0, "Critical delay") ]),
      BandData("Office Band (Type C)", "BAND_OFFICE",
        [ RangeData(-999, 30, 1.5, 0.0, "On time"),
          RangeData(31, 60, 1.5, 0.0, "Acceptable delay"),
          RangeData(61, 999, 0.0, 0.0, "Late payment") ]) ]
  }

  /** The `idx`-th range of a band, with sequence `idx * 10`. */
  function RangeOf(d: RangeData, id: RangeId, idx: nat): Range
  {
    Range(id, d.name, idx * 10, d.dayFrom, d.dayTo, d.rate, d.indicator, None, 0.0)
  }

  /** A band as the wizard creates it: active, in the current company, with its ranges
      numbered from `firstRange`. */
  function BandOf(d: BandData, id: BandId, company: CompanyId, firstRange: RangeId): Band
  {
    Band(id, d.name, d.code, true, company, 10, false, None, RangesOf(d.ranges, firstRange, 0))
  }

  /** The range records of a band, numbered from `idx` with ids from `firstRange`. */
  function RangesOf(rs: seq<RangeData>, firstRange: RangeId, idx: nat): seq<Range>
    decreases |rs|
  {
    if rs == [] then [] else [RangeOf(rs[0], firstRange, idx)] + RangesOf(rs[1..], firstRange + 1, idx + 1)
  }

  /** The `i`-th range record is the `i`-th range under id `firstRange + i`. */
  lemma {:induction false} RangesOfIndex(rs: seq<RangeData>, firstRange: RangeId, idx: nat)
    ensures |RangesOf(rs, firstRange, idx)| == |rs|
    ensures forall i :: 0 <= i < |rs| ==> RangesOf(rs, firstRange, idx)[i] == RangeOf(rs[i], firstRange + i, idx + i)
    decreases |rs|
  {
    if rs != [] {
      RangesOfIndex(rs[1..], firstRange + 1, idx + 1);
    }
  }

  /** The `i`-th range of a created band is the `i`-th range record under id `firstRange + i`. */
  lemma BandOfRanges(d: BandData, id: BandId, company: CompanyId, firstRange: RangeId)
    ensures var b := BandOf(d, id, company, firstRange);
      |b.ranges| == |d.ranges|
      && forall i :: 0 <= i < |d.ranges| ==> b.ranges[i] == RangeOf(d.ranges[i], firstRange + i, i)
  {
    RangesOfIndex(d.ranges, firstRange, 0);
  }

  /** The range data run from day -999 to day 999 without gap or overlap. */
  predicate ContiguousData(rs: seq<RangeData>)
  {
    rs != [] && rs[0].dayFrom == -999 && rs[|rs| - 1].dayTo == 999
    && (forall i :: 0 <= i < |rs| ==> rs[i].dayFrom <= rs[i].dayTo && rs[i].rate >= 0.0 && rs[i].indicator >= 0.0)
    && forall i :: 0 <= i < |rs| - 1 ==> rs[i + 1].dayFrom == rs[i].dayTo + 1
  }

  lemma DefaultDataContiguous(k: nat)
    requires k < |DefaultBands()|
    ensures ContiguousData(DefaultBands()[k].ranges)
  {
    var d := DefaultBands()[k];
    assert d == DefaultBands()[0] || d == DefaultBands()[1] || d == DefaultBands()[2];
  }

  /** Every standard band passes all band and range checks, and every day from -999 to
      999 falls in exactly one of its ranges. */
  lemma DefaultBandsAccepted(k: nat, id: BandId, company: CompanyId, firstRange: RangeId)
    requires k < |DefaultBands()|
    ensures CheckBand(BandOf(DefaultBands()[k], id, company, firstRange)) == Pass
    ensures forall d :: -999 <= d <= 999 ==> CoverCount(BandOf(DefaultBands()[k], id, company, firstRange).ranges, d) == 1
  {
    var data := DefaultBands()[k];
    var b := BandOf(data, id, company, firstRange);
    BandOfRanges(data, id, company, firstRange);
    DefaultDataContiguous(k);
    assert AllWellFormed(b.ranges) by {
      forall i | 0 <= i < |b.ranges| ensures WellFormed(b.ranges[i]) {
        assert b.ranges[i] == RangeOf(data.ranges[i], firstRange + i, i);
      }
    }
    assert Contiguous(b.ranges) by {
      forall i | 0 <= i < |b.ranges| - 1 ensures b.ranges[i + 1].dayFrom == b.ranges[i].dayTo + 1 {
        assert b.ranges[i] == RangeOf(data.ranges[i], firstRange + i, i);
        assert b.ranges[i + 1] == RangeOf(data.ranges[i + 1], firstRange + i + 1, i + 1);
      }
    }
    assert b.ranges[0].dayFrom == -999 && b.ranges[|b.ranges| - 1].dayTo == 999;
    ContiguousBandIsAccepted(b);
  }

  /** The code search of the loop: an active band with the code. */
  predicate BandCodeFound(bands: seq<Band>, code: string)
  {
    exists i :: 0 <= i < |bands| && bands[i].active && bands[i].code == code
  }

  /** The band creation loop from the `k`-th standard band on: a code already present is
      skipped, a band the table refuses aborts the whole step. `accept` is the table's
      check on a new band (`CheckNewBand` for the band table); the lemmas below hold
      whatever it decides. The wizard stores the band before its ranges, so their band
      checks never run there; `DefaultBandsAccepted` shows the standard bands pass them. */
  function BandsFrom(accept: (seq<Band>, Band) -> Outcome, bands: seq<Band>, data: seq<BandData>, k: nat, company: CompanyId, nextRange: RangeId): Result<Created<Band>>
    decreases |data| - k
  {
    if k >= |data| then Ok(Created(bands, []))
    else
      var d := data[k];
      if BandCodeFound(bands, d.code) then BandsFrom(accept, bands, data, k + 1, company, nextRange)
      else
        var b := BandOf(d, |bands|, company, nextRange);
        if accept(bands, b).Fail? then Err(accept(bands, b).error)
        else Extend([|bands|], BandsFrom(accept, bands + [b], data, k + 1, company, nextRange + |d.ranges|))
  }

  /** A code already present: the loop goes on with the next standard band. */
  lemma BandsFromSkips(accept: (seq<Band>, Band) -> Outcome, bands: seq<Band>, data: seq<BandData>, k: nat, company: CompanyId, nextRange: RangeId)
    requires k < |data| && BandCodeFound(bands, data[k].code)
    ensures BandsFrom(accept, bands, data, k, company, nextRange) == BandsFrom(accept, bands, data, k + 1, company, nextRange)
  {
  }

  /** One missing code: the loop fails with the table's error, or goes on from the table
      with the band appended. */
  lemma BandsFromCreates(accept: (seq<Band>, Band) -> Outcome, bands: seq<Band>, data: seq<BandData>, k: nat, company: CompanyId, nextRange: RangeId)
    requires k < |data| && !BandCodeFound(bands, data[k].code)
    ensures var c := accept(bands, BandOf(data[k], |bands|, company, nextRange));
      c.Fail? ==> BandsFrom(accept, bands, data, k, company, nextRange) == Err(c.error)
    ensures accept(bands, BandOf(data[k], |bands|, company, nextRange)) == Pass ==>
      BandsFrom(accept, bands, data, k, company, nextRange)
         == Extend([|bands|], BandsFrom(accept, bands + [BandOf(data[k], |bands|, company, nextRange)], data, k + 1, company, nextRange + |data[k].ranges|))
  {
  }

  /** One pass of the band creation loop for a missing code: the band is created, or the
      table refuses it and the whole step fails with the table's error. */
  method CreateStandardBand(bt: BandTable, data: seq<BandData>, k: nat, company: CompanyId, nextRange: RangeId)
    returns (r: Result<BandId>)
    requires bt.Valid() && k < |data| && !BandCodeFound(bt.bands, data[k].code)
    modifies bt
    ensures bt.Valid()
    ensures r.Ok? ==> (r.value == |old(bt.bands)|
      && BandsFrom(CheckNewBand, old(bt.bands), data, k, company, nextRange)
         == Extend([r.value], BandsFrom(CheckNewBand, bt.bands, data, k + 1, company, nextRange + |data[k].ranges|)))
    ensures r.Err? ==> BandsFrom(CheckNewBand, old(bt.bands), data, k, company, nextRange) == Err(r.error)
  {
    var b := BandOf(data[k], |bt.bands|, company, nextRange);
    BandsFromCreates(CheckNewBand, bt.bands, data, k, company, nextRange);
    assert b.(id := |bt.bands|) == b;
    r := bt.Create(b);
  }

  /** The band creation loop of `_create_default_bands`: the standard bands whose code is
      missing are created in order, or the table is restored when one is refused. */
  method CreateStandardBands(bt: BandTable, data: seq<BandData>, company: CompanyId, firstRange: RangeId)
    returns (r: Result<seq<BandId>>)
    requires bt.Valid()
    modifies bt
    ensures bt.Valid()
    ensures var g := BandsFrom(CheckNewBand, old(bt.bands), data, 0, company, firstRange);
      (g.Ok? ==> r == Ok(g.value.ids) && bt.bands == g.value.table)
      && (g.Err? ==> r == Err(g.error) && bt.bands == old(bt.bands))
  {
    var start := bt.bands;
    ghost var goal := BandsFrom(CheckNewBand, start, data, 0, company, firstRange);
    var created: seq<BandId> := [];
    var nextRange: RangeId := firstRange;
    ExtendNothing(goal);
    var k: nat := 0;
    while k < |data|
      invariant 0 <= k <= |data| && bt.Valid() && start == old(bt.bands)
      invariant goal == Extend(created, BandsFrom(CheckNewBand, bt.bands, data, k, company, nextRange))
      decreases |data| - k
    {
      ghost var rest := BandsFrom(CheckNewBand, bt.bands, data, k, company, nextRange);
      if BandCodeFound(bt.bands, data[k].code) {
        BandsFromSkips(CheckNewBand, bt.bands, data, k, company, nextRange);
      } else {
        var c := CreateStandardBand(bt, data, k, company, nextRange);
        if c.Err? {
          bt.bands := start;
          return Err(c.error);
        }
        ExtendStep(goal, created, rest, c.value, BandsFrom(CheckNewBand, bt.bands, data, k + 1, company, nextRange + |data[k].ranges|));
        created := created + [c.value];
        nextRange := nextRange + |data[k].ranges|;
      }
      k := k + 1;
    }
    assert created + [] == created;
    r := Ok(created);
  }

  /** A code present in a table is still present once a band is appended. */
  lemma FoundAfterAppend(bands: seq<Band>, b: Band, code: string)
    requires BandCodeFound(bands, code)
    ensures BandCodeFound(bands + [b], code)
  {
    var i :| 0 <= i < |bands| && bands[i].active && bands[i].code == code;
    assert (bands + [b])[i] == bands[i];
  }

  /** What the loop keeps: the old bands stay in place and the new ones get consecutive ids
      after them. */
  lemma {:induction false} BandsFromKeeps(accept: (seq<Band>, Band) -> Outcome, bands: seq<Band>, data: seq<BandData>, k: nat, company: CompanyId, nextRange: RangeId)
    requires BandsFrom(accept, bands, data, k, company, nextRange).Ok?
    ensures var c := BandsFrom(accept, bands, data, k, company, nextRange).value;
      |bands| <= |c.table| && c.table[..|bands|] == bands
      && |c.ids| == |c.table| - |bands| && (forall i :: 0 <= i < |c.ids| ==> c.ids[i] == |bands| + i)
    decreases |data| - k
  {
    if k < |data| {
      if BandCodeFound(bands, data[k].code) {
        BandsFromSkips(accept, bands, data, k, company, nextRange);
        BandsFromKeeps(accept, bands, data, k + 1, company, nextRange);
      } else {
        var t := bands + [BandOf(data[k], |bands|, company, nextRange)];
        BandsFromCreates(accept, bands, data, k, company, nextRange);
        BandsFromKeeps(accept, t, data, k + 1, company, nextRange + |data[k].ranges|);
        var c := BandsFrom(accept, t, data, k + 1, company, nextRange + |data[k].ranges|).value;
        assert c.table[..|bands|] == bands by {
          assert c.table[..|t|][..|bands|] == c.table[..|bands|];
        }
      }
    }
  }

  /** What the loop creates: every new band is active, in the company, and carries a
      standard code that was missing from the table. */
  lemma {:induction false} BandsFromNew(accept: (seq<Band>, Band) -> Outcome, bands: seq<Band>, data: seq<BandData>, k: nat, company: CompanyId, nextRange: RangeId)
    requires BandsFrom(accept, bands, data, k, company, nextRange).Ok?
    ensures var c := BandsFrom(accept, bands, data, k, company, nextRange).value;
      forall j :: |bands| <= j < |c.table| ==>
        c.table[j].active && c.table[j].company == company && !BandCodeFound(bands, c.table[j].code)
        && exists m :: k <= m < |data| && c.table[j].code == data[m].code
    decreases |data| - k
  {
    BandsFromKeeps(accept, bands, data, k, company, nextRange);
    if k < |data| {
      if BandCodeFound(bands, data[k].code) {
        BandsFromSkips(accept, bands, data, k, company, nextRange);
        BandsFromNew(accept, bands, data, k + 1, company, nextRange);
      } else {
        var b := BandOf(data[k], |bands|, company, nextRange);
        var t := bands + [b];
        BandsFromCreates(accept, bands, data, k, company, nextRange);
        BandsFromKeeps(accept, t, data, k + 1, company, nextRange + |data[k].ranges|);
        BandsFromNew(accept, t, data, k + 1, company, nextRange + |data[k].ranges|);
        var c := BandsFrom(accept, t, data, k + 1, company, nextRange + |data[k].ranges|).value;
        forall j | |bands| <= j < |c.table|
          ensures c.table[j].active && c.table[j].company == company && !BandCodeFound(bands, c.table[j].code)
          ensures exists m :: k <= m < |data| && c.table[j].code == data[m].code
        {
          if j == |bands| {
            assert c.table[j] == c.table[..|t|][|bands|] == b;
          } else if BandCodeFound(bands, c.table[j].code) {
            FoundAfterAppend(bands, b, c.table[j].code);
            assert false;
          }
        }
      }
    }
  }

  /** What the loop achieves: afterwards every standard code from `k` on is present. */
  lemma {:induction false} BandsFromComplete(accept: (seq<Band>, Band) -> Outcome, bands: seq<Band>, data: seq<BandData>, k: nat, company: CompanyId, nextRange: RangeId)
    requires BandsFrom(accept, bands, data, k, company, nextRange).Ok?
    ensures var c := BandsFrom(accept, bands, data, k, company, nextRange).value;
      forall m :: k <= m < |data| ==> BandCodeFound(c.table, data[m].code)
    decreases |data| - k
  {
    if k < |data| {
      var c := BandsFrom(accept, bands, data, k, company, nextRange).value;
      BandsFromKeeps(accept, bands, data, k, company, nextRange);
      if BandCodeFound(bands, data[k].code) {
        BandsFromSkips(accept, bands, data, k, company, nextRange);
        BandsFromComplete(accept, bands, data, k + 1, company, nextRange);
        var i :| 0 <= i < |bands| && bands[i].active && bands[i].code == data[k].code;
        assert c.table[i] == c.table[..|bands|][i];
      } else {
        var b := BandOf(data[k], |bands|, company, nextRange);
        var t := bands + [b];
        BandsFromCreates(accept, bands, data, k, company, nextRange);
        BandsFromKeeps(accept, t, data, k + 1, company, nextRange + |data[k].ranges|);
        BandsFromComplete(accept, t, data, k + 1, company, nextRange + |data[k].ranges|);
        assert c.table[|bands|] == c.table[..|t|][|bands|] == b;
      }
    }
  }

  /** Once every standard code is present the loop creates nothing: running the step a
      second time changes no band. */
  lemma {:induction false} BandsFromIdle(accept: (seq<Band>, Band) -> Outcome, bands: seq<Band>, data: seq<BandData>, k: nat, company: CompanyId, nextRange: RangeId)
    requires forall m :: k <= m < |data| ==> BandCodeFound(bands, data[m].code)
    ensures BandsFrom(accept, bands, data, k, company, nextRange) == Ok(Created(bands, []))
    decreases |data| - k
  {
    if k < |data| {
      BandsFromIdle(accept, bands, data, k + 1, company, nextRange);
    }
  }

  // ---------------------------------------------------------------------------------
  // Default rules (`_create_default_rules`)

  /** `search([('code', '=', code)], limit=1)` on bands: the first active band with the
      code. */
  function FindBand(bands: seq<Band>, code: string): (o: Option<Band>)
    ensures o.Some? <==> BandCodeFound(bands, code)
    ensures o.Some? ==> o.value in bands && o.value.active && o.value.code == code
  {
    if bands == [] then None
    else if bands[0].active && bands[0].code == code then Some(bands[0])
    else
      var o := FindBand(bands[1..], code);
      assert forall i :: 1 <= i < |bands| ==> bands[i] == bands[1..][i - 1];
      o
  }

  datatype RuleData = RuleData(name: string, code: string, priority: int, kind: CommissionType, band: Option<Band>)

  /** The four standard rules, the band rules pointing at the standard bands found. */
  function DefaultRules(bands: seq<Band>): seq<RuleData>
  {
    [ RuleData("Premium Sales Rule", "RULE_PREMIUM", 10, BandType, FindBand(bands, "BAND_PREMIUM")),
      RuleData("Supervision Rule", "RULE_SUPERVISION", 20, BandType, FindBand(bands, "BAND_SUPERVISION")),
      RuleData("Office Sales Rule", "RULE_OFFICE", 30, BandType, FindBand(bands, "BAND_OFFICE")),
      RuleData("No Commission Rule", "RULE_NO_COMMISSION", 100, NoneType, None) ]
  }

  /** A rule as the wizard creates it: active, in the current company, without
      restrictions. */
  function RuleOf(d: RuleData, id: RuleId, company: CompanyId): Rule
  {
    Rule(id, d.name, d.code, true, company, 10, d.priority, {}, {}, {}, {}, {}, d.kind, 0.0, 0.0, d.band,
         None, None, 0.0, 0.0, {}, {})
  }

  /** A standard rule the loop does not skip passes every rule check. */
  lemma DefaultRulesAccepted(bands: seq<Band>, k: nat, id: RuleId, company: CompanyId)
    requires k < |DefaultRules(bands)|
    requires DefaultRules(bands)[k].kind == BandType ==> DefaultRules(bands)[k].band.Some?
    ensures CheckRule(RuleOf(DefaultRules(bands)[k], id, company)) == Pass
  {
    CheckRuleAccepts(RuleOf(DefaultRules(bands)[k], id, company));
  }

  predicate RuleCodeFound(rules: seq<Rule>, code: string)
  {
    exists i :: 0 <= i < |rules| && rules[i].active && rules[i].code == code
  }

  /** A band rule whose band was not found is skipped. */
  predicate Skipped(d: RuleData)
  {
    d.kind == BandType && d.band.None?
  }

  /** The rule creation loop from the `k`-th rule on; `accept` is the table's check on a
      new rule (`CheckNewRule` for the rule table). */
  function RulesFrom(accept: (seq<Rule>, Rule) -> Outcome, rules: seq<Rule>, data: seq<RuleData>, k: nat, company: CompanyId): Result<Created<Rule>>
    decreases |data| - k
  {
    if k >= |data| then Ok(Created(rules, []))
    else
      var d := data[k];
      if Skipped(d) || RuleCodeFound(rules, d.code) then RulesFrom(accept, rules, data, k + 1, company)
      else
        var r := RuleOf(d, |rules|, company);
        if accept(rules, r).Fail? then Err(accept(rules, r).error)
        else Extend([|rules|], RulesFrom(accept, rules + [r], data, k + 1, company))
  }

  /** What the rule loop creates: the old rules stay, and each new rule is a standard
      rule that was not skipped, appended under consecutive ids; afterwards every rule
      not skipped has its code present. */
  lemma {:induction false} RulesFromSpec(accept: (seq<Rule>, Rule) -> Outcome, rules: seq<Rule>, data: seq<RuleData>, k: nat, company: CompanyId)
    requires RulesFrom(accept, rules, data, k, company).Ok?
    ensures var c := RulesFrom(accept, rules, data, k, company).value;
      |rules| <= |c.table| && c.table[..|rules|] == rules
      && |c.ids| == |c.table| - |rules| && (forall i :: 0 <= i < |c.ids| ==> c.ids[i] == |rules| + i)
      && (forall j :: |rules| <= j < |c.table| ==>
            exists m :: k <= m < |data| && !Skipped(data[m]) && c.table[j] == RuleOf(data[m], j, company))
      && forall m :: k <= m < |data| && !Skipped(data[m]) ==> RuleCodeFound(c.table, data[m].code)
    decreases |data| - k
  {
    if k < |data| {
      var d := data[k];
      if Skipped(d) || RuleCodeFound(rules, d.code) {
        RulesFromSpec(accept, rules, data, k + 1, company);
      } else {
        var r := RuleOf(d, |rules|, company);
        var t := rules + [r];
        RulesFromSpec(accept, t, data, k + 1, company);
        var c := RulesFrom(accept, t, data, k + 1, company).value;
        assert c.table[..|rules|] == rules by {
          assert c.table[..|t|][..|rules|] == c.table[..|rules|];
        }
        assert c.table[|rules|] == r;
        assert RuleCodeFound(c.table, d.code) by {
          assert c.table[|rules|].active && c.table[|rules|].code == d.code;
        }
      }
    }
  }

  // ---------------------------------------------------------------------------------
  // Users (`_configure_users`)

  /** `self.rule_ids.sorted('priority')[-1]`: the rule with the largest priority number,
      the last of them on a tie. */
  function HighestPriority(rs: seq<Rule>): (r: Option<Rule>)
    ensures r.None? <==> rs == []
    ensures r.Some? ==> r.value in rs && forall x :: x in rs ==> x.priority <= r.value.priority
  {
    if rs == [] then None
    else
      var rest := HighestPriority(rs[..|rs| - 1]);
      assert rs == rs[..|rs| - 1] + [rs[|rs| - 1]];
      if rest.None? || rs[|rs| - 1].priority >= rest.value.priority then Some(rs[|rs| - 1]) else rest
  }

  /** A user the "all sales users" search finds: internal and in a sales team. */
  predicate SalesUser(u: User)
  {
    !u.share && u.team.Some?
  }

  /** The users to configure: every sales user, or the selected ones. */
  function UsersToConfigure(activateAll: bool, selected: seq<User>, all: seq<User>): (us: seq<User>)
    ensures activateAll ==> forall u :: u in us <==> u in all && SalesUser(u)
    ensures !activateAll ==> us == selected
  {
    if activateAll then Filter(all, SalesUser) else selected
  }

  /** The user has an active configuration in the company with the given default rule. */
  predicate Configured(configs: seq<Config>, u: UserId, company: CompanyId, rule: Option<Rule>)
  {
    exists i :: 0 <= i < |configs| && configs[i].user == u && configs[i].company == company
                && configs[i].commissionActive && configs[i].defaultRule == rule
  }

  /** Writing one configuration active with the rule, and leaving the others, keeps every
      user configured who was. */
  lemma WriteKeepsConfigured(before: seq<Config>, after: seq<Config>, id: nat, company: CompanyId, rule: Option<Rule>)
    requires |before| <= |after| && id < |after|
    requires forall i :: 0 <= i < |before| && i != id ==> after[i] == before[i]
    requires after[id].commissionActive && after[id].defaultRule == rule
    requires id < |before| ==> after[id].user == before[id].user && after[id].company == before[id].company
    ensures forall v :: Configured(before, v, company, rule) ==> Configured(after, v, company, rule)
  {
    forall v | Configured(before, v, company, rule) ensures Configured(after, v, company, rule) {
      var i :| 0 <= i < |before| && before[i].user == v && before[i].company == company
               && before[i].commissionActive && before[i].defaultRule == rule;
      assert after[i].user == v && after[i].company == company && after[i].commissionActive && after[i].defaultRule == rule;
    }
  }

  predicate ConfigsNumbered(configs: seq<Config>)
  {
    forall i :: 0 <= i < |configs| ==> configs[i].id == i
  }

  /** The configurations after `create_or_update_config` for the user in the company:
      the values written into the user's configuration, or a new one created with them. */
  function Upserted(configs: seq<Config>, u: User, company: CompanyId, vals: ConfigVals): (r: seq<Config>)
    requires ConfigsNumbered(configs)
    ensures ConfigsNumbered(r) && |configs| <= |r| <= |configs| + 1
  {
    var found := Find(configs, u.id, company);
    if found.Some? then
      assert exists i :: 0 <= i < |configs| && configs[i] == found.value;
      configs[found.value.id := ApplyVals(configs[found.value.id], vals)]
    else configs + [ApplyVals(NewConfig(|configs|, u.id, u.name, company), vals)]
  }

  /** The configurations after the users from `k` on, one after the other, were given
      `commission_active` and the default rule. */
  function ConfiguredFrom(configs: seq<Config>, users: seq<User>, k: nat, company: CompanyId, rule: Option<Rule>): (r: seq<Config>)
    requires k <= |users| && ConfigsNumbered(configs)
    ensures ConfigsNumbered(r) && |configs| <= |r|
    decreases |users| - k
  {
    if k == |users| then configs
    else ConfiguredFrom(Upserted(configs, users[k], company, ConfigVals(Some(true), Some(rule))), users, k + 1, company, rule)
  }

  /** One user of the loop: `create_or_update_config` with `commission_active` and the
      default rule. */
  method ConfigureOne(cft: ConfigTable, u: User, company: CompanyId, rule: Option<Rule>) returns (id: ConfigId)
    requires cft.Valid()
    modifies cft
    ensures cft.Valid() && |old(cft.configs)| <= |cft.configs|
    ensures cft.configs == Upserted(old(cft.configs), u, company, ConfigVals(Some(true), Some(rule)))
    ensures id < |cft.configs| && cft.configs[id].user == u.id && cft.configs[id].company == company
    ensures cft.configs[id].commissionActive && cft.configs[id].defaultRule == rule
    ensures id < |old(cft.configs)| ==> old(cft.configs)[id].user == u.id && old(cft.configs)[id].company == company
    ensures forall i :: 0 <= i < |old(cft.configs)| && i != id ==> cft.configs[i] == old(cft.configs)[i]
  {
    id := cft.CreateOrUpdate(u.id, u.name, Some(company), company, ConfigVals(Some(true), Some(rule)));
  }

  /** One upsert configures its user in the company, keeps every user configured who
      was, and keeps the configurations of other users and other companies. */
  lemma UpsertedFacts(configs: seq<Config>, u: User, company: CompanyId, rule: Option<Rule>)
    requires ConfigsNumbered(configs)
    ensures var r := Upserted(configs, u, company, ConfigVals(Some(true), Some(rule)));
      Configured(r, u.id, company, rule)
      && (forall v :: Configured(configs, v, company, rule) ==> Configured(r, v, company, rule))
      && forall i :: 0 <= i < |configs| && (configs[i].user != u.id || configs[i].company != company) ==> r[i] == configs[i]
  {
    var r := Upserted(configs, u, company, ConfigVals(Some(true), Some(rule)));
    var found := Find(configs, u.id, company);
    var id := if found.Some? then found.value.id else |configs|;
    if found.Some? {
      assert exists i :: 0 <= i < |configs| && configs[i] == found.value;
    }
    WriteKeepsConfigured(configs, r, id, company, rule);
    assert r[id].user == u.id && r[id].company == company && r[id].commissionActive && r[id].defaultRule == rule;
  }

  /** The loop keeps every user configured who was. */
  lemma {:induction false} ConfiguredFromKeeps(configs: seq<Config>, users: seq<User>, k: nat, company: CompanyId,
                                              rule: Option<Rule>, v: UserId)
    requires k <= |users| && ConfigsNumbered(configs) && Configured(configs, v, company, rule)
    ensures Configured(ConfiguredFrom(configs, users, k, company, rule), v, company, rule)
    decreases |users| - k
  {
    if k < |users| {
      UpsertedFacts(configs, users[k], company, rule);
      ConfiguredFromKeeps(Upserted(configs, users[k], company, ConfigVals(Some(true), Some(rule))), users, k + 1, company, rule, v);
    }
  }

  /** The loop configures every user of the list. */
  lemma {:induction false} ConfiguredFromConfigures(configs: seq<Config>, users: seq<User>, k: nat, company: CompanyId,
                                                   rule: Option<Rule>)
    requires k <= |users| && ConfigsNumbered(configs)
    ensures forall m :: k <= m < |users| ==> Configured(ConfiguredFrom(configs, users, k, company, rule), users[m].id, company, rule)
    decreases |users| - k
  {
    if k < |users| {
      var next := Upserted(configs, users[k], company, ConfigVals(Some(true), Some(rule)));
      UpsertedFacts(configs, users[k], company, rule);
      ConfiguredFromConfigures(next, users, k + 1, company, rule);
      ConfiguredFromKeeps(next, users, k + 1, company, rule, users[k].id);
    }
  }

  /** The loop leaves the configurations of users outside the list and of other companies. */
  lemma {:induction false} ConfiguredFromFrame(configs: seq<Config>, users: seq<User>, k: nat, company: CompanyId,
                                              rule: Option<Rule>)
    requires k <= |users| && ConfigsNumbered(configs)
    ensures var r := ConfiguredFrom(configs, users, k, company, rule);
      (forall i :: 0 <= i < |configs| ==>
         (exists m :: k <= m < |users| && users[m].id == configs[i].user) || r[i] == configs[i])
      && (forall i :: 0 <= i < |configs| && configs[i].company != company ==> r[i] == configs[i])
    decreases |users| - k
  {
    if k < |users| {
      var next := Upserted(configs, users[k], company, ConfigVals(Some(true), Some(rule)));
      UpsertedFacts(configs, users[k], company, rule);
      ConfiguredFromFrame(next, users, k + 1, company, rule);
      var r := ConfiguredFrom(next, users, k + 1, company, rule);
      forall i | 0 <= i < |configs| && r[i] != configs[i]
        ensures exists m :: k <= m < |users| && users[m].id == configs[i].user
      {
        if next[i] == configs[i] {
          var m :| k + 1 <= m < |users| && users[m].id == next[i].user;
        } else {
          assert users[k].id == configs[i].user;
        }
      }
    }
  }

  /** The loop over the users: each gets `commission_active` and the default rule through
      `create_or_update_config`; configurations of other users or companies are left as
      they were. */
  method ConfigureUsers(cft: ConfigTable, users: seq<User>, company: CompanyId, rule: Option<Rule>)
    requires cft.Valid()
    modifies cft
    ensures cft.Valid() && |old(cft.configs)| <= |cft.configs|
    ensures cft.configs == ConfiguredFrom(old(cft.configs), users, 0, company, rule)
    ensures forall u :: u in users ==> Configured(cft.configs, u.id, company, rule)
    ensures forall i :: 0 <= i < |old(cft.configs)| ==>
      ((exists u :: u in users && u.id == old(cft.configs)[i].user) || cft.configs[i] == old(cft.configs)[i])
    ensures forall i :: 0 <= i < |old(cft.configs)| && old(cft.configs)[i].company != company ==> cft.configs[i] == old(cft.configs)[i]
  {
    var k: nat := 0;
    while k < |users|
      invariant 0 <= k <= |users| && cft.Valid()
      invariant ConfiguredFrom(cft.configs, users, k, company, rule) == ConfiguredFrom(old(cft.configs), users, 0, company, rule)
    {
      var id := ConfigureOne(cft, users[k], company, rule);
      k := k + 1;
    }
    ConfiguredFromConfigures(old(cft.configs), users, 0, company, rule);
    ConfiguredFromFrame(old(cft.configs), users, 0, company, rule);
    forall u | u in users ensures Configured(cft.configs, u.id, company, rule) {
      var m :| 0 <= m < |users| && users[m] == u;
    }
  }

  /** The records behind the ids the rule step remembered (`rule_ids`). */
  function RulesAt(rules: seq<Rule>, ids: seq<RuleId>): seq<Rule>
    requires forall i :: 0 <= i < |ids| ==> ids[i] < |rules|
  {
    seq(|ids|, i requires 0 <= i < |ids| => rules[ids[i]])
  }

  // ---------------------------------------------------------------------------------
  // The wizard

  class ConfigurationWizard {
    var state: Step
    var createDefaultBands: bool
    var createDefaultRules: bool
    var bandIds: seq<BandId>
    var ruleIds: seq<RuleId>
    var userIds: seq<User>
    var activateAllUsers: bool

    constructor ()
      ensures state == Welcome && createDefaultBands && createDefaultRules && !activateAllUsers
      ensures bandIds == [] && ruleIds == [] && userIds == []
    {
      state := Welcome;
      createDefaultBands := true;
      createDefaultRules := true;
      bandIds := [];
      ruleIds := [];
      userIds := [];
      activateAllUsers := false;
    }

    /** The created rules point into the rule table. */
    ghost predicate Linked(rt: RuleTable)
      reads this, rt
    {
      forall i :: 0 <= i < |ruleIds| ==> ruleIds[i] < |rt.rules|
    }

    /** `action_previous`. */
    method Previous()
      modifies this
      ensures state == PreviousStep(old(state))
      ensures bandIds == old(bandIds) && ruleIds == old(ruleIds) && userIds == old(userIds)
      ensures createDefaultBands == old(createDefaultBands) && createDefaultRules == old(createDefaultRules)
      ensures activateAllUsers == old(activateAllUsers)
    {
      state := PreviousStep(state);
    }

    /** The band step over the given band data: the bands are created and remembered, or nothing changes
        when one of them is refused. */
    method CreateBands(bt: BandTable, data: seq<BandData>, company: CompanyId, firstRange: RangeId) returns (o: Outcome)
      requires bt.Valid()
      modifies this, bt
      ensures bt.Valid()
      ensures state == old(state) && ruleIds == old(ruleIds) && userIds == old(userIds)
      ensures createDefaultBands == old(createDefaultBands) && createDefaultRules == old(createDefaultRules)
      ensures activateAllUsers == old(activateAllUsers)
      ensures var r := BandsFrom(CheckNewBand, old(bt.bands), data, 0, company, firstRange);
        (r.Ok? ==> o == Pass && bt.bands == r.value.table && bandIds == r.value.ids)
        && (r.Err? ==> o == Fail(r.error) && bt.bands == old(bt.bands) && bandIds == old(bandIds))
    {
      var r := CreateStandardBands(bt, data, company, firstRange);
      if r.Err? {
        return Fail(r.error);
      }
      bandIds := r.value;
      o := Pass;
    }

    /** The rule step: the standard rules are created for the standard bands found, or
        nothing changes when one of them is refused. */
    method CreateRules(bt: BandTable, rt: RuleTable, company: CompanyId) returns (o: Outcome)
      requires rt.Valid() && Linked(rt)
      modifies this, rt
      ensures rt.Valid() && Linked(rt)
      ensures state == old(state) && bandIds == old(bandIds) && userIds == old(userIds)
      ensures createDefaultBands == old(createDefaultBands) && createDefaultRules == old(createDefaultRules)
      ensures activateAllUsers == old(activateAllUsers)
      ensures var r := RulesFrom(CheckNewRule, old(rt.rules), DefaultRules(bt.bands), 0, company);
        (r.Ok? ==> o == Pass && rt.rules == r.value.table && ruleIds == r.value.ids)
        && (r.Err? ==> o == Fail(r.error) && rt.rules == old(rt.rules) && ruleIds == old(ruleIds))
    {
      var start := rt.rules;
      var data := DefaultRules(bt.bands);
      var created: seq<RuleId> := [];
      ExtendNothing(RulesFrom(CheckNewRule, start, data, 0, company));
      var k: nat := 0;
      while k < |data|
        modifies rt
        invariant 0 <= k <= |data| && rt.Valid() && |start| <= |rt.rules|
        invariant forall i :: 0 <= i < |created| ==> created[i] < |rt.rules|
        invariant RulesFrom(CheckNewRule, start, data, 0, company) == Extend(created, RulesFrom(CheckNewRule, rt.rules, data, k, company))
      {
        var d := data[k];
        if Skipped(d) || RuleCodeFound(rt.rules, d.code) {
          k := k + 1;
          continue;
        }
        ghost var before := rt.rules;
        var r := rt.Create(RuleOf(d, |rt.rules|, company));
        if r.Err? {
          rt.rules := start;
          return Fail(r.error);
        }
        ExtendTwice(created, [|before|], RulesFrom(CheckNewRule, rt.rules, data, k + 1, company));
        created := created + [r.value];
        k := k + 1;
      }
      ruleIds := created;
      o := Pass;
    }

    /** `action_next`: one step forward, doing the step's work on the way; a refused band
        or rule undoes the step. */
    method Next(bt: BandTable, rt: RuleTable, cft: ConfigTable, allUsers: seq<User>, company: CompanyId, firstRange: RangeId)
      returns (o: Outcome)
      requires bt.Valid() && rt.Valid() && cft.Valid() && Linked(rt)
      modifies this, bt, rt, cft
      ensures bt.Valid() && rt.Valid() && cft.Valid() && Linked(rt)
      ensures o.Pass? ==> state == NextStep(old(state))
      ensures userIds == old(userIds) && activateAllUsers == old(activateAllUsers)
      ensures createDefaultBands == old(createDefaultBands) && createDefaultRules == old(createDefaultRules)
      ensures o.Fail? ==> state == old(state) && bt.bands == old(bt.bands) && rt.rules == old(rt.rules)
                          && cft.configs == old(cft.configs) && bandIds == old(bandIds) && ruleIds == old(ruleIds)
      ensures old(state) == BandsStep ==> rt.rules == old(rt.rules) && cft.configs == old(cft.configs) && ruleIds == old(ruleIds)
      ensures old(state) == RulesStep ==> bt.bands == old(bt.bands) && cft.configs == old(cft.configs) && bandIds == old(bandIds)
      ensures old(state) == BandsStep && old(createDefaultBands) ==>
        (var r := BandsFrom(CheckNewBand, old(bt.bands), DefaultBands(), 0, company, firstRange);
         (r.Ok? ==> o == Pass && bt.bands == r.value.table && bandIds == r.value.ids) && (r.Err? ==> o == Fail(r.error)))
      ensures old(state) == RulesStep && old(createDefaultRules) ==>
        (var r := RulesFrom(CheckNewRule, old(rt.rules), DefaultRules(old(bt.bands)), 0, company);
         (r.Ok? ==> o == Pass && rt.rules == r.value.table && ruleIds == r.value.ids) && (r.Err? ==> o == Fail(r.error)))
      ensures old(state) == UsersStep ==>
        o == Pass && bt.bands == old(bt.bands) && rt.rules == old(rt.rules) && bandIds == old(bandIds) && ruleIds == old(ruleIds)
        && cft.configs == ConfiguredFrom(old(cft.configs), UsersToConfigure(activateAllUsers, userIds, allUsers), 0, company,
                                         HighestPriority(RulesAt(rt.rules, ruleIds)))
        && forall u :: u in UsersToConfigure(activateAllUsers, userIds, allUsers) ==>
             Configured(cft.configs, u.id, company, HighestPriority(RulesAt(rt.rules, ruleIds)))
      ensures !(old(state) == BandsStep && old(createDefaultBands)) && !(old(state) == RulesStep && old(createDefaultRules))
              && old(state) != UsersStep ==>
        o == Pass && bt.bands == old(bt.bands) && rt.rules == old(rt.rules) && cft.configs == old(cft.configs)
        && bandIds == old(bandIds) && ruleIds == old(ruleIds)
    {
      o := Pass;
      match state {
        case Welcome =>
        case BandsStep =>
          if createDefaultBands {
            o := CreateBands(bt, DefaultBands(), company, firstRange);
          }
        case RulesStep =>
          if createDefaultRules {
            o := CreateRules(bt, rt, company);
          }
        case UsersStep =>
          var users := UsersToConfigure(activateAllUsers, userIds, allUsers);
          ConfigureUsers(cft, users, company, HighestPriority(RulesAt(rt.rules, ruleIds)));
        case Done =>
      }
      if o.Pass? {
        state := NextStep(state);
      }
    }
  }
}
