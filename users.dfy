/** The commission side of `res.users`: choosing the rule that applies to a salesperson,
    the statistics over the salesperson's settled calculations, the collection-delay
    buckets of the dashboard, and the bulk creation of salesperson configurations. */
module Users {
  import opened Common
  import opened Dates
  import opened Sorting
  import opened Records
  import opened Rules
  import opened Configs

  /** The search order of rules: `priority, sequence`. */
  function PriorityKey(r: Rule): (int, int)
  {
    (r.priority, r.sequence)
  }

  /** The company the rule search looks in: the invoice's, else the user's current one. */
  function SearchCompany(u: User, invoice: Option<Invoice>): CompanyId
  {
    if invoice.Some? then invoice.value.company else u.company
  }

  /** The search domain: active rules of the company, and with a payment only those whose
      validity window holds the payment date. */
  predicate Candidate(r: Rule, company: CompanyId, payment: Option<Payment>)
  {
    r.active && r.company == company && (payment.Some? ==> InValidity(r, payment.value.date))
  }

  /** The rules the search domain selects, in table order. */
  function InDomain(rules: seq<Rule>, company: CompanyId, payment: Option<Payment>): (r: seq<Rule>)
    ensures forall x :: x in r <==> x in rules && Candidate(x, company, payment)
  {
    if rules == [] then []
    else
      var rest := InDomain(rules[1..], company, payment);
      assert forall x :: x in rules <==> x == rules[0] || x in rules[1..];
      if Candidate(rules[0], company, payment) then [rules[0]] + rest else rest
  }

  /** The rules of the search domain in search order. */
  function Candidates(rules: seq<Rule>, company: CompanyId, payment: Option<Payment>): seq<Rule>
  {
    Sort(InDomain(rules, company, payment), PriorityKey)
  }

  predicate Matches(r: Rule, invoice: Option<Invoice>, payment: Option<Payment>, u: User, today: Date)
  {
    MatchesCriteria(r, invoice, payment, Some(u), today)
  }

  /** The position of the first rule from `i` on that matches, `|s|` when none does. */
  function FirstMatchFrom(s: seq<Rule>, i: nat, invoice: Option<Invoice>, payment: Option<Payment>, u: User, today: Date): (k: nat)
    requires i <= |s|
    ensures i <= k <= |s|
    ensures k < |s| ==> Matches(s[k], invoice, payment, u, today)
    ensures forall j :: i <= j < k ==> !Matches(s[j], invoice, payment, u, today)
    decreases |s| - i
  {
    if i == |s| then i
    else if Matches(s[i], invoice, payment, u, today) then i
    else FirstMatchFrom(s, i + 1, invoice, payment, u, today)
  }

  /** `get_applicable_commission_rule`: no rule for a user outside the commission band
      system or with an inactive configuration; else the first matching candidate in
      priority order; else the configuration's default rule if it is active and matches. */
  function GetApplicableRule(u: User, configs: seq<Config>, rules: seq<Rule>, invoice: Option<Invoice>,
                             payment: Option<Payment>, today: Date): Option<Rule>
  {
    var company := SearchCompany(u, invoice);
    var config := Find(configs, u.id, company);
    if !u.commissionBandActive then None
    else if config.Some? && !config.value.commissionActive then None
    else
      var s := Candidates(rules, company, payment);
      var k := FirstMatchFrom(s, 0, invoice, payment, u, today);
      if k < |s| then Some(s[k])
      else if config.Some? && config.value.defaultRule.Some? && config.value.defaultRule.value.active
              && Matches(config.value.defaultRule.value, invoice, payment, u, today)
      then config.value.defaultRule
      else None
  }

  /** A candidate that matches exists. */
  predicate SomeCandidateMatches(u: User, rules: seq<Rule>, invoice: Option<Invoice>, payment: Option<Payment>, today: Date)
  {
    exists r :: r in rules && Candidate(r, SearchCompany(u, invoice), payment) && Matches(r, invoice, payment, u, today)
  }

  /** The switches: a user outside the band system, or whose configuration for the
      company is inactive, gets no rule; whatever is returned is active and matches. */
  lemma GetApplicableRuleGuards(u: User, configs: seq<Config>, rules: seq<Rule>, invoice: Option<Invoice>,
                                payment: Option<Payment>, today: Date)
    ensures !u.commissionBandActive ==> GetApplicableRule(u, configs, rules, invoice, payment, today).None?
    ensures var config := Find(configs, u.id, SearchCompany(u, invoice));
      config.Some? && !config.value.commissionActive ==> GetApplicableRule(u, configs, rules, invoice, payment, today).None?
    ensures var res := GetApplicableRule(u, configs, rules, invoice, payment, today);
      res.Some? ==> res.value.active && Matches(res.value, invoice, payment, u, today)
  {
    var company := SearchCompany(u, invoice);
    SortedElements(InDomain(rules, company, payment), PriorityKey);
    var s := Candidates(rules, company, payment);
    var k := FirstMatchFrom(s, 0, invoice, payment, u, today);
    if k < |s| {
      assert s[k] in s;
    }
  }

  /** When a matching candidate exists the chosen rule is a candidate whose
      (priority, sequence) is the smallest among all matching candidates: a lower priority
      always wins, and at equal priority the lower sequence. */
  lemma GetApplicableRuleIsFirstInOrder(u: User, configs: seq<Config>, rules: seq<Rule>, invoice: Option<Invoice>,
                                        payment: Option<Payment>, today: Date)
    requires u.commissionBandActive
    requires var config := Find(configs, u.id, SearchCompany(u, invoice)); config.Some? ==> config.value.commissionActive
    requires SomeCandidateMatches(u, rules, invoice, payment, today)
    ensures var res := GetApplicableRule(u, configs, rules, invoice, payment, today);
      res.Some? && res.value in rules && Candidate(res.value, SearchCompany(u, invoice), payment)
      && forall r :: r in rules && Candidate(r, SearchCompany(u, invoice), payment) && Matches(r, invoice, payment, u, today) ==>
           KeyLe(PriorityKey(res.value), PriorityKey(r))
  {
    var company := SearchCompany(u, invoice);
    var f := InDomain(rules, company, payment);
    var s := Candidates(rules, company, payment);
    SortedElements(f, PriorityKey);
    SortSorted(f, PriorityKey);
    var w :| w in rules && Candidate(w, company, payment) && Matches(w, invoice, payment, u, today);
    assert w in s;
    FirstMatchIsMinimal(s, invoice, payment, u, today);
    GetApplicableRuleTakesFirstMatch(u, configs, rules, invoice, payment, today);
  }

  /** In a sequence sorted by (priority, sequence) the first matching rule has the
      smallest key among the matching ones. */
  lemma FirstMatchIsMinimal(s: seq<Rule>, invoice: Option<Invoice>, payment: Option<Payment>, u: User, today: Date)
    requires SortedBy(s, PriorityKey)
    ensures var k := FirstMatchFrom(s, 0, invoice, payment, u, today);
      forall r :: r in s && Matches(r, invoice, payment, u, today) ==> k < |s| && KeyLe(PriorityKey(s[k]), PriorityKey(r))
  {
    var k := FirstMatchFrom(s, 0, invoice, payment, u, today);
    forall r | r in s && Matches(r, invoice, payment, u, today)
      ensures k < |s| && KeyLe(PriorityKey(s[k]), PriorityKey(r))
    {
      var n :| 0 <= n < |s| && s[n] == r;
      assert k <= n;
      if k < n {
        assert KeyLe(PriorityKey(s[k]), PriorityKey(s[n]));
      }
    }
  }

  /** With the switches on, a matching candidate in search order is the answer. */
  lemma GetApplicableRuleTakesFirstMatch(u: User, configs: seq<Config>, rules: seq<Rule>, invoice: Option<Invoice>,
                                         payment: Option<Payment>, today: Date)
    requires u.commissionBandActive
    requires var config := Find(configs, u.id, SearchCompany(u, invoice)); config.Some? ==> config.value.commissionActive
    ensures var s := Candidates(rules, SearchCompany(u, invoice), payment);
      var k := FirstMatchFrom(s, 0, invoice, payment, u, today);
      k < |s| ==> GetApplicableRule(u, configs, rules, invoice, payment, today) == Some(s[k])
  {
  }

  /** Without a matching candidate the configuration's default rule is the answer exactly
      when it is active and matches; it is taken even when it belongs to another company,
      as long as it matches. */
  lemma GetApplicableRuleFallsBackToDefault(u: User, configs: seq<Config>, rules: seq<Rule>, invoice: Option<Invoice>,
                                            payment: Option<Payment>, today: Date)
    requires u.commissionBandActive
    requires !SomeCandidateMatches(u, rules, invoice, payment, today)
    ensures var config := Find(configs, u.id, SearchCompany(u, invoice));
      var res := GetApplicableRule(u, configs, rules, invoice, payment, today);
      res.Some? <==> (config.Some? && config.value.commissionActive && config.value.defaultRule.Some?
                      && config.value.defaultRule.value.active
                      && Matches(config.value.defaultRule.value, invoice, payment, u, today))
    ensures var config := Find(configs, u.id, SearchCompany(u, invoice));
      var res := GetApplicableRule(u, configs, rules, invoice, payment, today);
      res.Some? ==> res == config.value.defaultRule
  {
    var company := SearchCompany(u, invoice);
    SortedElements(InDomain(rules, company, payment), PriorityKey);
  }

  // ---------------------------------------------------------------------------------
  // Statistics over the settled calculations (`_compute_commission_stats`)

  /** The calculations the statistics look at: the user's, in the user's current company,
      validated, approved or paid. */
  predicate Settled(c: Calculation)
  {
    c.state == Validated || c.state == Approved || c.state == Paid
  }

  predicate StatCounted(c: Calculation, u: User)
  {
    c.salesperson == u.id && c.company == u.company && Settled(c)
  }

  function StatCount(cs: seq<Calculation>, u: User): nat
  {
    if cs == [] then 0 else StatCount(cs[..|cs| - 1], u) + (if StatCounted(cs[|cs| - 1], u) then 1 else 0)
  }

  function StatTotal(cs: seq<Calculation>, u: User, rate: RateService): real
  {
    if cs == [] then 0.0
    else StatTotal(cs[..|cs| - 1], u, rate) + (if StatCounted(cs[|cs| - 1], u) then CommissionAmountCompany(cs[|cs| - 1], rate) else 0.0)
  }

  /** The counted calculations whose `days_overdue` is not zero, and the sum of it. */
  function OverdueCount(cs: seq<Calculation>, u: User): nat
  {
    if cs == [] then 0
    else OverdueCount(cs[..|cs| - 1], u) + (if StatCounted(cs[|cs| - 1], u) && DaysOverdue(cs[|cs| - 1]) != 0 then 1 else 0)
  }

  function OverdueSum(cs: seq<Calculation>, u: User): int
  {
    if cs == [] then 0
    else OverdueSum(cs[..|cs| - 1], u) + (if StatCounted(cs[|cs| - 1], u) then DaysOverdue(cs[|cs| - 1]) else 0)
  }

  /** The average collection days: over the non-zero `days_overdue` only, 0 when there
      are none. */
  function AverageDays(cs: seq<Calculation>, u: User): real
  {
    if OverdueCount(cs, u) > 0 then OverdueSum(cs, u) as real / OverdueCount(cs, u) as real else 0.0
  }

  /** `_compute_commission_stats` for one user: a pass over the calculations
      accumulating the count, the company-currency total and the overdue days. */
  method ComputeStats(cs: seq<Calculation>, u: User, rate: RateService) returns (count: nat, total: real, avg: real)
    ensures count == StatCount(cs, u) && total == StatTotal(cs, u, rate) && avg == AverageDays(cs, u)
  {
    count, total := 0, 0.0;
    var daysSum, daysCount := 0, 0;
    var i := 0;
    while i < |cs|
      invariant 0 <= i <= |cs|
      invariant count == StatCount(cs[..i], u) && total == StatTotal(cs[..i], u, rate)
      invariant daysSum == OverdueSum(cs[..i], u) && daysCount == OverdueCount(cs[..i], u)
    {
      assert cs[..i + 1][..i] == cs[..i];
      var c := cs[i];
      if StatCounted(c, u) {
        count := count + 1;
        total := total + CommissionAmountCompany(c, rate);
        var d := DaysOverdue(c);
        if d != 0 {
          daysSum := daysSum + d;
          daysCount := daysCount + 1;
        }
      }
      i := i + 1;
    }
    assert cs[..i] == cs;
    avg := if daysCount > 0 then daysSum as real / daysCount as real else 0.0;
  }

  /** Only the user's settled calculations in the current company count: adding any
      other calculations changes none of the statistics. */
  lemma {:induction false} StatsIgnoreOthers(cs: seq<Calculation>, extra: seq<Calculation>, u: User, rate: RateService)
    requires forall i :: 0 <= i < |extra| ==> !StatCounted(extra[i], u)
    ensures StatCount(cs + extra, u) == StatCount(cs, u)
    ensures StatTotal(cs + extra, u, rate) == StatTotal(cs, u, rate)
    ensures OverdueCount(cs + extra, u) == OverdueCount(cs, u) && OverdueSum(cs + extra, u) == OverdueSum(cs, u)
    ensures AverageDays(cs + extra, u) == AverageDays(cs, u)
  {
    if extra != [] {
      var init := extra[..|extra| - 1];
      assert (cs + extra)[..|cs + extra| - 1] == cs + init;
      StatsIgnoreOthers(cs, init, u, rate);
    } else {
      assert cs + extra == cs;
    }
  }

  /** Calculations paid on their due date leave the average untouched, and the number
      of averaged calculations never exceeds the number counted. */
  lemma {:induction false} OnTimeDoesNotMoveAverage(cs: seq<Calculation>, extra: seq<Calculation>, u: User)
    requires forall i :: 0 <= i < |extra| ==> DaysOverdue(extra[i]) == 0
    ensures OverdueCount(cs + extra, u) == OverdueCount(cs, u) && OverdueSum(cs + extra, u) == OverdueSum(cs, u)
    ensures AverageDays(cs + extra, u) == AverageDays(cs, u)
    ensures OverdueCount(cs, u) <= StatCount(cs, u)
  {
    if extra != [] {
      var init := extra[..|extra| - 1];
      assert (cs + extra)[..|cs + extra| - 1] == cs + init;
      OnTimeDoesNotMoveAverage(cs, init, u);
    } else {
      assert cs + extra == cs;
      OverdueAtMostCounted(cs, u);
    }
  }

  lemma {:induction false} OverdueAtMostCounted(cs: seq<Calculation>, u: User)
    ensures OverdueCount(cs, u) <= StatCount(cs, u)
  {
    if cs != [] {
      OverdueAtMostCounted(cs[..|cs| - 1], u);
    }
  }

  /** The average lies between the smallest and the largest non-zero delay averaged. */
  lemma AverageWithinBounds(cs: seq<Calculation>, u: User, lo: int, hi: int)
    requires forall i :: 0 <= i < |cs| && StatCounted(cs[i], u) && DaysOverdue(cs[i]) != 0 ==> lo <= DaysOverdue(cs[i]) <= hi
    ensures OverdueCount(cs, u) > 0 ==> lo as real <= AverageDays(cs, u) <= hi as real
  {
    OverdueSumBounds(cs, u, lo, hi);
    if OverdueCount(cs, u) > 0 {
      QuotientOfBounded(OverdueSum(cs, u), OverdueCount(cs, u), lo, hi);
    }
  }

  lemma QuotientOfBounded(s: int, n: nat, lo: int, hi: int)
    requires n > 0 && lo * n <= s <= hi * n
    ensures lo as real <= s as real / n as real <= hi as real
  {
    MulAsReal(lo, n);
    MulAsReal(hi, n);
    QuotientBounds(s as real, n as real, lo as real, hi as real);
  }

  lemma MulStep(a: int, n: int)
    ensures a * (n + 1) == a * n + a
  {
  }

  lemma MulAsReal(a: int, n: nat)
    ensures (a * n) as real == a as real * n as real
  {
  }

  lemma QuotientBounds(s: real, n: real, lo: real, hi: real)
    requires n > 0.0 && lo * n <= s <= hi * n
    ensures lo <= s / n <= hi
  {
    assert s / n * n == s;
  }

  lemma {:induction false} OverdueSumBounds(cs: seq<Calculation>, u: User, lo: int, hi: int)
    requires forall i :: 0 <= i < |cs| && StatCounted(cs[i], u) && DaysOverdue(cs[i]) != 0 ==> lo <= DaysOverdue(cs[i]) <= hi
    ensures lo * OverdueCount(cs, u) <= OverdueSum(cs, u) <= hi * OverdueCount(cs, u)
  {
    if cs != [] {
      var init := cs[..|cs| - 1];
      assert forall i :: 0 <= i < |init| ==> init[i] == cs[i];
      OverdueSumBounds(init, u, lo, hi);
      MulStep(lo, OverdueCount(init, u));
      MulStep(hi, OverdueCount(init, u));
    }
  }

  // ---------------------------------------------------------------------------------
  // Collection-delay buckets of the dashboard

  datatype Bucket = Early | OnTime | MinorDelay | ModerateDelay | MajorDelay | CriticalDelay

  /** The condition of each dashboard bucket on `days_overdue`. */
  predicate InBucket(b: Bucket, d: int)
  {
    match b
    case Early => d < 0
    case OnTime => 0 <= d <= 15
    case MinorDelay => 16 <= d <= 30
    case ModerateDelay => 31 <= d <= 60
    case MajorDelay => 61 <= d <= 120
    case CriticalDelay => d > 120
  }

  /** Every day count falls in exactly one bucket. */
  function BucketOf(d: int): (b: Bucket)
    ensures InBucket(b, d)
    ensures forall b' :: InBucket(b', d) ==> b' == b
  {
    if d < 0 then Early
    else if d <= 15 then OnTime
    else if d <= 30 then MinorDelay
    else if d <= 60 then ModerateDelay
    else if d <= 120 then MajorDelay
    else CriticalDelay
  }

  /** The settled calculations of the dashboard that a bucket shows. */
  function BucketCount(cs: seq<Calculation>, b: Bucket): nat
  {
    if cs == [] then 0
    else BucketCount(cs[..|cs| - 1], b) + (if Settled(cs[|cs| - 1]) && InBucket(b, DaysOverdue(cs[|cs| - 1])) then 1 else 0)
  }

  function SettledCount(cs: seq<Calculation>): nat
  {
    if cs == [] then 0 else SettledCount(cs[..|cs| - 1]) + (if Settled(cs[|cs| - 1]) then 1 else 0)
  }

  /** The six buckets together show every settled calculation exactly once. */
  lemma {:induction false} BucketsAddUp(cs: seq<Calculation>)
    ensures BucketCount(cs, Early) + BucketCount(cs, OnTime) + BucketCount(cs, MinorDelay) + BucketCount(cs, ModerateDelay)
            + BucketCount(cs, MajorDelay) + BucketCount(cs, CriticalDelay) == SettledCount(cs)
  {
    if cs != [] {
      BucketsAddUp(cs[..|cs| - 1]);
      var b := BucketOf(DaysOverdue(cs[|cs| - 1]));
    }
  }

  // ---------------------------------------------------------------------------------
  // `create_commission_config_for_all_users`

  /** Internal users with a sales team. */
  predicate SalesUser(u: User)
  {
    !u.share && u.team.Some?
  }

  predicate HasConfig(configs: seq<Config>, user: UserId, company: CompanyId)
  {
    Find(configs, user, company).Some?
  }

  /** The (user, company) pairs the bulk creator has handled: every company of the
      sales users among the first `n`, and the first `k` companies of user `n`. */
  ghost predicate PairsCovered(configs: seq<Config>, users: seq<User>, n: nat, k: nat)
    requires n <= |users|
  {
    (forall i, j :: 0 <= i < n && SalesUser(users[i]) && 0 <= j < |users[i].companies| ==>
       HasConfig(configs, users[i].id, users[i].companies[j]))
    && (n < |users| && SalesUser(users[n]) ==>
       forall j :: 0 <= j < k && j < |users[n].companies| ==> HasConfig(configs, users[n].id, users[n].companies[j]))
  }

  /** Some sales user works for the company. */
  ghost predicate Wanted(users: seq<User>, user: UserId, company: CompanyId)
  {
    exists i, j :: 0 <= i < |users| && SalesUser(users[i]) && 0 <= j < |users[i].companies|
                   && users[i].id == user && users[i].companies[j] == company
  }

  lemma FindExtends(s: seq<Config>, t: seq<Config>, user: UserId, company: CompanyId)
    requires |s| <= |t| && t[..|s|] == s
    requires HasConfig(s, user, company)
    ensures HasConfig(t, user, company)
  {
    var c := Find(s, user, company).value;
    var i :| 0 <= i < |s| && s[i] == c;
    assert t[i] == s[i];
  }

  lemma CoveredExtends(s: seq<Config>, t: seq<Config>, users: seq<User>, n: nat, k: nat)
    requires n <= |users| && |s| <= |t| && t[..|s|] == s
    requires PairsCovered(s, users, n, k)
    ensures PairsCovered(t, users, n, k)
  {
    forall i, j | 0 <= i < n && SalesUser(users[i]) && 0 <= j < |users[i].companies|
      ensures HasConfig(t, users[i].id, users[i].companies[j])
    {
      FindExtends(s, t, users[i].id, users[i].companies[j]);
    }
    if n < |users| && SalesUser(users[n]) {
      forall j | 0 <= j < k && j < |users[n].companies|
        ensures HasConfig(t, users[n].id, users[n].companies[j])
      {
        FindExtends(s, t, users[n].id, users[n].companies[j]);
      }
    }
  }

  /** Handling one more company of user `n`. */
  lemma CoveredStep(configs: seq<Config>, users: seq<User>, n: nat, k: nat)
    requires n < |users| && SalesUser(users[n]) && k < |users[n].companies|
    ensures PairsCovered(configs, users, n, k + 1) <==>
      PairsCovered(configs, users, n, k) && HasConfig(configs, users[n].id, users[n].companies[k])
  {
  }

  /** Moving on to the next user. */
  lemma CoveredNextUser(configs: seq<Config>, users: seq<User>, n: nat)
    requires n < |users|
    ensures PairsCovered(configs, users, n + 1, 0) <==>
      PairsCovered(configs, users, n, if SalesUser(users[n]) then |users[n].companies| else 0)
  {
  }

  /** The per-pair step: creates the configuration of the user for the company when
      there is none (with the active flag set), and reports whether it did. */
  method EnsureConfig(t: ConfigTable, u: User, company: CompanyId) returns (made: bool)
    requires t.Valid()
    modifies t
    ensures t.Valid()
    ensures HasConfig(t.configs, u.id, company)
    ensures made <==> !HasConfig(old(t.configs), u.id, company)
    ensures made ==> t.configs == old(t.configs) + [NewConfig(|old(t.configs)|, u.id, u.name, company)]
    ensures !made ==> t.configs == old(t.configs)
  {
    made := t.Lookup(u.id, company).None?;
    if made {
      var r := t.Create(u.id, u.name, company);
      FindUnique(t.configs, u.id, company, |t.configs| - 1);
    }
  }

  /** What the bulk creator has done once the first `n` users and the first `k`
      companies of user `n` are handled, starting from `start` and having created
      `created` configurations. */
  ghost predicate BulkProgress(configs: seq<Config>, start: seq<Config>, users: seq<User>, n: nat, k: nat, created: nat)
    requires n <= |users|
  {
    |configs| == |start| + created && configs[..|start|] == start
    && PairsCovered(configs, users, n, k)
    && (created == 0 <==> PairsCovered(start, users, n, k))
    && forall j :: |start| <= j < |configs| ==>
         configs[j].commissionActive && Wanted(users, configs[j].user, configs[j].company)
         && !HasConfig(start, configs[j].user, configs[j].company)
  }

  /** One pair handled: the progress carries over to the next company. */
  lemma ProgressStep(before: seq<Config>, after: seq<Config>, start: seq<Config>, users: seq<User>,
                     i: nat, k: nat, created: nat, made: bool)
    requires i < |users| && SalesUser(users[i]) && k < |users[i].companies|
    requires BulkProgress(before, start, users, i, k, created)
    requires var u := users[i]; var company := u.companies[k];
      HasConfig(after, u.id, company)
      && (made <==> !HasConfig(before, u.id, company))
      && (made ==> after == before + [NewConfig(|before|, u.id, u.name, company)])
      && (!made ==> after == before)
    ensures BulkProgress(after, start, users, i, k + 1, if made then created + 1 else created)
  {
    var u := users[i];
    var company := u.companies[k];
    CoveredStep(start, users, i, k);
    CoveredStep(after, users, i, k);
    if made {
      if HasConfig(start, u.id, company) {
        FindExtends(start, before, u.id, company);
      }
      assert Wanted(users, u.id, company) by {
        assert users[i].companies[k] == company;
      }
      assert after[..|before|] == before;
      assert after[..|start|] == start;
      CoveredExtends(before, after, users, i, k);
    } else if created == 0 {
      assert before == start;
    }
  }

  /** The inner loop: every company of one sales user. */
  method CreateConfigsForUser(t: ConfigTable, users: seq<User>, i: nat, ghost start: seq<Config>, created0: nat)
    returns (created: nat)
    requires i < |users| && SalesUser(users[i])
    requires t.Valid() && BulkProgress(t.configs, start, users, i, 0, created0)
    modifies t
    ensures t.Valid() && BulkProgress(t.configs, start, users, i, |users[i].companies|, created)
  {
    var u := users[i];
    created := created0;
    var k := 0;
    while k < |u.companies|
      invariant 0 <= k <= |u.companies|
      invariant t.Valid() && BulkProgress(t.configs, start, users, i, k, created)
    {
      ghost var before := t.configs;
      var made := EnsureConfig(t, u, u.companies[k]);
      ProgressStep(before, t.configs, start, users, i, k, created, made);
      if made {
        created := created + 1;
      }
      k := k + 1;
    }
  }

  /** `create_commission_config_for_all_users`: creates, for every sales user and each
      of the user's companies, the configuration that is missing, and returns how many it
      created. Existing configurations are left as they are; afterwards every pair has
      one; nothing is created exactly when every pair already had one. */
  method CreateConfigsForAllUsers(t: ConfigTable, users: seq<User>) returns (created: nat)
    requires t.Valid()
    modifies t
    ensures t.Valid()
    ensures |t.configs| == |old(t.configs)| + created && t.configs[..|old(t.configs)|] == old(t.configs)
    ensures PairsCovered(t.configs, users, |users|, 0)
    ensures created == 0 <==> PairsCovered(old(t.configs), users, |users|, 0)
    ensures forall j :: |old(t.configs)| <= j < |t.configs| ==>
      t.configs[j].commissionActive && Wanted(users, t.configs[j].user, t.configs[j].company)
      && !HasConfig(old(t.configs), t.configs[j].user, t.configs[j].company)
  {
    ghost var start := t.configs;
    created := 0;
    var i := 0;
    while i < |users|
      invariant 0 <= i <= |users|
      invariant t.Valid() && BulkProgress(t.configs, start, users, i, 0, created)
    {
      if SalesUser(users[i]) {
        created := CreateConfigsForUser(t, users, i, start, created);
      }
      CoveredNextUser(start, users, i);
      CoveredNextUser(t.configs, users, i);
      i := i + 1;
    }
  }

  /** An immediate second run creates nothing. */
  method CreateConfigsTwice(t: ConfigTable, users: seq<User>) returns (first: nat, second: nat)
    requires t.Valid()
    modifies t
    ensures t.Valid()
    ensures second == 0
  {
    first := CreateConfigsForAllUsers(t, users);
    second := CreateConfigsForAllUsers(t, users);
  }
}
