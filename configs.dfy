/** Salesperson configurations: per salesperson and company, whether commissions are
    active, a default rule, an optional override of the commission type, and limits the
    validated commission is clamped to. */
module Configs {
  import opened Common
  import opened Bands
  import opened Rules

  datatype OverrideType = NoOverride | OverridePercentage | OverrideFixed | OverrideBand

  datatype Config = Config(
    id: ConfigId,
    user: UserId,
    userName: string,
    company: CompanyId,
    commissionActive: bool,
    defaultRule: Option<Rule>,
    overrideType: OverrideType,
    overridePercentage: real,
    overrideFixedAmount: real,
    overrideBand: Option<Band>,
    minCommission: real,        // 0.0 when not set
    maxCommission: real)        // 0.0 when not set

  /** A configuration as `create` fills it in from its defaults. */
  function NewConfig(id: ConfigId, user: UserId, userName: string, company: CompanyId): Config
  {
    Config(id, user, userName, company, true, None, NoOverride, 0.0, 0.0, None, 0.0, 0.0)
  }

  function CheckOverrideConfig(c: Config): Outcome
  {
    if c.overrideType == OverridePercentage && c.overridePercentage == 0.0 then Fail(MissingOverridePercentage)
    else if c.overrideType == OverrideFixed && c.overrideFixedAmount == 0.0 then Fail(MissingOverrideFixedAmount)
    else if c.overrideType == OverrideBand && c.overrideBand.None? then Fail(MissingOverrideBand)
    else Pass
  }

  function CheckCommissionLimits(c: Config): Outcome
  {
    if c.minCommission != 0.0 && c.maxCommission != 0.0 && c.minCommission > c.maxCommission then Fail(CommissionLimitsInverted)
    else Pass
  }

  /** Both constraints, limits first (Odoo runs them by method name). */
  function CheckConfig(c: Config): Outcome
  {
    if CheckCommissionLimits(c).Fail? then CheckCommissionLimits(c) else CheckOverrideConfig(c)
  }

  predicate ConfigWellFormed(c: Config)
  {
    (c.overrideType == OverridePercentage ==> c.overridePercentage != 0.0)
    && (c.overrideType == OverrideFixed ==> c.overrideFixedAmount != 0.0)
    && (c.overrideType == OverrideBand ==> c.overrideBand.Some?)
    && (c.minCommission != 0.0 && c.maxCommission != 0.0 ==> c.minCommission <= c.maxCommission)
  }

  /** The checks accept exactly the well-formed configurations, and a fresh one is
      always accepted. */
  lemma CheckConfigAccepts(c: Config)
    ensures CheckConfig(c) == Pass <==> ConfigWellFormed(c)
    ensures CheckConfig(c) == Fail(CommissionLimitsInverted) ==> c.minCommission > c.maxCommission
    ensures CheckConfig(NewConfig(c.id, c.user, c.userName, c.company)) == Pass
  {
  }

  /** The name shown for a configuration: the user's name, marked when inactive. */
  function DisplayName(c: Config): (s: string)
  {
    if c.commissionActive then c.userName else c.userName + " (Inactive)"
  }

  lemma DisplayNameMarksInactive(c: Config)
    ensures DisplayName(c)[..|c.userName|] == c.userName
    ensures |DisplayName(c)| > |c.userName| <==> !c.commissionActive
    ensures !c.commissionActive ==> DisplayName(c)[|c.userName|..] == " (Inactive)"
  {
  }

  /** The override-type handler: clears the override values that do not belong to the
      new type. */
  function ClearOverrides(c: Config): (c': Config)
  {
    c.(overridePercentage := if c.overrideType == OverridePercentage then c.overridePercentage else 0.0,
       overrideFixedAmount := if c.overrideType == OverrideFixed then c.overrideFixedAmount else 0.0,
       overrideBand := if c.overrideType == OverrideBand then c.overrideBand else None)
  }

  /** After the handler the only value left is the chosen type's, it is kept, and the
      constraints judge the configuration as before. */
  lemma ClearOverridesFacts(c: Config)
    ensures var d := ClearOverrides(c);
      d == c.(overridePercentage := d.overridePercentage, overrideFixedAmount := d.overrideFixedAmount, overrideBand := d.overrideBand)
      && (d.overridePercentage != 0.0 ==> d.overrideType == OverridePercentage)
      && (d.overrideFixedAmount != 0.0 ==> d.overrideType == OverrideFixed)
      && (d.overrideBand.Some? ==> d.overrideType == OverrideBand)
      && CheckConfig(d) == CheckConfig(c)
      && ClearOverrides(d) == d
  {
  }

  /** A configuration being edited in a form. */
  class ConfigForm {
    var config: Config

    constructor(c: Config)
      ensures config == c
    {
      config := c;
    }

    /** `_onchange_override_type`. */
    method OnchangeOverrideType()
      modifies this
      ensures config == ClearOverrides(old(config))
    {
      if config.overrideType != OverridePercentage {
        config := config.(overridePercentage := 0.0);
      }
      if config.overrideType != OverrideFixed {
        config := config.(overrideFixedAmount := 0.0);
      }
      if config.overrideType != OverrideBand {
        config := config.(overrideBand := None);
      }
    }
  }

  /** The result of `get_commission_parameters`. */
  datatype Params =
    | NoParams
    | PercentageParams(rate: real)
    | FixedParams(amount: real)
    | BandParams(band: Option<Band>)
    | RuleParams(kind: CommissionType, rate: real, amount: real, ruleBand: Option<Band>)

  function ParamsOf(r: Rule): Params
  {
    RuleParams(r.kind, r.percentageRate, r.fixedAmount, r.band)
  }

  function GetCommissionParameters(c: Config, rule: Option<Rule>): (p: Params)
  {
    if !c.commissionActive then NoParams
    else if c.overrideType == OverridePercentage then PercentageParams(c.overridePercentage)
    else if c.overrideType == OverrideFixed then FixedParams(c.overrideFixedAmount)
    else if c.overrideType == OverrideBand then BandParams(c.overrideBand)
    else if rule.Some? then ParamsOf(rule.value)
    else if c.defaultRule.Some? then ParamsOf(c.defaultRule.value)
    else NoParams
  }

  /** The precedence of the parameters: an inactive configuration yields none; an
      override yields its own value whatever rule is given; otherwise the given rule,
      else the default rule, supplies them. */
  lemma GetCommissionParametersPrecedence(c: Config, rule: Option<Rule>, other: Option<Rule>)
    ensures !c.commissionActive ==> GetCommissionParameters(c, rule) == NoParams
    ensures c.commissionActive && c.overrideType != NoOverride ==>
      GetCommissionParameters(c, rule) == GetCommissionParameters(c, other)
      && (GetCommissionParameters(c, rule).PercentageParams? <==> c.overrideType == OverridePercentage)
      && (GetCommissionParameters(c, rule).FixedParams? <==> c.overrideType == OverrideFixed)
      && (GetCommissionParameters(c, rule).BandParams? <==> c.overrideType == OverrideBand)
    ensures c.commissionActive && c.overrideType == NoOverride ==>
      GetCommissionParameters(c, rule) ==
        (if rule.Some? then ParamsOf(rule.value) else if c.defaultRule.Some? then ParamsOf(c.defaultRule.value) else NoParams)
    ensures GetCommissionParameters(c, rule).RuleParams? ==> c.commissionActive && c.overrideType == NoOverride
  {
  }

  /** The values `create_or_update_config` is asked to write; a field left `None` is not
      in the dictionary. */
  datatype ConfigVals = ConfigVals(commissionActive: Option<bool>, defaultRule: Option<Option<Rule>>)

  function ApplyVals(c: Config, vals: ConfigVals): (c': Config)
  {
    c.(commissionActive := if vals.commissionActive.Some? then vals.commissionActive.value else c.commissionActive,
       defaultRule := if vals.defaultRule.Some? then vals.defaultRule.value else c.defaultRule)
  }

  /** Writing these values never breaks a constraint. */
  lemma ApplyValsKeepsChecks(c: Config, vals: ConfigVals)
    ensures CheckConfig(ApplyVals(c, vals)) == CheckConfig(c)
    ensures ApplyVals(ApplyVals(c, vals), vals) == ApplyVals(c, vals)
  {
  }

  /** `unique(user_id, company_id)`. */
  predicate OnePerUserAndCompany(configs: seq<Config>)
  {
    forall i, j :: 0 <= i < j < |configs| ==> (configs[i].user, configs[i].company) != (configs[j].user, configs[j].company)
  }

  /** The configuration of a user in a company (`search(..., limit=1)`). */
  function Find(configs: seq<Config>, user: UserId, company: CompanyId): (o: Option<Config>)
    ensures o.None? <==> forall i :: 0 <= i < |configs| ==> (configs[i].user, configs[i].company) != (user, company)
    ensures o.Some? ==> o.value in configs && o.value.user == user && o.value.company == company
  {
    if configs == [] then None
    else if configs[0].user == user && configs[0].company == company then Some(configs[0])
    else
      var o := Find(configs[1..], user, company);
      assert forall i :: 1 <= i < |configs| ==> configs[i] == configs[1..][i - 1];
      o
  }

  /** Under the uniqueness constraint the found configuration is the only one. */
  lemma FindUnique(configs: seq<Config>, user: UserId, company: CompanyId, i: int)
    requires OnePerUserAndCompany(configs)
    requires 0 <= i < |configs| && configs[i].user == user && configs[i].company == company
    ensures Find(configs, user, company) == Some(configs[i])
  {
    var c := Find(configs, user, company).value;
    var j :| 0 <= j < |configs| && configs[j] == c;
  }

  /** Flips the active flag of the configurations whose position is in `ids`. */
  function Toggled(configs: seq<Config>, ids: set<ConfigId>): (r: seq<Config>)
    ensures |r| == |configs|
    ensures forall i :: 0 <= i < |r| ==> r[i] == (if i in ids then configs[i].(commissionActive := !configs[i].commissionActive) else configs[i])
  {
    seq(|configs|, i requires 0 <= i < |configs| =>
      if i in ids then configs[i].(commissionActive := !configs[i].commissionActive) else configs[i])
  }

  /** Toggling twice restores every configuration, and toggling touches nothing but the
      active flag of the chosen ones. */
  lemma ToggleTwiceRestores(configs: seq<Config>, ids: set<ConfigId>)
    ensures Toggled(Toggled(configs, ids), ids) == configs
    ensures OnePerUserAndCompany(configs) ==> OnePerUserAndCompany(Toggled(configs, ids))
  {
  }

  /** All salesperson configurations, a configuration's id being its position. */
  class ConfigTable {
    var configs: seq<Config>

    ghost predicate Valid()
      reads this
    {
      (forall i :: 0 <= i < |configs| ==> configs[i].id == i)
      && OnePerUserAndCompany(configs)
      && (forall i :: 0 <= i < |configs| ==> CheckConfig(configs[i]) == Pass)
    }

    constructor()
      ensures Valid() && configs == []
    {
      configs := [];
    }

    function Lookup(user: UserId, company: CompanyId): Option<Config>
      reads this
    {
      Find(configs, user, company)
    }

    predicate Exists(user: UserId, company: CompanyId)
      reads this
    {
      Find(configs, user, company).Some?
    }

    /** `create` of a configuration with its defaults; the uniqueness constraint refuses
      a second one for the same user and company. */
    method Create(user: UserId, userName: string, company: CompanyId) returns (r: Result<ConfigId>)
      requires Valid()
      modifies this
      ensures Valid()
      ensures old(Find(configs, user, company)).Some? ==> r.Err? && configs == old(configs)
      ensures old(Find(configs, user, company)).None? ==>
        r == Ok(|old(configs)|) && configs == old(configs) + [NewConfig(|old(configs)|, user, userName, company)]
    {
      if Find(configs, user, company).Some? {
        return Err(DuplicateConfig);
      }
      configs := configs + [NewConfig(|configs|, user, userName, company)];
      r := Ok(|configs| - 1);
    }

    /** `create_or_update_config`: writes `vals` into the user's configuration for the
      company (the current one when none is given), or creates it with them. */
    method CreateOrUpdate(user: UserId, userName: string, company: Option<CompanyId>, currentCompany: CompanyId, vals: ConfigVals)
      returns (id: ConfigId)
      requires Valid()
      modifies this
      ensures Valid()
      ensures var co := if company.Some? then company.value else currentCompany;
        id < |configs| && configs[id].user == user && configs[id].company == co
        && Find(configs, user, co) == Some(configs[id])
        && (old(Find(configs, user, co)).Some? ==>
              id < |old(configs)| && old(Find(configs, user, co)).value == old(configs)[id]
              && configs == old(configs)[id := ApplyVals(old(configs)[id], vals)])
        && (old(Find(configs, user, co)).None? ==>
              configs == old(configs) + [ApplyVals(NewConfig(|old(configs)|, user, userName, co), vals)])
    {
      var co := if company.Some? then company.value else currentCompany;
      var found := Find(configs, user, co);
      if found.Some? {
        id := found.value.id;
        ApplyValsKeepsChecks(configs[id], vals);
        configs := configs[id := ApplyVals(configs[id], vals)];
        FindUnique(configs, user, co, id);
      } else {
        id := |configs|;
        var c := ApplyVals(NewConfig(id, user, userName, co), vals);
        ApplyValsKeepsChecks(NewConfig(id, user, userName, co), vals);
        configs := configs + [c];
        FindUnique(configs, user, co, id);
      }
    }

    /** `action_toggle_active` on the configurations with the given ids. */
    method ToggleActive(ids: set<ConfigId>)
      requires Valid()
      modifies this
      ensures Valid()
      ensures configs == Toggled(old(configs), ids)
    {
      var i := 0;
      ghost var start := configs;
      while i < |configs|
        invariant 0 <= i <= |configs| == |start|
        invariant forall k :: 0 <= k < i ==> configs[k] == Toggled(start, ids)[k]
        invariant forall k :: i <= k < |configs| ==> configs[k] == start[k]
      {
        if i in ids {
          configs := configs[i := configs[i].(commissionActive := !configs[i].commissionActive)];
        }
        i := i + 1;
      }
      assert configs == Toggled(start, ids);
      ToggleTwiceRestores(start, ids);
    }
  }

  /** Calling `create_or_update_config` twice with the same arguments leaves a single
      configuration for the user and company holding the values. */
  method CreateOrUpdateTwice(t: ConfigTable, user: UserId, userName: string, company: CompanyId, vals: ConfigVals)
    requires t.Valid()
    modifies t
    ensures t.Valid()
    ensures |t.configs| == |old(t.configs)| + (if old(Find(t.configs, user, company)).None? then 1 else 0)
    ensures Find(t.configs, user, company).Some?
    ensures Find(t.configs, user, company).value == ApplyVals(Find(t.configs, user, company).value, vals)
  {
    var id1 := t.CreateOrUpdate(user, userName, Some(company), company, vals);
    ghost var mid := t.configs;
    var id2 := t.CreateOrUpdate(user, userName, Some(company), company, vals);
    assert mid[id2] == mid[id1];
    if old(Find(t.configs, user, company)).Some? {
      ApplyValsKeepsChecks(old(t.configs)[id1], vals);
    } else {
      ApplyValsKeepsChecks(NewConfig(|old(t.configs)|, user, userName, company), vals);
    }
  }
}
