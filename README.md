# Commission bands: a verified Dafny model

This project models the commission engine of the `commission_band` Odoo addon. Salespeople earn a commission on each customer payment they collect. How much depends on how many days after (or before) the invoice's due date the payment arrived.

- **Bands and ranges.** A band is a list of day ranges, each with a commission and an indicator percentage. `get_commission_rate` picks the first range that applies. A band is saved only when its ranges do not overlap and reach from day -999 to day 999. Gaps between ranges are not checked, and the model keeps that.
- **Rules and configurations.** A rule is a conjunction of optional restrictions plus one of four ways to compute a commission: none, fixed, percentage or band. The engine picks the first matching active rule of the company in priority, then sequence order, and falls back to the configuration's default rule only when that rule matches too. A salesperson configuration can switch commissions off, override the commission type, and bound the validated amount by a minimum and a maximum.
- **Calculations.** A calculation goes through draft, calculated, validated, approved and paid, or is cancelled, each step with its guards. Reconciling a payment creates one calculation per invoice of the payment, skipping (payment, invoice) pairs that already have one. A payment-level guard, a recalculation path and two crons sit on top of that.
- **Batches.** A batch gathers one company's calculations whose payment date lies in a window. It goes through draft, calculated, reviewed, payment-generated and paid, and can be reset. Its creation wizard checks the window against existing batches with a different test from the batch's own constraint. Both tests are modelled.
- **Payment documents.** A batch's payment document has one line per salesperson. A line sums the USD and VES commissions as they are, and converts every other currency into the VES amount to pay. Generating the lines approves the batch's open calculations.
- **Smaller pieces.** The configuration wizard creates the standard bands and rules and switches commissions on for salespeople. The invoice side defaults delivery dates and salespersons and reports commission information.

Each source file is a Dafny module. Pure logic is written as functions, with lemmas about them. An ORM model whose records the source updates in place is a class holding the table as a `seq` (a record's id is its position) or a `map`. Its methods `modify` that table, and their `ensures` give the new table in terms of the old one through specification functions. The properties of those functions are proved as lemmas. Loops in the source are `while` loops proved against the same functions.

Records are datatypes. Amounts are exact `real`s. Dates are proleptic Gregorian `(year, month, day)` values whose day differences use Python's ordinal, and `relativedelta(months=1)` clamps the day to the end of the shorter month. Currency conversion and exchange rates are function-valued parameters. "Today" and "now" are parameters too. A refused operation returns the source's error and leaves every table as it was, as the rolled-back transaction does. The two crons are the exception: they catch the error without a savepoint and commit, so what was written before the error stays, and the model keeps it too.

## Model

| member | source | states |
|---|---|---|
| Dates.DaysBetweenSign | commission_band/models/commission_calculation.py:244 | the day count `(a - b).days` is negative exactly when `a` is before `b`, and zero exactly when the two dates are equal |
| Dates.OrdinalOrder | commission_band/models/commission_rule.py:334 | comparing two dates agrees with comparing their day numbers, so day differences respect the calendar order |
| Dates.FirstOfMonth | commission_band/models/commission_batch.py:382 | `replace(day=1)` keeps the year and month, sets day 1, and never moves the date later |
| Dates.TenthOfMonthFacts | commission_band/models/commission_batch.py:197-201 | the 10th is nine days after the first of its month and falls after the last day of the previous month. The payment date the batch form sets, the 10th of the month after `date_from`, falls after the window end exactly when `date_from` is on or before the 10th of its month |
| Dates.PreviousDayIsOneDayEarlier | commission_band/models/commission_batch.py:198 | subtracting one day fails only on 0001-01-01 and otherwise gives the date whose day number is one less |
| Dates.AddOneMonthShape | commission_band/models/commission_batch.py:197 | adding one month moves to the next month (January of the next year after December), keeps the day when that month has it, and otherwise takes the month's last day; it fails only from December 9999 |
| Dates.MonthWindowEndFacts | commission_band/wizards/commission_batch_create_wizard.py:83 | one month on, less a day, never precedes the start; from the first of a month it is that month's last day; it fails only in December 9999 |
| Dates.PreviousMonthFacts | commission_band/models/commission_batch.py:382-384 | the first and last days computed for the previous month are day 1 and the last day of the month before the date's month (December of the previous year from January); both fail only in January of year 1 |
| Ranges.CheckRangeAccepts | models/commission_range.py:113-134 | the three range constraints accept exactly a range with `day_from <= day_to` and non-negative commission and indicator rates; each error names the condition that is violated |
| Ranges.DisplayNameShape | models/commission_range.py:84-98 | the display name starts with the description when one is set, else with "Up to" (from -999 down) or "From" (to 999 up), and always ends with the rate to two decimals and a percent sign |
| Ranges.UnsignedTwoDecimalsFacts | models/commission_range.py:97 | the rendering of a non-negative rate is a whole part without leading zeros, a point and two digits. Read without the point, the digits are the number of hundredths nearest to the rate, halves rounded up |
| Ranges.TwoDecimalsFacts | models/commission_range.py:97 | the rendering starts with a minus sign exactly for a negative rate, followed by the rendering of its magnitude |
| Ranges.TwoDecimalsExamples | models/commission_range.py:97 | the rate is shown with two decimals, rounded half up: 2.8 as "2.80", 0.75 as "0.75", 12.345 as "12.35" |
| Ranges.ColorMonotone | models/commission_range.py:100-111 | the colour index is 10, 3, 2 or 1; it is 10 exactly from 3 %, 1 exactly below 1 %, and never lower for a higher rate |
| Ranges.OnchangeDays | models/commission_range.py:136-152 | the day-change handler changes nothing but the description, and the description is never empty afterwards |
| Ranges.OnchangeDaysKeepsName | models/commission_range.py:136-152 | a description that is set survives; applying the handler twice is applying it once; a range starting between -99 and 0 and covering day 0 is "On time", one starting at 1..30 a "Minor delay", one starting after 120 a "Critical delay" |
| Ranges.CommissionInfo | models/commission_range.py:154-162 | the information carries the range's display name and its two rates unchanged |
| Ranges.CommissionInfoConditions | models/commission_range.py:164-172 | there is a currency condition exactly when the range is limited to a currency, and it comes first; there is a minimum-amount condition exactly when a minimum is set, and it comes last; there are no others |
| Records.DaysOverdue | commission_band/models/commission_calculation.py:240-246 | with both dates set, `days_overdue` is negative exactly when the payment precedes the due date and zero exactly when it falls on it; with either date missing it is 0 |
| Records.CompanyAmountsFacts | commission_band/models/commission_calculation.py:269-277 | both company amounts are converted at the one payment-date rate, so the commission keeps its share of the payment. They depend on the rate service only through that rate, and not at all in the company currency, where they are the amounts themselves. A non-negative rate keeps non-negative amounts non-negative |
| Records.CheckCalculationAmounts | commission_band/models/commission_calculation.py:284-296 | the amount constraints pass exactly when the commission is non-negative and the payment amount positive |
| Calculations.Step | commission_band/models/commission_calculation.py:299-361 | an action that is allowed leads to its own state. Paid is entered only by mark-paid from approved, approved only by approve from validated, and validated only by validate from calculated. A paid calculation accepts only calculate. Cancel and reset are refused exactly on a paid calculation, and calculate is never refused |
| Calculations.ReachThrough | commission_band/models/commission_calculation.py:303-347 | a run of actions that reaches validated, approved or paid from another state contains that state's own action, taken when the run had reached the state's required predecessor |
| Calculations.PaidNeedsApproval | commission_band/models/commission_calculation.py:299-361 | any run of actions that makes an unpaid calculation paid contains a mark-paid taken from approved. Unless the run starts approved, an approve comes before that, and from below validated a validate comes before both |
| Calculations.ClampFacts | commission_band/models/commission_calculation.py:326-331 | without a configuration the amount is kept. A maximum that is set is never exceeded. With limits that pass the configuration check, a minimum that is set is reached, an amount already within the limits is kept, and clamping twice is clamping once |
| Calculations.ClampRefusedFacts | commission_band/models/commission_calculation.py:326-331 | the amount constraint refuses a write exactly when it stores a negative limit. For a non-negative amount that happens exactly when the clamped amount is negative, and the stored amount is then the clamped one. A refused write always leaves a negative amount stored, and an amount that no write touches is never refused |
| Calculations.ValidateRunFrom | commission_band/models/commission_calculation.py:305-333 | from any point of a selection without repeats, the remaining validation succeeds exactly when every remaining calculation passes its checks, and its result is the whole selection clamped and validated. On failure the error is that of the first refused calculation |
| Calculations.ValidateRunSpec | commission_band/models/commission_calculation.py:303-333 | validating a selection without repeats succeeds exactly when each selected calculation is calculated, its batch (if any) is calculated or reviewed, it is reconciled, its configuration (if any) is active and its clamped amount is non-negative. Then each selected one is clamped and validated and nothing else changes; otherwise the error is the first refusal's |
| Calculations.ValidatedKeepsAmounts | commission_band/models/commission_calculation.py:284-296 | a calculation that passes validation still meets the amount constraints after clamping |
| Calculations.NewCalcFor | commission_band/models/commission_calculation.py:397-450 | no calculation is made for an invoice exactly when it has no salesperson, the configuration is inactive, no rule (applicable or default) is found, the rule yields no commission data, or a non-cancelled calculation of the pair exists. A made one is calculated, belongs to the payment, the invoice, its salesperson and the environment's company, is in no batch and takes the next id |
| Calculations.TriggerStep | commission_band/models/commission_calculation.py:397-450 | one invoice either appends the calculation due, keeping ids and the amount constraints, or refuses the whole run with the amount constraint's error |
| Calculations.TriggerFromAppends | commission_band/models/commission_calculation.py:396-452 | a run only appends. What it appends are calculated records of this payment and the environment's company, in no batch, numbered on from the table and meeting the amount constraints |
| Calculations.TriggerFromKeepsUnique | commission_band/models/commission_calculation.py:415-425 | a run never creates a second non-cancelled calculation for a (payment, invoice) pair |
| Calculations.TriggerFromGrows | commission_band/models/commission_calculation.py:396-452 | the calculations a run starts from are a prefix of its result |
| Calculations.TriggerFromSettles | commission_band/models/commission_calculation.py:396-452 | after a successful run every remaining invoice is either passed over for a reason of its own or covered by a non-cancelled calculation of the pair |
| Calculations.SettledRunIsIdle | commission_band/models/commission_calculation.py:396-425 | when every remaining invoice is passed over or already covered, a run creates nothing |
| Calculations.TriggerIdempotent | commission_band/models/commission_calculation.py:383-452 | running the trigger again right after a successful run creates no calculation |
| Calculations.TriggerCoverage | commission_band/models/commission_calculation.py:383-452 | an unreconciled payment creates nothing. A successful run keeps at most one non-cancelled calculation per pair, and leaves every reconciled invoice passed over or covered |
| Calculations.CalculationTable.Apply | commission_band/models/commission_calculation.py:299-301 | calculate, approve, mark-paid, cancel and reset-draft succeed exactly when every selected calculation's guard allows the action. Success writes the target state into exactly the selection; a refusal raises that action's error and changes nothing |
| Calculations.CalculationTable.ValidateSelection | commission_band/models/commission_calculation.py:303-333 | the table after validation is the result of the validation run, and the table is unchanged when the run is refused (the run is characterised by ValidateRunSpec) |
| Calculations.CalculationTable.RemoveFromBatch | commission_band/models/commission_calculation.py:363-368 | removal succeeds exactly when no selected calculation's batch has its payment document generated or is paid. It then clears the batch of exactly the selection; otherwise it changes nothing |
| Calculations.CalculationTable.CalculateFromPayment | commission_band/models/commission_calculation.py:383-452 | the table after the trigger is the result of the trigger run (characterised by TriggerCoverage and TriggerIdempotent), and a refused run leaves it unchanged |
| Calculations.TriggerFromCaughtFacts | commission_band/models/commission_calculation.py:396-452 | a run whose error is caught agrees with the run when that succeeds. When refused, it keeps what it created, ending with the refused record, whose amounts fail with the run's error while every earlier one passes. It only appends calculated records of this payment, in no batch, numbered on from the table |
| Calculations.CalculationTable.CalculateFromPaymentCaught | commission_band/models/commission_calculation.py:383-452 | the table afterwards is the caught run over the old table, and the outcome is the error of the run when it is refused |
| Calculations.CalculationTable.CronValidate | commission_band/models/commission_calculation.py:454-466 | the table afterwards is CronValidated of the table before: each calculated, reconciled calculation is checked on its own. It is validated when it passes, it keeps a refused write of a limit when the amount constraint refuses it, and it is left as it was otherwise. Ids stay positions |
| Calculations.CalculationTable.ValidateOne | commission_band/models/commission_calculation.py:303-333 | one calculated, reconciled calculation with the error caught: it is validated with its clamped amount, or it keeps the refused write with its state when the amount constraint refuses it, or it is unchanged on an earlier refusal. No other calculation changes |
| Calculations.CronValidatedFacts | commission_band/models/commission_calculation.py:454-466 | a calculation the cron changes was calculated and reconciled. Either it passed the checks and is now validated with its clamped amount, or the amount constraint refused it and it holds the refused, negative write with its state still calculated |
| Calculations.CronValidatedAmounts | commission_band/models/commission_calculation.py:454-466 | after the cron every calculation meets the amount constraints, except one left calculated after the amount constraint refused it |
| Calculations.CronValidatesNegativeMaximum | commission_band/models/commission_calculation.py:462-466 | with a negative maximum and no minimum, the first run stores the maximum and leaves the calculation calculated, and the second run validates it with that negative amount, which breaks the amount constraint |
| Calculations.AtomicCronFacts | commission_band/models/commission_calculation.py:454-466 | the cron with each validation undone as a whole when refused only validates calculations that pass the checks, with their clamped amount. It keeps the amount constraints, a second sweep changes nothing, and it agrees with the cron as written except where the amount constraint refuses |
| Bands.SortedRangesFacts | models/commission_band.py:117 | sorting the ranges by `day_from` keeps the same ranges and the same count of ranges on every day, and yields them in day order |
| Bands.DisjointChain | models/commission_band.py:117-130 | once neighbours in day order are disjoint, every earlier range ends before every later one starts |
| Bands.AtMostOneCover | models/commission_band.py:113-130 | well-formed ranges with disjoint neighbours in day order put no day in two ranges |
| Bands.OverlapCheckMeansSingleRange | models/commission_band.py:113-130 | for well-formed ranges, the overlap check passes exactly when no day lies in two ranges |
| Bands.CoverageCheckMeansBothEnds | models/commission_band.py:132-153 | once the overlap check passes, the coverage check passes exactly for an empty band, or for one where some range starts on or before day -999 and some range ends on or after day 999 |
| Bands.EarlyEnd | models/commission_band.py:139-146 | the first range in day order starts on or before day -999 exactly when some range does |
| Bands.LateEnd | models/commission_band.py:148-153 | without overlaps, the last range in day order ends on or after day 999 exactly when some range does |
| Bands.GapIsAccepted | models/commission_band.py:132-153 | a band of -999..10 and 20..999 passes both checks although day 15 lies in no range, and a payment 15 days late earns no rate |
| Bands.ContiguousPartition | models/commission_band.py:113-130 | ranges that each start the day after the previous one ends are disjoint, and they put every day between the first start and the last end in exactly one range |
| Bands.ContiguousBandIsAccepted | models/commission_band.py:113-153 | a band listed contiguously in day order from -999 (or before) to 999 (or after) passes both checks, and places every day from -999 to 999 in exactly one range |
| Bands.FirstApplicableSpec | models/commission_band.py:198-206 | the filter finds no range exactly when none applies; otherwise it returns the first range in record order where the day lies in the range, the minimum amount (if set) is reached, and the currency restriction (if set) holds |
| Bands.GetCommissionRateSpec | models/commission_band.py:178-213 | the lookup reports no range, with both rates 0, exactly when a currency-specific band refuses the payment currency or no range applies. Otherwise it reports the first applicable range, with both percentages divided by 100 |
| Bands.GetCommissionRateUnique | models/commission_band.py:204-211 | once the band's checks pass, any applicable range is the one the lookup reports, as the comment there assumes |
| Bands.GetCommissionRateNonNegative | models/commission_band.py:204-213 | with ranges that pass their own checks, both returned rates are non-negative |
| Bands.DisplayNameShape | models/commission_band.py:93-99 | the display name is "[code] name", followed by the currency in parentheses exactly for a currency-specific band that has a currency |
| Bands.CopySortedRanges | models/commission_band.py:61-67 | the copy's ranges in day order have the original's days, one for one |
| Bands.CopyOverlap | models/commission_band.py:113-130 | the copy passes the overlap check exactly when the original does |
| Bands.CopyCoverage | models/commission_band.py:132-153 | the copy passes the coverage check exactly when the original does |
| Bands.CopyChecks | models/commission_band.py:215-219 | the copy differs from the original in name and code, keeps its company, and passes the same range checks |
| Bands.CopyRates | models/commission_band.py:178-219 | the copy gives the same rates as the original for every payment |
| Bands.RenumberedRates | models/commission_band.py:178-213 | a band whose ranges are another's renumbered, under the same currency settings, gives the same rates |
| Bands.CopyFirstApplicable | models/commission_band.py:198-206 | after renumbering, the applicable range found is the renumbered original one |
| Bands.CheckRanges | models/commission_range.py:113-134 | the ranges' own constraints pass exactly when every range is well formed |
| Bands.CheckBandAccepts | models/commission_band.py:113-153 | an accepted band has well-formed ranges and no day in two ranges. Unless it has no ranges, some range reaches day -999 and some range reaches day 999 |
| Bands.CheckNewBandIgnoresId | models/commission_band.py:86-91 | the checks on a new band do not depend on the id it is stored under |
| Bands.CheckNewBandKeepsUnique | models/commission_band.py:86-91 | inserting an accepted band keeps code and name unique per company |
| Bands.SecondCopyRefused | models/commission_band.py:86-91 | copying the same band a second time in one company is refused for a duplicate code, because the first copy already carries the "_COPY" code |
| Bands.BandTable.Create | models/commission_band.py:86-153 | an accepted band is stored under the next id; a refused one raises the first failing check's error and changes nothing |
| Bands.BandTable.CopyBand | models/commission_band.py:215-219 | the copy of a stored band is added under the next id when accepted; otherwise the table is unchanged |
| Rules.CheckRuleAccepts | commission_band/models/commission_rule.py:175-198 | the rule constraints accept exactly a rule with its type's own setting present (a band for `band`, a non-zero fixed amount for `fixed`, a non-zero rate for `percentage`), validity dates in order when both are set, and min not above max when both are non-zero; each error names the broken constraint |
| Rules.ClearForTypeFacts | commission_band/models/commission_rule.py:207-215 | after the type change only the setting of the chosen type can remain set; that setting is kept, no other field changes, completeness is unaffected, and a second run changes nothing |
| Rules.RuleForm.OnchangeCommissionType | commission_band/models/commission_rule.py:207-215 | the form's rule becomes the old rule with the settings of the other types cleared |
| Rules.MatchesCriteriaIff | commission_band/models/commission_rule.py:228-293 | matching holds exactly when the payment date (or today) lies in the optional validity window, a given payment's amount meets the non-zero min and max, a given salesperson meets the salesperson restriction, a salesperson with a team meets the team restriction, and a given invoice meets the customer, payment-term, journal, product and category restrictions, each only when set |
| Rules.MatchingEdgeCases | commission_band/models/commission_rule.py:256-293 | a salesperson without a team matches as if the rule had no team restriction. With both product and category restrictions, a match needs a listed product and a listed category. With nothing given, only the validity window and the limits against an amount of 0 count |
| Rules.CalculateCommissionSpec | commission_band/models/commission_rule.py:295-353 | `none` yields nothing; `fixed` yields rate 0 and the fixed amount; `percentage` yields the stored rate and payment × rate / 100. `band` yields nothing without a band; otherwise, with days = payment date − due date, it yields the first applicable range's percentage and payment × percentage / 100 exactly when that percentage is positive and the band accepts the currency, recording band, range and days |
| Rules.CalculateCommissionNonNegative | commission_band/models/commission_rule.py:295-353 | with a non-negative payment, non-negative settings and well-formed band ranges, the computed commission is never negative |
| Rules.CopyRule | commission_band/models/commission_rule.py:355-359 | the copy differs from the rule in name and code and agrees with it in every other field but the id |
| Rules.RuleTable.Create | commission_band/models/commission_rule.py:170-198 | an accepted rule is stored under the next id; a refused one (duplicate code in the company, or a failing constraint) raises that error and changes nothing |
| Configs.CheckConfigAccepts | commission_band/models/salesperson_config.py:155-172 | the constraints accept exactly a configuration whose override type has its value set and whose set limits are ordered (min not above max); the limits error means min exceeds max; a fresh configuration with its defaults is accepted |
| Configs.DisplayNameMarksInactive | commission_band/models/salesperson_config.py:118-124 | the display name starts with the user's name and is longer exactly when the configuration is inactive, the rest then being " (Inactive)" |
| Configs.ClearOverridesFacts | commission_band/models/salesperson_config.py:174-182 | after the override-type change only the chosen type's override value can remain, it is kept, no other field changes, the constraints judge the configuration as before, and a second run changes nothing |
| Configs.ConfigForm.OnchangeOverrideType | commission_band/models/salesperson_config.py:174-182 | the form's configuration becomes the old one with the other types' override values cleared |
| Configs.GetCommissionParametersPrecedence | commission_band/models/salesperson_config.py:207-257 | an inactive configuration yields type none. An override yields its own type and value whatever rule is given. Otherwise the given rule supplies the parameters, else the default rule, else none; rule parameters appear only for an active configuration without override |
| Configs.ApplyValsKeepsChecks | commission_band/models/salesperson_config.py:279-289 | writing the values never changes what the constraints say, and writing them twice is writing them once |
| Configs.Find | commission_band/models/salesperson_config.py:274-277 | the search finds nothing exactly when no configuration belongs to the user and company; what it finds is a stored configuration of that user and company |
| Configs.FindUnique | commission_band/models/salesperson_config.py:113-116 | under the uniqueness constraint, any configuration of the user and company is the one the search finds |
| Configs.ToggleTwiceRestores | commission_band/models/salesperson_config.py:202-205 | toggling the same configurations twice restores them, and toggling keeps one configuration per user and company |
| Configs.ConfigTable.Create | commission_band/models/salesperson_config.py:113-116 | a configuration with its defaults is added under the next id when the user has none in the company; otherwise the uniqueness constraint refuses it and nothing changes |
| Configs.ConfigTable.CreateOrUpdate | commission_band/models/salesperson_config.py:259-291 | with the company defaulting to the current one: an existing configuration gets the values written into it and nothing else changes; otherwise one configuration with user, company and the values is appended. Either way the result is the one configuration of that user and company |
| Configs.ConfigTable.ToggleActive | commission_band/models/salesperson_config.py:202-205 | exactly the selected configurations have their active flag flipped |
| Configs.CreateOrUpdateTwice | commission_band/models/salesperson_config.py:259-291 | two calls with the same arguments add at most one configuration (one exactly when there was none), and the configuration found afterwards holds the written values |
| Users.InDomain | models/res_users.py:113-125 | the search keeps exactly the active rules of the company, and with a payment only those whose optional validity window holds the payment date |
| Users.FirstMatchFrom | models/res_users.py:127-131 | the position found is the first, from the start given, of a rule that matches, or the end when none matches |
| Users.GetApplicableRuleGuards | models/res_users.py:98-110 | a user outside the commission band system, or whose configuration for the company is inactive, gets no rule; any rule returned is active and matches |
| Users.GetApplicableRuleIsFirstInOrder | models/res_users.py:112-131 | when some candidate matches, the rule returned is a candidate whose (priority, sequence) is the smallest among the matching candidates: a lower priority always wins, and at equal priority the lower sequence |
| Users.FirstMatchIsMinimal | models/res_users.py:125-131 | in a list ordered by (priority, sequence) the first matching rule has the smallest key of all matching rules |
| Users.GetApplicableRuleTakesFirstMatch | models/res_users.py:125-131 | with the switches on, the first matching candidate in search order is the answer |
| Users.GetApplicableRuleFallsBackToDefault | models/res_users.py:133-140 | without a matching candidate, the configuration's default rule is the answer exactly when it is set, active and matches. It is taken even from another company, and otherwise there is no rule |
| Users.ComputeStats | models/res_users.py:64-84 | the count, the company-currency total and the average equal those of the user's validated, approved and paid calculations in the user's company |
| Users.StatsIgnoreOthers | models/res_users.py:67-72 | calculations of other users or companies, or in other states, change none of the statistics |
| Users.OnTimeDoesNotMoveAverage | models/res_users.py:82-84 | calculations with zero days overdue do not move the average, and the averaged calculations are among the counted ones |
| Users.OverdueAtMostCounted | models/res_users.py:82-84 | no more calculations are averaged than are counted |
| Users.AverageWithinBounds | models/res_users.py:82-84 | when some counted calculation is late or early, the average lies between the smallest and the largest non-zero day count averaged |
| Users.OverdueSumBounds | models/res_users.py:82-84 | the sum of the non-zero day counts lies between their count times any lower bound and their count times any upper bound |
| Users.BucketOf | models/res_users.py:223-232 | every day count falls into a bucket, and into only one |
| Users.BucketsAddUp | models/res_users.py:234-244 | the six buckets together show every validated, approved or paid calculation exactly once |
| Users.EnsureConfig | models/res_users.py:266-277 | the user then has a configuration in the company. One is created, active and under the next id, exactly when none existed; otherwise nothing changes |
| Users.ProgressStep | models/res_users.py:264-277 | handling one more company keeps the bulk creator's progress invariant, counting the configuration made |
| Users.CreateConfigsForUser | models/res_users.py:265-277 | after all of one sales user's companies are handled, the progress invariant holds for that user completely |
| Users.CreateConfigsForAllUsers | models/res_users.py:255-279 | existing configurations are kept and `created` new ones are appended. Each new one is active and belongs to an internal user with a sales team, for one of that user's companies that had none. Afterwards every such pair has a configuration, and nothing was created exactly when every pair already had one |
| Users.CreateConfigsTwice | models/res_users.py:255-279 | a second run right after the first creates nothing |
| Payments.PaymentTriggerAppends | commission_band/models/account_payment.py:85-113 | the payment trigger only appends, and it appends only when the payment is an inbound customer payment that is reconciled, not skipped and has no non-cancelled calculation. What it appends are calculated records of this payment, in no batch |
| Payments.AnyLiveBlocksPayment | commission_band/models/account_payment.py:104-110 | one non-cancelled calculation of the payment, for whatever invoice, blocks the whole payment, even when another of its invoices has none: the guard is stricter than the per-pair check |
| Payments.PaymentTriggerIdempotent | commission_band/models/account_payment.py:85-113 | triggering a payment again right after a successful run changes nothing |
| Payments.TriggerPayment | commission_band/models/account_payment.py:85-113 | the calculation table after the guarded trigger is its result, and the table is unchanged when the run is refused |
| Payments.TriggerEachAppends | commission_band/models/account_payment.py:79-81 | a trigger pass over a list of payments that does not fail only appends, and every appended record is a calculated one of a selected payment of the list |
| Payments.NothingSelectedIsIdle | commission_band/models/account_payment.py:79-81 | a pass in which no payment is selected changes nothing |
| Payments.TriggerListed | commission_band/models/account_payment.py:79-81 | the table after the pass is the pass's result, and a failing trigger leaves the table as before the call |
| Payments.RecalculateEffect | commission_band/models/account_payment.py:140-151 | after the cancellation step, the payment's only non-cancelled calculations are its paid ones. A paid one makes the re-trigger a no-op; without one, the trigger runs as on a payment never calculated, under the payment's own conditions |
| Payments.PaymentTriggerCaughtFacts | commission_band/models/account_payment.py:85-113 | the trigger with its error caught agrees with the trigger when that succeeds. When refused, it keeps what it created, ending with the refused record. It appends only when the payment guard held, and only calculated records of this payment, in no batch |
| Payments.TriggerPaymentCaught | commission_band/models/account_payment.py:186-191 | the table after one payment of the cron is the caught trigger's result, and the outcome is the trigger's error when it is refused |
| Payments.CronFromAppends | commission_band/models/account_payment.py:164-193 | the pending cron only appends, and every record it appends is calculated and belongs to a payment selected at the start (posted, reconciled, inbound customer, not skipped, with no or only cancelled calculations) |
| Payments.CronKeepsRefusedPayment | commission_band/models/account_payment.py:186-191 | a payment whose trigger is refused leaves its records in the table, up to and including the refused one, whose amounts fail the constraint. The cron with each trigger undone as a whole leaves none |
| Payments.AtomicCronFromAppends | commission_band/models/account_payment.py:164-193 | the cron with each trigger undone as a whole only appends records of selected payments, and each passes the amount constraints |
| Payments.CalculationCount | commission_band/models/account_payment.py:45-48 | the count covers every calculation of the payment, cancelled ones included: it is positive exactly when there is one, and never above the number of calculations |
| Payments.HasCalculations | commission_band/models/account_payment.py:45-49 | the flag is set exactly when the payment has at least one calculation |
| Payments.TotalIsLiveSum | commission_band/models/account_payment.py:51-72 | when every non-cancelled calculation is in the payment's currency, the total is the plain sum of their commissions |
| Payments.TotalIgnoresOthers | commission_band/models/account_payment.py:53-56 | a cancelled calculation, or one of another payment, leaves the total as it is |
| Payments.PaymentTable.Post | commission_band/models/account_payment.py:74-83 | the payments are posted, then each inbound, non-skipped one is triggered through the guard. A failing trigger leaves payments and calculations as before the call |
| Payments.PaymentTable.ReconcileHook | commission_band/models/account_payment.py:115-123 | a payment not skipped goes through the guarded trigger; a skipped one changes nothing |
| Payments.PaymentTable.Recalculate | commission_band/models/account_payment.py:140-151 | the payment's calculations that are neither paid nor cancelled are cancelled, then the payment is triggered; a failing trigger undoes both steps |
| Payments.PaymentTable.CronPending | commission_band/models/account_payment.py:164-193 | the table afterwards is the sweep over all payments, selected on the table as it was when the cron started. A failing payment is passed over, and the records its trigger created stay |
| Payments.PaymentTable.SetSkip | commission_band/models/account_payment.py:195-205 | the flag is stored. When it is switched off, each reconciled inbound payment of the call goes through the guarded trigger; a failing trigger undoes the whole call |
| Payments.PaymentTable.ComputeTotal | commission_band/models/account_payment.py:51-72 | the total is the sum of the payment's non-cancelled commissions in its currency plus each other one converted at the payment date |
| Batches.LeTransitive | commission_band/models/commission_batch.py:182-188 | the date order used by the window tests is transitive |
| Batches.PeriodsIntersectExact | commission_band/wizards/commission_batch_create_wizard.py:146-157 | for ordered windows the closed-interval test holds exactly when the two windows share a date |
| Batches.EndpointInsideIntersects | commission_band/models/commission_batch.py:177-190 | whatever the batch constraint's endpoint test catches, the wizard's intersection test catches too |
| Batches.ContainingWindowNotCaught | commission_band/models/commission_batch.py:177-190 | a batch from 1 January to 31 March passes the constraint next to a February batch of the same company, although the two windows share every February date |
| Batches.AssignToEffect | commission_band/models/commission_batch.py:215-229 | after assignment every assignable calculation is in the batch, calculations already in some batch stay where they were, and a calculation is in the batch exactly when it was before or was assignable |
| Batches.DistinctNoLonger | commission_band/models/commission_batch.py:150-153 | removing repeated salespersons never lengthens the list |
| Batches.StatisticsFacts | commission_band/models/commission_batch.py:144-175 | there are never more distinct salespersons than non-cancelled calculations. With a converter that leaves amounts unchanged, the USD and VES totals together are all of the batch's non-cancelled commissions |
| Batches.NoneInCurrency | commission_band/models/commission_batch.py:406-429 | a currency without calculations in the batch has no total and no salespersons |
| Batches.SummaryOfSpec | commission_band/models/commission_batch.py:406-429 | a currency has a summary entry exactly when some non-cancelled calculation of the batch is in it. Its count, total and salespersons are those of exactly these calculations |
| Batches.SalespersonsInMembers | commission_band/models/commission_batch.py:412-427 | the salespersons of a currency are exactly those of its non-cancelled calculations in the batch |
| Batches.BatchTable.Create | commission_band/models/commission_batch.py:131-134 | inverted dates are refused first. Then a window with an endpoint inside another batch of the company is refused. Otherwise a draft batch is added under the next id; a refusal changes nothing |
| Batches.BatchTable.Calculate | commission_band/models/commission_batch.py:207-247 | only a draft batch calculates. It fails, with nothing changed, when no non-cancelled calculation of the company without a batch has its payment date in the window. Otherwise exactly those calculations join the batch and the batch becomes calculated |
| Batches.BatchTable.Review | commission_band/models/commission_batch.py:249-267 | only a calculated batch with at least one calculation is reviewed. It records reviewer and time and becomes reviewed; a refusal changes nothing |
| Batches.BatchTable.GenerateDocument | commission_band/models/commission_batch.py:269-301 | only a reviewed batch with a payment date generates. Then exactly one new draft document of the batch is created with its lines generated, the batch's calculated and validated calculations are approved, and the batch becomes payment-generated; a refusal changes nothing |
| Batches.BatchTable.MarkPaid | commission_band/models/commission_batch.py:303-323 | only a payment-generated batch is paid. Its approved calculations become paid and the others are unchanged, its document becomes paid, then the batch; a refusal changes nothing |
| Batches.BatchTable.ResetDraft | commission_band/models/commission_batch.py:325-343 | a paid batch is refused with nothing changed. Otherwise all its calculations are detached, its document is deleted, the reviewer is cleared and the batch returns to draft |
| Batches.BatchTable.MarkDocumentPaid | commission_band/models/commission_payment_document.py:237-248 | only a confirmed document is paid, and a refusal changes nothing. The document becomes paid and no other document changes. Its batch, when it had its payment document generated, is paid with its approved calculations, which also pays the document the batch points to |
| Batches.BatchTable.CreateMonthly | commission_band/models/commission_batch.py:375-404 | the batch returned covers the previous calendar month in the company; no later batch does. An existing such batch is returned without creating one. Otherwise the call is refused with nothing changed in exactly two cases: the date has no previous month (January of year 1), or the new window meets the written overlap test against the company's batches. In every other case the new batch is appended under the next id and nothing else changes. It is a draft of the company, named after its month, covering the previous month and paid on the 10th of the date's month |
| Batches.CreateMonthlyTwice | commission_band/models/commission_batch.py:375-404 | asking twice for the monthly batch returns the same batch both times |
| Batches.OnchangeDateFrom | commission_band/models/commission_batch.py:192-205 | the window ends no earlier than it starts, and from the 1st it ends on the month's last day. The payment date is the 10th of the next month, an empty name is filled with the month's label and a set one kept. Only December 9999 has no next month |
| Batches.ComputeStatistics | commission_band/models/commission_batch.py:144-175 | the statistics are the count of the batch's non-cancelled calculations, the number of their distinct salespersons, the USD total (VES left out, other currencies converted) and the VES total |
| Batches.SummaryByCurrency | commission_band/models/commission_batch.py:406-429 | the summary is the per-currency totals with salesperson sets counted (characterised by SummaryOfSpec) |
| BatchCreation.PreviewSalespersons | commission_band/wizards/commission_batch_create_wizard.py:119-122 | the preview lists one salesperson per selected calculation |
| BatchCreation.PreviewCountPositive | commission_band/wizards/commission_batch_create_wizard.py:103-121 | the count is positive exactly when some calculation without a batch, of the company, paid in the window, is calculated, or is validated or approved with the matching flag set |
| BatchCreation.PreviewFacts | commission_band/wizards/commission_batch_create_wizard.py:110-122 | setting a flag never lowers the count, and there are never more distinct salespersons than counted calculations |
| BatchCreation.PreviewTotalSameCurrency | commission_band/wizards/commission_batch_create_wizard.py:124-128 | when every calculation is in its company currency, the total does not depend on the exchange rates |
| BatchCreation.PreviewWithinAssignment | commission_band/wizards/commission_batch_create_wizard.py:160-173 | whatever the preview counts is taken into a batch of that window by the batch's calculate action. The calculate action also takes calculations the flags exclude, such as a validated one when validated calculations are not included |
| BatchCreation.PreviewedAreAssignable | commission_band/wizards/commission_batch_create_wizard.py:160-173 | a positive preview count means the calculate action has a calculation to take |
| BatchCreation.NoIntersectionNoOverlap | commission_band/wizards/commission_batch_create_wizard.py:146-157 | an ordered window that shares no date with a batch of the company also passes the batch's own overlap constraint |
| BatchCreation.ComputePreview | commission_band/wizards/commission_batch_create_wizard.py:97-132 | the preview loop yields the count, the salesperson count and the company-currency total of the selected calculations, and all zeros while a date is missing |
| BatchCreation.CheckDatesAsWritten | commission_band/wizards/commission_batch_create_wizard.py:134-139 | with both dates set and the end before the start the check fails, and it fails on the undefined name `ValidationError`, because line 4 imports only `UserError`; otherwise it passes |
| BatchCreation.CheckDates | commission_band/wizards/commission_batch_create_wizard.py:134-139 | the intended check passes exactly when a date is missing or the start is not after the end; its failure is the inverted-dates message |
| BatchCreation.CheckDatesDiscrepancy | commission_band/wizards/commission_batch_create_wizard.py:4 | on 31 March to 1 March the written check fails with the undefined name and the intended one with the validation message; both accept the same windows |
| BatchCreation.BatchCreateWizard.SetWindow | commission_band/wizards/commission_batch_create_wizard.py:134-139 | writing the window runs the date constraint with its intended error. An inverted window is refused and leaves the wizard unchanged. An accepted one stores both dates and changes nothing else |
| BatchCreation.BatchCreateWizard.constructor | commission_band/wizards/commission_batch_create_wizard.py:22-74 | a new wizard is monthly, for the current month and year, with validated calculations included and approved ones not |
| BatchCreation.BatchCreateWizard.OnchangePeriod | commission_band/wizards/commission_batch_create_wizard.py:76-95 | for a monthly period with a month and a year, the window is the 1st to the month's last day and the payment date the 10th of the next month. The name is regenerated only when empty or containing "Commissions". A year that does not parse, or December 9999, fails with nothing changed, and other periods change nothing |
| BatchCreation.BatchCreateWizard.CreateBatch | commission_band/wizards/commission_batch_create_wizard.py:141-173 | creation is refused when a batch of the company shares a date with the window, and refused when the preview count is 0. Otherwise the batch is created and calculated, taking every assignable calculation of the window whatever the flags. A refusal changes nothing |
| BatchCreation.CreateCalculated | commission_band/wizards/commission_batch_create_wizard.py:163-173 | once the wizard's checks pass, an ordered window becomes a new calculated batch holding every assignable calculation, while inverted dates make the batch refuse creation |
| Documents.GroupsCorrect | commission_band/models/commission_payment_document.py:153-180 | after the grouping loop over any prefix of the table there is exactly one group per salesperson with an included calculation of the batch (calculated, validated or approved). Each group holds that salesperson's included calculation ids and their USD and VES sums. Each of its other-currency totals is the sum in that currency, with one total per currency present and none when there is no other-currency calculation |
| Documents.GeneratedLinesSpec | commission_band/models/commission_payment_document.py:153-216 | the generated lines have distinct salespersons, and a salesperson has a line exactly when they have an included calculation of the batch. A line holds exactly those calculations and their count. Its USD original and USD payment are the USD sum. Its VES original is the VES sum, and its VES payment equals that sum when the salesperson has no calculation in another currency |
| Documents.GroupCalculations | commission_band/models/commission_payment_document.py:151-180 | the grouping loop produces the groups whose meaning Documents.GroupsCorrect states |
| Documents.ConvertOthers | commission_band/models/commission_payment_document.py:206-214 | the loop returns the other-currency totals, each converted into VES at the document date, summed |
| Documents.BuildLines | commission_band/models/commission_payment_document.py:185-218 | the line-building loop produces one line per group, in group order, with the group's salesperson, calculations, count, USD and VES sums, and the VES payment increased by the converted other currencies |
| Documents.ApproveBatch | commission_band/models/commission_payment_document.py:220-223 | exactly the batch's calculated and validated calculations become approved. Every other calculation, the approved ones included, is unchanged |
| Documents.GeneratedTotals | commission_band/models/commission_payment_document.py:121-132 | on freshly generated lines the document counts as many salespersons as lines, and its USD payment total equals its USD original total. Without an included calculation in another currency, its VES payment total equals its VES original total |
| Documents.PositiveCount | commission_band/models/commission_payment_document.py:275 | the count of amounts that are positive is at most the number of lines. It equals that number exactly when every amount is positive, and it is zero exactly when none is |
| Documents.Summary | commission_band/models/commission_payment_document.py:267-284 | the USD and VES summaries carry the document's original and payment totals, and their salesperson counts are at most the number of lines |
| Documents.LineTotalFacts | commission_band/models/commission_payment_document.py:360-395 | a line whose payments are both non-positive totals zero. With the company in USD, or in VES, and no payment in the other currency, the total is the positive payment itself. With a converter that keeps positive amounts positive, the total is positive exactly when one of the payments is |
| Documents.DocumentTable.Create | commission_band/models/commission_payment_document.py:114-119 | a new draft document without lines is stored under a fresh id, and nothing else changes |
| Documents.DocumentTable.GenerateLines | commission_band/models/commission_payment_document.py:134-223 | generation is refused, changing nothing, when the document already has lines. Otherwise the document gets the document-date USD to VES rate and exactly the lines of Documents.GeneratedLinesSpec, the batch's calculations are approved as Documents.ApproveBatch states, and no other document changes |
| Documents.DocumentTable.Confirm | commission_band/models/commission_payment_document.py:225-235 | a document that is not draft, or a draft without lines, is refused with that error and nothing changes. A draft with lines becomes confirmed and nothing else changes |
| Documents.DocumentTable.SetPaid | commission_band/models/commission_payment_document.py:244 | the document becomes paid and nothing else changes |
| Documents.DocumentTable.Delete | commission_band/models/commission_payment_document.py:293-298 | the document (with its lines) is removed and the other documents stay |
| ConfigWizard.NextStep | commission_band/wizards/commission_band_config_wizard.py:76-89 | every step but done moves exactly one step forward, and done stays done |
| ConfigWizard.PreviousStep | commission_band/wizards/commission_band_config_wizard.py:99-110 | every step but welcome moves exactly one step back, and welcome stays welcome |
| ConfigWizard.StepsUndo | commission_band/wizards/commission_band_config_wizard.py:72-110 | away from the ends, going back undoes going forward and going forward undoes going back |
| ConfigWizard.DefaultBandsAccepted | commission_band/wizards/commission_band_config_wizard.py:127-164 | each of the three standard bands, with its ranges, passes every band and range check, and covers every day from -999 to 999 by exactly one range |
| ConfigWizard.RangesOfIndex | commission_band/wizards/commission_band_config_wizard.py:183-192 | the ranges of a created band are the band's range data in order, the i-th under the i-th new id with sequence ten times its position |
| ConfigWizard.BandsFromSkips | commission_band/wizards/commission_band_config_wizard.py:168-172 | a standard band whose code an active band already has is skipped |
| ConfigWizard.BandsFromCreates | commission_band/wizards/commission_band_config_wizard.py:174-194 | a standard band whose code is missing is created after the existing bands, or its refusal is the loop's error |
| ConfigWizard.BandsFromKeeps | commission_band/wizards/commission_band_config_wizard.py:166-196 | after the band loop the old bands are in place, and the new ones are appended under consecutive ids, which are exactly the ids the wizard remembers |
| ConfigWizard.BandsFromNew | commission_band/wizards/commission_band_config_wizard.py:168-194 | every band the loop creates is active, belongs to the current company and carries a standard code that no active band had before |
| ConfigWizard.BandsFromComplete | commission_band/wizards/commission_band_config_wizard.py:168-194 | after the band loop every standard code is present among the active bands |
| ConfigWizard.BandsFromIdle | commission_band/wizards/commission_band_config_wizard.py:168-172 | once every standard code is present the loop creates nothing, so creating the default bands a second time changes nothing |
| ConfigWizard.CreateStandardBand | commission_band/wizards/commission_band_config_wizard.py:174-194 | one band is created, with its ranges, under the next id. A refusal is the error of the whole loop |
| ConfigWizard.CreateStandardBands | commission_band/wizards/commission_band_config_wizard.py:166-196 | the loop ends with the bands and ids of the band-loop specification. A refused band restores the band table and returns the error |
| ConfigWizard.FindBand | commission_band/wizards/commission_band_config_wizard.py:205-207 | the search finds a band exactly when an active band has the code, and what it finds is such a band |
| ConfigWizard.DefaultRulesAccepted | commission_band/wizards/commission_band_config_wizard.py:209-237 | each standard rule that the loop does not skip passes every rule check |
| ConfigWizard.RulesFromSpec | commission_band/wizards/commission_band_config_wizard.py:239-263 | after the rule loop the old rules are in place. Each new rule is a standard rule that was not skipped, appended under consecutive ids, and every rule not skipped has its code present afterwards |
| ConfigWizard.HighestPriority | commission_band/wizards/commission_band_config_wizard.py:281 | there is a default rule exactly when the wizard created rules. It is one of them, and no other has a larger priority number |
| ConfigWizard.UsersToConfigure | commission_band/wizards/commission_band_config_wizard.py:271-278 | with "all users" set, the users are exactly the internal users in a sales team. Otherwise they are the selected users |
| ConfigWizard.WriteKeepsConfigured | commission_band/wizards/commission_band_config_wizard.py:283-292 | writing one configuration active with the default rule keeps every user configured who was configured before |
| ConfigWizard.ConfigureOne | commission_band/wizards/commission_band_config_wizard.py:282-291 | one user of the loop: the table is Upserted of the old one, the user has an active configuration in the company with the default rule, and no other configuration changes |
| ConfigWizard.ConfiguredFromConfigures | commission_band/wizards/commission_band_config_wizard.py:282-291 | after the loop every user of the list has an active configuration in the company with the default rule |
| ConfigWizard.ConfiguredFromKeeps | commission_band/wizards/commission_band_config_wizard.py:282-291 | the loop keeps every user configured with the default rule who was |
| ConfigWizard.ConfiguredFromFrame | commission_band/wizards/commission_band_config_wizard.py:282-291 | the loop leaves the configurations of users outside the list, and of other companies, unchanged |
| ConfigWizard.ConfigureUsers | commission_band/wizards/commission_band_config_wizard.py:265-292 | the table afterwards is ConfiguredFrom of the old one: the users in turn, each written or created through create_or_update_config. Every user to configure ends up with an active configuration in the company that has the default rule. Configurations of other users, and of other companies, are unchanged |
| ConfigWizard.ConfigurationWizard.constructor | commission_band/wizards/commission_band_config_wizard.py:17-64 | the wizard starts at welcome, with default bands and rules on, all users off, and nothing created or selected |
| ConfigWizard.ConfigurationWizard.Previous | commission_band/wizards/commission_band_config_wizard.py:99-110 | the step moves back as ConfigWizard.PreviousStep states, and nothing else changes |
| ConfigWizard.ConfigurationWizard.CreateBands | commission_band/wizards/commission_band_config_wizard.py:120-196 | the band table and the remembered band ids become exactly what the band-loop specification gives. On a refusal the table is unchanged and its error is returned |
| ConfigWizard.ConfigurationWizard.CreateRules | commission_band/wizards/commission_band_config_wizard.py:198-263 | the rule table and the remembered rule ids become exactly what the rule-loop specification gives for the standard bands found. On a refusal the table is unchanged and its error is returned |
| ConfigWizard.ConfigurationWizard.Next | commission_band/wizards/commission_band_config_wizard.py:72-97 | a step that succeeds moves forward as ConfigWizard.NextStep states, and no step changes the options or the selected users. The band and rule steps do their creation when their option is set, each touching only its own table and ids. A refusal keeps the step and leaves every table and the ids unchanged. The users step configures the users to configure as ConfigureUsers does, with the highest-priority created rule, and keeps the ids. The other steps change no table |
| Moves.CommissionStats | models/account_move.py:53-71 | the loop counts the invoice's calculations that are not cancelled and totals their commission in the company currency. The average is the mean of the non-zero overdue days among them, or 0 when there is none |
| Moves.StatsIgnoreOthers | models/account_move.py:57-71 | adding cancelled calculations, or calculations of other invoices, changes none of the statistics |
| Moves.OnTimeCountedNotAveraged | models/account_move.py:57-71 | a live calculation with zero overdue days adds one to the count and leaves the average unchanged |
| Moves.DelayAtMostLive | models/account_move.py:57-70 | no more calculations are averaged than are counted |
| Moves.AvgWithinBounds | models/account_move.py:70-71 | when some live calculation has non-zero overdue days, the average lies between any lower and upper bound of those days |
| Moves.TotalNonNegative | models/account_move.py:64-67 | non-negative commissions at non-negative exchange rates give a non-negative total |
| Moves.DeliveryDefaultsAgree | models/account_move.py:162-169 | changing the invoice date changes only the delivery date: a set one is kept, an unset one takes the invoice date. Posting does the same to a sale document and nothing to any other document. Doing either a second time changes nothing |
| Moves.PostedSaleHasDelivery | models/account_move.py:165-167 | a posted sale document that has an invoice date has a delivery date |
| Moves.DefaultSalespersonSpec | models/account_move.py:154-158 | only the salesperson changes, and it becomes the first that is set of the invoice's own salesperson, the move's `user_id` field, and the leader of the invoice's team when a team is set. A set salesperson is never replaced. None is left exactly when nobody can be taken, and defaulting twice is defaulting once |
| Moves.MoveTable.OnchangeInvoiceDate | models/account_move.py:73-77 | the invoice's delivery date is defaulted as Moves.DeliveryDefaultsAgree states, and no other invoice changes |
| Moves.MoveTable.ComputeSalesperson | models/account_move.py:149-160 | the invoice's salesperson is defaulted as Moves.DefaultSalespersonSpec states, and no other invoice changes |
| Moves.MoveTable.Post | models/account_move.py:162-169 | every selected invoice gets the posting delivery date of Moves.DeliveryDefaultsAgree, and every invoice not selected is unchanged |
| Moves.GetCommissionInfo | models/account_move.py:94-147 | the information carries the invoice's name, salesperson, skip flag and override rule, the entries of its live calculations, and the entries of its potential rules |
| Moves.ListCalculations | models/account_move.py:111-121 | the loop lists the entries of the invoice's calculations that are not cancelled, in table order |
| Moves.ListPotentialRules | models/account_move.py:131-145 | the loop lists in order the candidates whose customer, salesperson and team restrictions the invoice meets |
| Moves.CalcEntriesCount | models/account_move.py:112-121 | the calculation list has as many entries as the statistics count |
| Moves.CalcEntriesMembers | models/account_move.py:112-121 | an entry is listed exactly when it is the entry of a live calculation of the invoice |
| Moves.PotentialMembers | models/account_move.py:131-139 | a rule is kept exactly when it is a candidate and passes the customer, salesperson and team pre-filter |
| Moves.PotentialSorted | models/account_move.py:126-139 | the pre-filter keeps the order of the candidates |
| Moves.PotentialRulesMembers | models/account_move.py:123-145 | a rule is potential exactly when the invoice has a salesperson, does not skip commissions, and the rule is an active rule of the invoice's company that passes the pre-filter |
| Moves.PotentialRulesOrdered | models/account_move.py:126-129 | the potential rules come in priority, then sequence order |
| Moves.MatchingRulesArePotential | models/account_move.py:123-139 | every active rule of the company that the engine's criteria accept for the invoice's salesperson is potential, provided the invoice's team is the salesperson's team |

## Left out

- Currency conversion (`_convert`, `_get_conversion_rate`) belongs to the currency service. It is passed in as a function. Nothing is assumed about it beyond what a lemma states in its own premise.
- Documents.DocumentTable.GenerateLines: the model assumes the USD and VES currencies exist, because the currency table is not modelled. The source skips storing the exchange rate when either is missing (commission_band/models/commission_payment_document.py:145).
- Clock reads (`fields.Date.today()`, `fields.Datetime.now()`) are parameters. The user of the current session (`env.user`) and the current company (`env.company`) are parameters as well.
- Float arithmetic and the `digits` precision of the fields are left out: amounts are exact reals, so no sum is rounded.
- Ranges.TwoDecimals renders the rate in a range's display name from the exact value, rounding halves up. Python's `"%.2f"` rounds the binary float, which can differ on ties.
- Record order: tables are kept in id order. The model sorts explicitly only where the source does: ranges by `day_from`, and rules by `priority, sequence`. Where a model's `_order` would list records differently (calculations by payment date, payment lines by salesperson), the model's sequences follow id order. The stated properties do not depend on that order, apart from the order of lines and listed entries and the band lookup below.
- ConfigWizard.FindBand takes the first active band with the code in id order. The source's search returns the first in the band order `sequence, name`. The two differ only when two active bands share the code, which the per-company code constraint allows across companies. String order under the database collation is not modelled.
- ConfigWizard.UsersToConfigure, Users.CreateConfigsForAllUsers and Users.SalesUser do not drop archived users. The `res.users` searches behind them add an implicit `active` filter, but the model's users carry no active flag.
- Dates.MonthName gives the English month names. `strftime('%B')` follows the server's locale.
- Ids that the database hands out are modelled as table positions. The ids of new range records come from a counter passed in (`firstRange`).
- A band and its ranges are checked together before anything is stored. The source runs each constraint inside the `create` or `write` that stores the record it guards, one record after the other. The refusal rolls the whole transaction back, so the outcome is the same. The configuration wizard creates each standard band without its ranges and then each range on its own, so the band's checks on its ranges never run on that path. The model runs them on the complete band, and ConfigWizard.DefaultBandsAccepted proves the standard bands pass them, so the outcome agrees there too.
- Exceptions: an uncaught exception is modelled as a refusal that changes nothing, because the transaction rolls back. The two crons catch the exception without a savepoint, so their model keeps the writes made before it: the validation cron keeps a refused write of a limit, and the pending-commission cron keeps the calculations created up to and including the refused one. Both crons catch every refusal here, because every error the model raises stands for a `UserError` or a subclass of it. The crons' `_logger` calls are left out.
- The `'message_post'` key written into the batch's values (commission_band/models/commission_batch.py:231-236) is left out. It is not a field of the batch, and Odoo may refuse the whole write because of it. The model follows the evident intent and stores only the new state.
- Configs.ConfigTable.CreateOrUpdate: the values written are restricted to `commission_active` and `default_rule_id`, the only keys any caller in the core passes. The source accepts any field.
- Salesperson-configuration statistics (`_compute_total_commission`, `avg_collection_days`, commission_band/models/salesperson_config.py:133-153) are not modelled. They are not part of the core. The statistics of `res.users` and of `account.move` are modelled.
- The calculation's display name, colour, `in_batch` flag and `get_commission_summary` (commission_band/models/commission_calculation.py:469-488) are display helpers and are not modelled.
- The dashboard of `res.users` is modelled only for its six collection-delay buckets. Its 12-month trend loop also calls `relativedelta`, which models/res_users.py never imports, and it only formats figures, so it is left out.
- The HTML summary of the configuration wizard (`_generate_summary`), notification and window-action dictionaries, the `action_view_*` methods, `action_export_excel` and `fields_view_get` are user-interface glue and are left out.
- Moves.GetCommissionInfo lists ids where the source shows names (payment, rule), and `None` where it shows "Not assigned", "None", "Direct" or "N/A".
- Posting itself (`super()._post`, `super().action_post`) and the account that `_get_invoice_computed_account` returns belong to the accounting module. Only the commission side effects are modelled.
- Naming through `ir.sequence`, `mail.thread` tracking and messages, and record rules are ORM mechanics with no commission meaning, and are left out.
- The spreadsheet and CSV export wizard, the HTTP controllers and the manifests are export glue and metadata with no stated behaviour.
- Concurrency is left out. The duplicate check followed by a create is atomic only inside one transaction, and racing transactions are the database's concern.

## Findings

| source | as written | input that shows it | evidently intended | confidence | as-written member | corrected member |
|---|---|---|---|---|---|---|
| commission_band/wizards/commission_batch_create_wizard.py:134-139 | `_check_dates` raises `ValidationError`, but line 4 imports only `UserError`, so an inverted window fails with a `NameError` | a wizard with date_from 2024-03-31 and date_to 2024-03-01 | the window is refused with the message "'Date From' must be before or equal to 'Date To'" | not executed | BatchCreation.CheckDatesAsWritten (discrepancy shown by BatchCreation.CheckDatesDiscrepancy) | BatchCreation.CheckDates (used by BatchCreation.BatchCreateWizard.SetWindow) |
| commission_band/models/commission_calculation.py:462-466 | the cron catches the `UserError` of `action_validate` without a savepoint and commits, so a write of a limit that the amount constraint refuses stays stored | a configuration with no minimum and a maximum of -1, and a calculated, reconciled calculation of 10: the first run stores -1 and leaves the calculation calculated; the second run writes nothing and validates -1 | a refused calculation stays as it was, and no calculation is validated with a negative commission | not executed | Calculations.CalculationTable.CronValidate (discrepancy shown by Calculations.CronValidatesNegativeMaximum) | Calculations.AtomicCronStep (proved in Calculations.AtomicCronFacts) |
| commission_band/models/account_payment.py:186-191 | the cron catches the exception of the trigger without a savepoint and commits, so the calculations created for a payment before the refused one stay, and so does the refused record, which was inserted before its constraint ran | a payment reconciled with two invoices whose second salesperson's rule has a percentage of -3: the first invoice's calculation and the negative second one stay, and the cron never selects the payment again | a payment whose trigger is refused keeps none of its calculations | not executed | Payments.PaymentTable.CronPending (discrepancy shown by Payments.CronKeepsRefusedPayment) | Payments.AtomicCronFrom (proved in Payments.AtomicCronFromAppends) |
