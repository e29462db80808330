# Mortgage engine model

A Dafny model of the calculation core of a browser mortgage calculator. The
`MortgageEngine` class in `script.js` works in five steps:

1. It takes a loan configuration: principal, term in months, repayment frequency and variable rate.
2. It adds optional overlays: a fixed-rate period, a split loan, an interest-only period, and a repayment override.
3. It also takes the offset and redraw balances, an annual fee, property value and growth, and a list of dated interventions (lump sums, rate changes, offset and redraw top-ups).
4. `calculate` works out the initial periodic repayment and then runs the amortisation twice:
   - a baseline run with no offset, redraw, fee or interventions;
   - the actual run.
5. `runSimulation` walks the ledger period by period, for at most 60 years. Each period it applies:
   - the rate regime;
   - repayment recalculation when a regime starts or ends;
   - the anniversary fee and the interventions;
   - interest net of the offset and redraw, split between fixed and variable portions;
   - principal and payoff, property growth and loan-to-value ratio.

   Along the way it records the first "neutrality" period, the payoff date, the loan-to-value milestones (90, 80, 50, 25 %) and where each overlay ends.

The helper `expandIntervention` turns a recurring intervention into dated
copies, up to 60 years ahead. The helper `monthsBetween` counts calendar months between two dates.

Modules, one per file:

- `Calendar` (`calendar.dfy`): dates as (year, month 0–11, day), with the JavaScript `Date` roll-over of `setMonth`, `setFullYear` and `setDate`, and `monthsBetween`.
- `Repayment` (`repayment.dfy`): the annuity formula `calculateRepayment`, rounding to cents, and the proof that the payment clears the loan exactly.
- `Loan` (`loan.dfy`): the configuration and frequencies, overlay windows and rate precedence, period dates, the interest formula (plain and split), loan-to-value ratio and property growth.
- `Interventions` (`interventions.dfy`): `expandIntervention` (a loop) and the per-period application of interventions (a loop over the period's events).
- `Ledger` (`ledger.dfy`): the ledger row and what makes a row and a whole ledger well formed; first/last searches; milestones; overlay-end markers (a loop).
- `Simulation` (`simulation.dfy`): one period, and the simulation loop (`runSimulation`) proved against the ledger specification.
- `Engine` (`engine.dfy`): the set-up done by `calculate` (start rate, initial repayment, split repayments, actual repayment, months saved) and the `MortgageEngine` class, whose `Calculate` method assigns the engine's fields.

Money and rates are exact reals. `Math.round(x * 100) / 100` is modelled as rounding half up to a whole cent.

Division by a zero property value gives an `Lvr` value that is `Infinity`, `-Infinity` or `NaN`. Its comparisons follow IEEE rules, as the source's milestone tests do.

`new Date()` becomes a `today` parameter. A missing loan or repayment start date defaults to it.

`calculate`'s choice of starting rate is modelled as written:

- A configured interest-only period is tested first. Its existence alone blocks the fixed-rate test, even when the repayment start lies outside it.
- The simulation gives the fixed rate precedence over the interest-only rate.

## Model

| member | source | states |
|---|---|---|
| Calendar.AddMonths | script.js:207 | moving a date k months lands in calendar month +k on the same day when that day exists there; otherwise one month later, on the day minus that month's length (the JavaScript roll-over) |
| Calendar.AddYears | script.js:184-185 | moving a date n years keeps its month and day when that day exists in the target year; otherwise (29 February into a common year) it lands on 1 March |
| Calendar.AddDaysAdvances | script.js:209 | adding n days moves a date forward by at least n day steps, and not at all when n = 0 |
| Calendar.MonthsBetween | script.js:450 | 0 when either date is missing, otherwise the difference of the calendar month indices |
| Calendar.MonthsBetweenAddMonths | script.js:450 | counting months from a date to the same date moved k months gives back k, for a day up to the 28th |
| Repayment.CentRound | script.js:93 | rounding to cents stays within half a cent and yields a whole number of cents |
| Repayment.CalculateRepayment | script.js:143-148 | zero for a non-positive principal or period count; principal/periods at a zero rate |
| Repayment.PaymentExceedsInterest | script.js:145-147 | at a positive rate the annuity payment exceeds one period's interest on the principal, so the balance falls |
| Repayment.AmortizeClosedForm | script.js:323-328 | after k periods of a constant payment the balance is b·(1+i)^k − pay·(sum of (1+i)^j for j < k) |
| Repayment.RepaymentClearsLoan | script.js:143-148 | paying the computed repayment for the given number of periods leaves exactly zero owing, at every rate where the annuity formula is defined |
| Loan.PeriodsPerYear | script.js:47-52 | periods per year are positive, and periods × days per period is one year (365.25 days monthly, 364 days weekly or fortnightly) |
| Loan.StepDays | script.js:54-59 | the day step used to date weekly and fortnightly periods equals the days per period |
| Loan.OverlayWindow | script.js:181-202 | an overlay window exists exactly when the overlay is enabled, has a start date and a positive duration; it starts on that date and ends that many years later |
| Loan.Regime | script.js:212-226 | inside the IO window ⇔ IO; split only inside its window and never while IO; fixed ⇔ inside the fixed window |
| Loan.EffectiveRate | script.js:212-226 | the fixed rate wins over the IO rate, which wins over the variable rate |
| Loan.InterestNonNegative | script.js:304-315 | a period's interest is never negative when rates are non-negative |
| Loan.InterestMonotoneInFacilities | script.js:304-315 | more offset plus redraw never raises a period's interest, plain or split |
| Loan.SplitInterestMonotone | script.js:306-312 | split-period interest does not rise as the facilities grow |
| Loan.SplitInterestBlended | script.js:307-312 | split interest equals the net principal charged at the blend of the fixed and variable rates weighted by the capped split ratio |
| Loan.FixedShare | script.js:309-310 | for a positive balance the fixed portion is the balance times min(ratio, 1), so the source's quotient `sPortion / currentBalance` is min(ratio, 1) |
| Loan.SplitInterestAsWritten | script.js:307-312 | the interest as written is defined (and equals the corrected one) whenever the balance is not zero |
| Loan.SplitZeroBalancePoisonsTotal | script.js:307-316 | as written, a split period opening at a zero balance computes 0/0 and makes the interest total undefined |
| Loan.ZeroBalanceAccruesNothing | script.js:304-316 | corrected: a period opening at zero balance with non-negative facilities accrues no interest |
| Loan.ComputeLvr | script.js:331 | for a non-zero property value the ratio is finite and ratio × value = balance × 100 |
| Loan.ValueAfterClosedForm | script.js:363-364 | after k periods the property value is the initial value times the growth factor to the k |
| Interventions.NextOccurrence | script.js:530-534 | only the four known recurrences have a next date, and it is strictly later |
| Interventions.ExpandIntervention | script.js:523-537 | one-off items and rate changes come back unchanged. A recurring item yields copies differing only in date, each at or before the 60-year limit. The first copy is on the item's date; each later copy is the recurrence's next date from the one before, so dates strictly increase. The list stops only when the next date is past the limit; it is empty iff the item's date is past the limit; an unknown recurrence gives at most one copy |
| Interventions.LinkedIncreasing | script.js:527-535 | occurrences chained by the recurrence have strictly increasing dates |
| Interventions.ApplyInterventions | script.js:290-299 | the forEach loop computes the same state as applying the period's events one by one |
| Interventions.FixedWindowKeepsRate | script.js:292-296 | inside a fixed window no event changes the variable rate or the repayment |
| Interventions.OverrideKeepsPayment | script.js:294-295 | with a repayment override, rate changes never change the repayment |
| Interventions.NonNegativeEvents | script.js:290-299 | with non-negative event values the balance does not rise and the offset and redraw do not fall |
| Interventions.EventsBalance | script.js:291 | after the events, the balance has moved by exactly the lump sums noted |
| Interventions.EventsTopUps | script.js:297-298 | offset and redraw grow by exactly the top-ups noted for them |
| Interventions.EventsOffset | script.js:297 | the offset grows by exactly the sum of the offset top-ups noted |
| Interventions.EventsRedraw | script.js:298 | the redraw grows by exactly the sum of the redraw top-ups noted |
| Interventions.EventsLedger | script.js:290-299 | the notes, balance, facilities and rate after the events agree with one another |
| Interventions.EventsNotes | script.js:290-299 | the period's notes are appended in order; the variable rate moves only when a rate note was produced; events never produce a fee note |
| Ledger.SplitShares | script.js:334-340 | the shares are the fixed and variable repayments scaled by repayment / total (a zero total read as 1); when the total is the non-zero sum of the two repayments the shares add up to the repayment, and they are non-negative when the repayments and the repayment are |
| Ledger.FirstWhere | script.js:302 | the first index satisfying a condition, or -1 exactly when none does |
| Ledger.LastWhere | script.js:327 | the last index satisfying a condition, or -1 exactly when none does |
| Ledger.FindMarker | script.js:367-376 | the overlay-end marker is absent without a window or ledger, and otherwise points at the first row dated on or after the window end, carrying that end date |
| Ledger.LastAtOrBefore | script.js:378 | the last row dated on or before the date; every later row is after it |
| Ledger.EntryInterestNonNegative | script.js:304-316 | every ledger row's interest is non-negative when the rates are |
| Ledger.EntryInterestAtMostWithoutFacilities | script.js:304-315 | a row's interest is at most what it would be with no offset or redraw |
| Ledger.InterestOnlyRepaysNoPrincipal | script.js:318-324 | an IO row repays no principal and keeps its opening balance; without an override its repayment equals its interest; outside a fixed window it is charged the IO rate |
| Ledger.CrossingsOrdered | script.js:355-360 | the ratio falls to a higher threshold no later than to a lower one |
| Ledger.MilestonesOrdered | script.js:353-361 | milestone rows are ordered 90 ≤ 80 ≤ 50 ≤ 25, and reaching 25 % from above 90 % implies the 90 % milestone was recorded |
| Simulation.Transitions | script.js:232-269 | the repayment after the regime checks: entering a split window outside a fixed one scales the split total by balance / max(1, principal); leaving it re-solves at the variable rate; otherwise leaving interest-only re-solves at the variable rate; otherwise entering or leaving the fixed window re-solves at the rate now charged; with no change (or an override, or no periods left) the repayment is kept; entering interest-only alone keeps it; the notes carry no money, fee or rate |
| Simulation.TopUpsNonNegative | script.js:297-298 | top-ups noted for a period are non-negative when the event values are |
| Simulation.PeriodNotesFacts | script.js:271-299 | a period's balance moves by the fee (when charged) plus the lump sums; a fee note appears exactly when the fee was charged |
| Simulation.OpenPeriod | script.js:205-302 | the loop's first half computes exactly `Open`: the period date and regime, the effective rate, the repayment after the regime checks, the fee added and noted when due, the period's interventions applied in order, and the balance floored at zero |
| Simulation.OpenOk | script.js:271-302 | the opened state continues the carried one: the period date and its regime, the balance moved by exactly the noted fee and lump sums then floored at zero, the facilities moved by exactly their top-ups, the variable rate changed only by a rate note, the repayment kept under an override, and the fee charged (and its year recorded) exactly when it is due |
| Simulation.OpenEvents | script.js:271-299 | after the fee and the period's events, the balance has moved by exactly the noted fee and lump sums, the offset and redraw by exactly their noted top-ups (never below zero when nothing negative is added), the rate only with a rate note, the repayment not at all under an override, and a fee note is present exactly when the fee was charged |
| Simulation.ClosePeriod | script.js:304-364 | the loop's second half computes exactly the row `Close` describes for the period's interest, payment and principal due |
| Simulation.SettleOk | script.js:304-364 | a period that opened above zero writes a well-formed row that continues the carried state, records the variable rate, the fee exactly when due and the payoff at the balance, and hands its regime and non-negative facilities to the next period |
| Simulation.ClosedEntryOk | script.js:304-364 | the row a period writes is well formed: dated and flagged by its regime, charged the period's interest, paying off at most the opening balance, valued at the grown property value |
| Simulation.ClosedRowOk | script.js:271-364 | the row opens at the carried balance moved by its noted fees and lump sums, at most one fee per year, and hands its closing state to the next period |
| Simulation.Period | script.js:204-364 | one loop body equals `PeriodResult`; it stops exactly when the period opens with nothing owing (accruing no interest under non-negative facilities), and otherwise yields a well-formed row continuing the state |
| Simulation.Extend | script.js:204-365 | appending a well-formed row keeps the whole ledger well formed, including at most one fee per calendar year |
| Simulation.Advance | script.js:204-365 | one iteration is the period's outcome on the carried state; it stops exactly when the period opens at zero, and a row extends the ledger and carried state consistently |
| Simulation.RunFromGrows | script.js:204-365 | the loop only appends rows and never runs past the 60-year horizon |
| Simulation.RunEnds | script.js:204-326 | the loop ends only at the 60-year horizon or at a period that opens with nothing owing |
| Simulation.RunFromStep | script.js:204-365 | one turn of the loop is one step of the reference run: a stop ends it, adding the stopping period's interest; a row continues it from the row's closing state |
| Simulation.Points | script.js:351 | the property history has one point per ledger row, with that row's period, date, value and ratio |
| Simulation.Track | script.js:302-361 | the running total, neutrality date, payoff date and milestones stay those of the ledger so far |
| Simulation.NeutralityStep | script.js:302 | the neutrality date is set only by the first row whose facilities cover its positive opening balance |
| Simulation.LoanEndStep | script.js:327 | the loan end date moves to every row that pays the loan off, so it is the last such row's date |
| Simulation.Record | script.js:302-361 | after a row is written the ledger and property history grow by it, the total grows by its interest, and the neutrality date, payoff date and milestones are those of the longer ledger |
| Simulation.Step | script.js:204-365 | one turn returns the period's outcome; it stops exactly when the period opens at zero, keeping the state and adding that period's interest; otherwise it appends the row, carries its closing state, adds its interest and keeps ledger, carried state and records in step |
| Simulation.Simulate | script.js:150-365 | the ledger and interest total are those of the reference run `Run`, which runs periods until the horizon or a period opening at zero. The ledger is well formed and at most 60 years long, and the property history matches it. Under non-negative facilities the total is the sum of the rows' interest. The neutrality date is the first neutral row's date. The loan end date is the date of the last row that paid off. Each milestone is the first row past its threshold, after period 1 and from an initial ratio above it |
| Simulation.NeutralityIndex | script.js:378 | the neutrality index is at or after the first neutral row |
| Simulation.RunSimulation | script.js:150-379 | the full result: everything `Simulate` states, that the run ended at the horizon or at a period opening at zero, the neutrality index, and the fixed, split and IO end markers |
| Engine.StartRate | script.js:69-83 | IO rate inside a configured IO window; otherwise the fixed rate inside the fixed window only when no IO window is configured; otherwise the variable rate |
| Engine.InitialRepayment | script.js:88-94 | a whole number of cents: one period's interest when starting interest-only, otherwise the annuity repayment over the contract periods, each rounded to within half a cent |
| Engine.InitialRepaymentClearsLoan | script.js:92-93 | the unrounded initial repayment pays the principal off exactly over the contract periods |
| Engine.SplitPortions | script.js:105-112 | the fixed and variable portions add up to the principal; a value split fixes the fixed portion at that value, a percent split at that percentage of the principal |
| Engine.SplitRepayments | script.js:96-118 | all zero unless the split is enabled with a positive duration; otherwise each part is its portion's rounded repayment, each a whole number of cents, and the total is their sum |
| Engine.ActualRepayment | script.js:120 | a non-zero override wins; otherwise the split total exactly when a split is on and dated no later than the loan start; otherwise the initial repayment |
| Engine.MonthsSavedAsWritten | script.js:138-140 | as written, a ledger that never pays off reports the whole term as saved |
| Engine.NeverPaidOffSavesWholeTerm | script.js:138-140 | the as-written formula reports the full term for a loan never paid off, where the corrected one reports 0 |
| Engine.MonthsSaved | script.js:138-140 | corrected: never negative; zero when the loan was never paid off; otherwise the term minus the months from the loan start to payoff, floored at zero |
| Engine.LumpSumClearanceMisreported | script.js:138-140 | as written, a 300-month loan cleared by a lump sum in its 24th month reports all 300 months saved, where the corrected figure is 276 |
| Engine.PayoffDateOfRun | script.js:326-327 | the payoff date used for the months saved is a date at which nothing is owing: the date of the last row when it paid off, or that of the period that opened at zero; it is unset exactly when the run reached the horizon still owing |
| Engine.BaselineRun | script.js:123 | the baseline run is the actual run with no offset, redraw or fee and no interventions, so its facilities are never negative |
| Engine.Plan | script.js:61-141 | the opening repayment and split repayments; the baseline interest is that of a baseline run and the result is the actual run, both from the same actual repayment and meeting the simulation's specification (what each run is and where it stops); the months saved come from the actual run's payoff date |
| Engine.MortgageEngine.constructor | script.js:5-45 | a new engine holds the configuration and the default, empty results |
| Engine.MortgageEngine.StoreLedger | script.js:126-130 | the ledger, property history, total interest and payoff date become the simulation's; every other field is untouched |
| Engine.MortgageEngine.StoreMarkers | script.js:129-136 | the neutrality date and index, milestones and overlay ends become the simulation's; every other field is untouched |
| Engine.MortgageEngine.StoreFigures | script.js:91-140 | the periodic and split repayments, baseline interest and months saved are stored; the configuration and the stored simulation result are untouched |
| Engine.MortgageEngine.Calculate | script.js:61-141 | leaves the engine unchanged for a non-positive principal or term; otherwise stores the repayments, the baseline interest, the actual run's figures and the months saved, meeting what `Plan` states |

## Left out

- The DOM, charts, form handling, local storage and every other part of `script.js` outside the engine and its two helpers. `expandIntervention` is modelled, but the engine takes the intervention list already expanded.
- IEEE double arithmetic: amounts and rates are exact reals. The only exception is the zero-property-value ratio, which keeps its `Infinity`/`NaN` values. Rounding `x * 100` to a whole number is modelled exactly, not on the binary value.
- Time zones and time of day: dates are calendar days. JavaScript's roll-over of a missing day (31 January plus one month) is modelled; daylight-saving shifts are not.
- Frequency strings: the frequency is an enumeration of monthly, fortnightly and weekly. The source lower-cases the string when counting periods but compares it case-sensitively when dating periods; other spellings are not modelled.
- Note texts and currency formatting: ledger notes are a datatype carrying the amounts and kinds, not formatted strings.
- `new Date()`: every call (the loan start at script.js:66 and 173, and the months-saved start at script.js:139) reads one `today` parameter.
- Repayment.CalculateRepayment: when (1 + i)^n = 1 at a non-zero rate (only a period rate of −2 with an even period count), the source divides by zero. The model returns 0 there.
- Simulation.Simulate: the total interest is always the reference run's total, but it is proved equal to the rows' interest sum only when the offset, redraw and intervention values are non-negative. Otherwise the source, and the model, also add the interest of the period that stops the run, which has no row.
- Simulation.NeutralityIndex: the neutrality index is proved to be at or after the first neutral row, not equal to it.
- Loan.NetFixedPortion: the fixed portion's share of the balance is written as min(ratio, 1) rather than as the source's quotient. The two agree for every positive balance (Loan.FixedShare), and the balance reaching the formula is never negative.
- Loan.SplitInterest: a split period opening at a zero balance uses the corrected zero share instead of the source's 0/0 (see Findings).
- Engine.MonthsSaved: the engine stores the corrected months saved, measured to the payoff date taken from the run, not the as-written value (see Findings). The stored `loanEndDate` is still the source's.

## Findings

| source | as written | input that shows it | evidently intended | confidence | as-written member | corrected member |
|---|---|---|---|---|---|---|
| script.js:307-316 | split interest divides by the balance (`sPortion / currentBalance`) before the zero-balance stop, and the result is added to the total | a split period (not fixed, not IO) whose opening balance is 0 after a lump sum: 0/0 is NaN, and the total interest becomes NaN | a zero balance accrues no interest and leaves the total unchanged | not executed | Loan.SplitZeroBalancePoisonsTotal | Loan.ZeroBalanceAccruesNothing |
| script.js:138-140 | months saved uses `monthsBetween(start, loanEndDate)`, which is 0 when `loanEndDate` is null | a repayment override too small to pay the loan off within 60 years: `loanEndDate` stays null, and the whole term is reported as saved | a loan that is never paid off saves no months | not executed | Engine.NeverPaidOffSavesWholeTerm | Engine.MonthsSaved |
| script.js:326-327 | a lump sum that clears the loan when a period opens stops the loop at line 326, before line 327 can record the payoff date, so months saved sees a null date | a 300-month loan cleared by a lump sum in its 24th month: the whole term (300 months) is reported as saved | the term minus the months to the period the lump sum cleared the loan (276) | not executed | Engine.LumpSumClearanceMisreported | Engine.PayoffDateOfRun |
