/**
 * The engine object: its inputs, the figures `calculate` stores on it, and
 * `calculate` itself, which resolves the opening repayment and runs the
 * baseline and actual simulations.
 */
module Engine {
  import opened Wrappers
  import opened Calendar
  import opened Repayment
  import opened Loan
  import opened Ledger
  import opened Simulation

  /** `loanStartDate || new Date()`: the loan start, or today when none is set. */
  function LoanStart(c: LoanConfig, today: Date): Date {
    c.loanStartDate.GetOr(today)
  }

  /** `repaymentStartDate || loanStart`. */
  function RepayStart(c: LoanConfig, today: Date): Date {
    c.repaymentStartDate.GetOr(LoanStart(c, today))
  }

  /**
   * The rate the opening repayment is computed at. A configured
   * interest-only overlay is consulted first and, when it exists, the fixed
   * overlay is not consulted at all; otherwise a fixed overlay covering the
   * repayment start supplies the fixed rate.
   */
  function StartRate(c: LoanConfig, repayStart: Date): (r: real)
    ensures IOWindow(c).Some? && InWindow(IOWindow(c), repayStart) ==> r == c.io.rate
    ensures IOWindow(c).Some? && !InWindow(IOWindow(c), repayStart) ==> r == c.rate
    ensures IOWindow(c).None? && InWindow(FixedWindow(c), repayStart) ==> r == c.fixed.rate
    ensures IOWindow(c).None? && !InWindow(FixedWindow(c), repayStart) ==> r == c.rate
  {
    if IOWindow(c).Some? then
      (if InWindow(IOWindow(c), repayStart) then c.io.rate else c.rate)
    else if InWindow(FixedWindow(c), repayStart) then c.fixed.rate
    else c.rate
  }

  /** The opening repayment starts interest-only when the overlay is on and dated no later than the repayment start. */
  predicate StartsInterestOnly(c: LoanConfig, repayStart: Date) {
    c.io.enabled && c.io.startDate.Some? && AtOrBefore(c.io.startDate.value, repayStart)
  }

  /**
   * The opening repayment, to the cent: one period's interest on the
   * principal when it starts interest-only, otherwise the annuity that
   * clears the principal over the contract term.
   */
  function InitialRepayment(c: LoanConfig, repayStart: Date, startRate: real): (r: real)
    ensures (r * 100.0).Floor as real == r * 100.0
    ensures StartsInterestOnly(c, repayStart) ==>
              var interest := c.principal * (startRate / 100.0) / PeriodsPerYear(c.freq) as real;
              interest - 0.005 < r <= interest + 0.005
    ensures !StartsInterestOnly(c, repayStart) ==>
              var annuity := CalculateRepayment(c.principal, startRate, ContractPeriods(c.termMonths, c.freq), PeriodsPerYear(c.freq));
              annuity - 0.005 < r <= annuity + 0.005
  {
    CentRound(OpeningTarget(c, repayStart, startRate))
  }

  /** The opening repayment before rounding to the cent. */
  function OpeningTarget(c: LoanConfig, repayStart: Date, startRate: real): (t: real)
    ensures StartsInterestOnly(c, repayStart) ==>
              t == c.principal * (startRate / 100.0) / PeriodsPerYear(c.freq) as real
    ensures !StartsInterestOnly(c, repayStart) ==>
              t == CalculateRepayment(c.principal, startRate, ContractPeriods(c.termMonths, c.freq), PeriodsPerYear(c.freq))
  {
    var ppy := PeriodsPerYear(c.freq);
    if StartsInterestOnly(c, repayStart) then c.principal * (startRate / 100.0) / ppy as real
    else CalculateRepayment(c.principal, startRate, ContractPeriods(c.termMonths, c.freq), ppy)
  }

  /** Before rounding, the amortised opening repayment pays the principal off over exactly the contract term. */
  lemma InitialRepaymentClearsLoan(c: LoanConfig, startRate: real)
    requires c.principal > 0.0 && ContractPeriods(c.termMonths, c.freq) > 0
    requires startRate == 0.0 || Pow(1.0 + PeriodRate(startRate, PeriodsPerYear(c.freq)), ContractPeriods(c.termMonths, c.freq)) != 1.0
    ensures var ppy, n := PeriodsPerYear(c.freq), ContractPeriods(c.termMonths, c.freq);
      Amortize(c.principal, PeriodRate(startRate, ppy), CalculateRepayment(c.principal, startRate, n, ppy), n) == 0.0
  {
    RepaymentClearsLoan(c.principal, startRate, ContractPeriods(c.termMonths, c.freq), PeriodsPerYear(c.freq));
  }

  /** The split's fixed and variable portions of the principal. */
  function SplitPortions(c: LoanConfig): (r: (real, real))
    ensures r.0 + r.1 == c.principal
    ensures c.split.splitType == Value ==> r.0 == c.split.value
    ensures c.split.splitType == Percent ==> r.0 == c.principal * (c.split.percent / 100.0)
  {
    var fixedAmount := if c.split.splitType == Percent then c.principal * (c.split.percent / 100.0) else c.split.value;
    (fixedAmount, c.principal - fixedAmount)
  }

  /**
   * The split repayments, computed when the split is on and lasts at least
   * a year: each portion's annuity over the contract term, to the cent, at
   * the split rate and the variable rate; all zero otherwise.
   */
  function SplitRepayments(c: LoanConfig): (r: SplitPayments)
    ensures r.total == r.fixed + r.variable
    ensures (r.fixed * 100.0).Floor as real == r.fixed * 100.0
    ensures (r.variable * 100.0).Floor as real == r.variable * 100.0
    ensures !(c.split.enabled && c.split.durationYears > 0) ==> r == SplitPayments(0.0, 0.0, 0.0)
    ensures c.split.enabled && c.split.durationYears > 0 ==>
              var ppy, n := PeriodsPerYear(c.freq), ContractPeriods(c.termMonths, c.freq);
              var fixedPay := CalculateRepayment(SplitPortions(c).0, c.split.rate, n, ppy);
              var variablePay := CalculateRepayment(SplitPortions(c).1, c.rate, n, ppy);
              && fixedPay - 0.005 < r.fixed <= fixedPay + 0.005
              && variablePay - 0.005 < r.variable <= variablePay + 0.005
  {
    if c.split.enabled && c.split.durationYears > 0 then
      var ppy, n := PeriodsPerYear(c.freq), ContractPeriods(c.termMonths, c.freq);
      var portions := SplitPortions(c);
      var fixedPay := CentRound(CalculateRepayment(portions.0, c.split.rate, n, ppy));
      var variablePay := CentRound(CalculateRepayment(portions.1, c.rate, n, ppy));
      SplitPayments(fixedPay, variablePay, fixedPay + variablePay)
    else SplitPayments(0.0, 0.0, 0.0)
  }

  /** A split that is on and dated no later than the loan start. */
  predicate SplitFromStart(c: LoanConfig, loanStart: Date) {
    c.split.enabled && c.split.startDate.Some? && AtOrBefore(c.split.startDate.value, loanStart)
  }

  /**
   * The repayment both simulations start from: a non-zero override wins;
   * otherwise the split total when a split is dated no later than the loan
   * start; otherwise the opening repayment.
   */
  function ActualRepayment(c: LoanConfig, loanStart: Date, initial: real, split: SplitPayments): (r: real)
    ensures OverrideActive(c) ==> r == c.repaymentOverride.value
    ensures !OverrideActive(c) && SplitFromStart(c, loanStart) ==> r == split.total
    ensures !OverrideActive(c) && !SplitFromStart(c, loanStart) ==> r == initial
    ensures !OverrideActive(c) && !c.split.enabled ==> r == initial
  {
    if OverrideActive(c) then c.repaymentOverride.value
    else if c.split.enabled && c.split.startDate.Some? && AtOrBefore(c.split.startDate.value, loanStart) then split.total
    else initial
  }

  /** `monthsSaved` as the engine computes it: with no payoff date the months between count as zero. */
  function MonthsSavedAsWritten(termMonths: int, rows: nat, loanStart: Date, loanEndDate: Option<Date>): (r: int)
    ensures r >= 0
    ensures rows > 0 && loanEndDate.None? ==> r == if termMonths > 0 then termMonths else 0
  {
    var actualEndMonths := if rows > 0 then MonthsBetween(Some(loanStart), loanEndDate) else termMonths;
    if termMonths - actualEndMonths > 0 then termMonths - actualEndMonths else 0
  }

  /** A run that never pays the loan off is reported as saving the whole term. */
  lemma NeverPaidOffSavesWholeTerm(termMonths: int, rows: nat, loanStart: Date)
    requires termMonths > 0 && rows > 0
    ensures MonthsSavedAsWritten(termMonths, rows, loanStart, None) == termMonths
    ensures MonthsSaved(termMonths, loanStart, None) == 0
  {
  }

  /**
   * A 300-month loan from January 2024 that a lump sum clears at the opening
   * of the January 2026 period: the loop stops before any row pays it off, so
   * the payoff date stays unset and the as-written figure is the whole term,
   * where 276 months were saved.
   */
  lemma LumpSumClearanceMisreported()
    ensures MonthsSavedAsWritten(300, 24, CalDate(2024, 0, 1), None) == 300
    ensures MonthsSaved(300, CalDate(2024, 0, 1), Some(CalDate(2026, 0, 1))) == 276
  {
  }

  /**
   * When the loan was paid off: the date of the last row if that row paid
   * it off, else the date of the period the loop stopped at because a lump
   * sum had cleared it, else never (the horizon was reached).
   */
  function PayoffDate(env: SimEnv, h: seq<LedgerEntry>): Option<Date> {
    if |h| > 0 && PaidOff(h[|h| - 1]) then Some(h[|h| - 1].date)
    else if |h| < SimulationPeriods(env.cfg.freq) then Some(PeriodDate(env.cfg.freq, env.repayStart, |h| + 1))
    else None
  }

  /**
   * The payoff date of a run is a date at which nothing is owing: the
   * closing of a row that paid the loan off, or the opening of the period
   * the run stopped at; it is unset exactly when the run reached the horizon
   * with the loan still owing.
   */
  lemma PayoffDateOfRun(env: SimEnv, run: RunInputs)
    ensures var h := Run(env, run).history;
      PayoffDate(env, h).None? <==> |h| == SimulationPeriods(env.cfg.freq) && !(|h| > 0 && PaidOff(h[|h| - 1]))
    ensures var t := Run(env, run); var h := t.history; var d := PayoffDate(env, h);
      d.Some? ==>
        || (|h| > 0 && PaidOff(h[|h| - 1]) && h[|h| - 1].balance == 0.0 && d.value == h[|h| - 1].date)
        || (Open(env, run, |h| + 1, t.last).balance <= 0.0 && d.value == PeriodDate(env.cfg.freq, env.repayStart, |h| + 1))
  {
    RunEnds(env, run, [], Start(env, run), 0.0);
    RunFromGrows(env, run, [], Start(env, run), 0.0);
  }

  /**
   * `monthsSaved`, with the payoff date taken from the run: how many months
   * sooner than the contract term the loan was paid off; none when it was
   * never paid off.
   */
  function MonthsSaved(termMonths: int, loanStart: Date, payoff: Option<Date>): (r: int)
    ensures r >= 0
    ensures payoff.None? ==> r == 0
    ensures payoff.Some? ==>
              r == if termMonths > MonthIndex(payoff.value) - MonthIndex(loanStart)
                   then termMonths - (MonthIndex(payoff.value) - MonthIndex(loanStart)) else 0
  {
    var actualEndMonths := if payoff.Some? then MonthsBetween(Some(loanStart), payoff) else termMonths;
    if termMonths - actualEndMonths > 0 then termMonths - actualEndMonths else 0
  }

  /** What a simulation of configuration `c` reads from the engine. */
  function Env(c: LoanConfig, today: Date, split: SplitPayments): SimEnv {
    SimEnv(c, LoanStart(c, today), RepayStart(c, today), split)
  }

  /** The actual run: the configured facilities, annual fee and interventions. */
  function ActualRun(c: LoanConfig, actual: real): RunInputs {
    RunInputs(c.principal, c.rate, actual, c.offset, c.redraw, c.fees, c.interventions)
  }

  /**
   * The baseline run: the actual run's loan and repayment with no offset,
   * no redraw, no fee and no interventions; so its facilities are never
   * negative and its interest total is exact.
   */
  function BaselineRun(c: LoanConfig, actual: real): (r: RunInputs)
    ensures r == ActualRun(c, actual).(offset := 0.0, redraw := 0.0, annualFee := 0.0, interventions := [])
    ensures NonNegativeFacilities(r)
  {
    RunInputs(c.principal, c.rate, actual, 0.0, 0.0, 0.0, [])
  }

  /**
   * What `calculate` stores for configuration `c`: the opening repayment,
   * the split repayments, the interest total of a baseline run, the actual
   * run's figures and the months saved. Both runs start from the same
   * actual repayment and read the same split repayments.
   */
  ghost predicate CalculatedOk(c: LoanConfig, today: Date, periodic: real, sp: SplitPayments,
                         baselineInterest: real, result: SimResult, saved: int) {
    var repayStart := RepayStart(c, today);
    var actual := ActualRepayment(c, LoanStart(c, today), periodic, sp);
    && periodic == InitialRepayment(c, repayStart, StartRate(c, repayStart))
    && sp == SplitRepayments(c)
    && (exists base :: SimulationOk(Env(c, today, sp), BaselineRun(c, actual), base)
                       && baselineInterest == base.totalInterest)
    && SimulationOk(Env(c, today, sp), ActualRun(c, actual), result)
    && saved == MonthsSaved(c.termMonths, LoanStart(c, today), PayoffDate(Env(c, today, sp), result.history))
  }

  /** The computations of `calculate` once the principal and term are known to be positive. */
  method Plan(c: LoanConfig, today: Date)
    returns (periodic: real, sp: SplitPayments, baselineInterest: real, result: SimResult, saved: int)
    ensures CalculatedOk(c, today, periodic, sp, baselineInterest, result, saved)
  {
    var loanStart := LoanStart(c, today);
    var repayStart := RepayStart(c, today);
    var startRate := StartRate(c, repayStart);
    periodic := InitialRepayment(c, repayStart, startRate);
    sp := SplitRepayments(c);
    var actual := ActualRepayment(c, loanStart, periodic, sp);
    var env := Env(c, today, sp);

    var baseline := RunSimulation(env, BaselineRun(c, actual));
    baselineInterest := baseline.totalInterest;
    result := RunSimulation(env, ActualRun(c, actual));
    saved := MonthsSaved(c.termMonths, loanStart, PayoffDate(env, result.history));
  }

  class MortgageEngine {
    var config: LoanConfig

    var periodicRepayment: real
    var split: SplitPayments
    var history: seq<LedgerEntry>
    var propertyHistory: seq<PropertyPoint>
    var totalInterest: real
    var baselineInterest: real
    var monthsSaved: int
    var neutralityDate: Option<Date>
    var neutralityIndex: int
    var loanEndDate: Option<Date>
    var milestones: Milestones
    var fixedRateEnd: Option<Marker>
    var splitRateEnd: Option<Marker>
    var ioRateEnd: Option<Marker>

    /** The figures of the last simulation, as a simulation result. */
    function Result(): SimResult
      reads this
    {
      SimResult(history, propertyHistory, totalInterest, neutralityDate, neutralityIndex, loanEndDate,
                milestones, fixedRateEnd, splitRateEnd, ioRateEnd)
    }

    constructor(c: LoanConfig)
      ensures config == c
      ensures periodicRepayment == 0.0 && split == SplitPayments(0.0, 0.0, 0.0)
      ensures history == [] && propertyHistory == []
      ensures totalInterest == 0.0 && baselineInterest == 0.0 && monthsSaved == 0
      ensures neutralityDate == None && loanEndDate == None && neutralityIndex == -1
      ensures milestones == Milestones(None, None, None, None)
      ensures fixedRateEnd == None && splitRateEnd == None && ioRateEnd == None
    {
      config := c;
      periodicRepayment := 0.0;
      split := SplitPayments(0.0, 0.0, 0.0);
      history, propertyHistory := [], [];
      totalInterest, baselineInterest, monthsSaved := 0.0, 0.0, 0;
      neutralityDate, loanEndDate, neutralityIndex := None, None, -1;
      milestones := Milestones(None, None, None, None);
      fixedRateEnd, splitRateEnd, ioRateEnd := None, None, None;
    }

    /** Stores the actual simulation's ledger, interest total and payoff date, leaving the rest as they were. */
    method StoreLedger(result: SimResult)
      modifies this
      ensures history == result.history && propertyHistory == result.propertyHistory
      ensures totalInterest == result.totalInterest && loanEndDate == result.loanEndDate
      ensures config == old(config) && periodicRepayment == old(periodicRepayment) && split == old(split)
      ensures baselineInterest == old(baselineInterest) && monthsSaved == old(monthsSaved)
      ensures neutralityDate == old(neutralityDate) && neutralityIndex == old(neutralityIndex)
      ensures milestones == old(milestones)
      ensures fixedRateEnd == old(fixedRateEnd) && splitRateEnd == old(splitRateEnd) && ioRateEnd == old(ioRateEnd)
    {
      history, propertyHistory, totalInterest, loanEndDate
        := result.history, result.propertyHistory, result.totalInterest, result.loanEndDate;
    }

    /** Stores the actual simulation's neutrality, milestones and overlay-end markers, leaving the rest as they were. */
    method StoreMarkers(result: SimResult)
      modifies this
      ensures neutralityDate == result.neutralityDate && neutralityIndex == result.neutralityIndex
      ensures milestones == result.milestones
      ensures fixedRateEnd == result.fixedRateEnd && splitRateEnd == result.splitRateEnd && ioRateEnd == result.ioRateEnd
      ensures config == old(config) && periodicRepayment == old(periodicRepayment) && split == old(split)
      ensures baselineInterest == old(baselineInterest) && monthsSaved == old(monthsSaved)
      ensures history == old(history) && propertyHistory == old(propertyHistory)
      ensures totalInterest == old(totalInterest) && loanEndDate == old(loanEndDate)
    {
      neutralityDate, neutralityIndex, milestones, fixedRateEnd, splitRateEnd, ioRateEnd
        := result.neutralityDate, result.neutralityIndex, result.milestones,
           result.fixedRateEnd, result.splitRateEnd, result.ioRateEnd;
    }

    /** Stores the repayments, the baseline interest and the months saved, leaving the rest as they were. */
    method StoreFigures(periodic: real, sp: SplitPayments, baseInterest: real, saved: int)
      modifies this
      ensures periodicRepayment == periodic && split == sp && baselineInterest == baseInterest && monthsSaved == saved
      ensures config == old(config) && Result() == old(Result())
    {
      periodicRepayment, split, baselineInterest, monthsSaved := periodic, sp, baseInterest, saved;
    }

    /**
     * `calculate`: nothing happens unless the principal and the term are
     * positive. Otherwise it stores the opening repayment and the split
     * repayments, runs the baseline (keeping only its interest total) and
     * the actual simulation from the same starting repayment, stores the
     * actual simulation's figures, and derives the months saved.
     */
    method Calculate(today: Date)
      modifies this
      ensures config == old(config)
      ensures config.principal <= 0.0 || config.termMonths <= 0 ==> unchanged(this)
      ensures config.principal > 0.0 && config.termMonths > 0 ==>
                CalculatedOk(config, today, periodicRepayment, split, baselineInterest, Result(), monthsSaved)
    {
      var c := config;
      if c.principal <= 0.0 || c.termMonths <= 0 {
        return;
      }
      var periodic, sp, baseInterest, result, saved := Plan(c, today);
      StoreLedger(result);
      StoreMarkers(result);
      StoreFigures(periodic, sp, baseInterest, saved);
    }
  }
}
