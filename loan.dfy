/**
 * The configuration the mortgage engine is given, the rate regimes it
 * recognises, and the per-period quantities that do not depend on the
 * running state: the period calendar, the regime windows and their
 * precedence, and the interest accrued on a period.
 */
module Loan {
  import opened Wrappers
  import opened Calendar
  import opened Repayment

  datatype Frequency = Monthly | Fortnightly | Weekly

  /** `getPeriodsPerYear`. */
  function PeriodsPerYear(f: Frequency): (r: int)
    ensures r > 0
    ensures r as real * DaysPerPeriod(f) == if f == Monthly then 365.25 else 364.0
  {
    match f
    case Weekly => 52
    case Fortnightly => 26
    case Monthly => 12
  }

  /** `getDaysPerPeriod`: whole days for the weekly kinds, the average month otherwise. */
  function DaysPerPeriod(f: Frequency): real {
    match f
    case Weekly => 7.0
    case Fortnightly => 14.0
    case Monthly => 30.4375
  }

  /** The whole number of days a weekly or fortnightly period spans. */
  function StepDays(f: Frequency): (r: nat)
    ensures f != Monthly ==> r as real == DaysPerPeriod(f)
  {
    match f
    case Weekly => 7
    case Fortnightly => 14
    case Monthly => 30
  }

  /** `ceil(termMonths / 12 * ppy)`: the contracted number of periods. */
  function ContractPeriods(termMonths: int, f: Frequency): int {
    Ceil(termMonths as real / 12.0 * PeriodsPerYear(f) as real)
  }

  /** `round(ppy * 60)`: the 60-year cap on the number of simulated periods. */
  function SimulationPeriods(f: Frequency): nat {
    60 * PeriodsPerYear(f)
  }

  datatype InterventionKind = LumpSum | RateChange | OffsetAdd | RedrawAdd

  datatype Recurrence = Once | WeeklyRecurrence | FortnightlyRecurrence | MonthlyRecurrence | YearlyRecurrence | Unrecognised

  datatype Intervention = Intervention(kind: InterventionKind, date: Date, value: real, recurrence: Recurrence)

  /** The notes the ledger attaches to a period (the source formats them as text). */
  datatype Note =
    | FixedStarted | RevertedToVariable
    | InterestOnlyStarted | InterestOnlyEnded
    | SplitStarted | SplitEnded
    | Fee(amount: real) | Lump(amount: real) | RateTo(rate: real)

  /** A fixed-rate or interest-only overlay: its switch, rate, length and first day. */
  datatype Overlay = Overlay(enabled: bool, rate: real, durationYears: int, startDate: Option<Date>)

  datatype SplitType = Percent | Value

  datatype SplitOverlay = SplitOverlay(
    enabled: bool, splitType: SplitType, percent: real, value: real,
    rate: real, durationYears: int, startDate: Option<Date>)

  /** The inputs the engine holds before `calculate` runs. */
  datatype LoanConfig = LoanConfig(
    principal: real,
    fees: real,
    rate: real,
    termMonths: int,
    freq: Frequency,
    offset: real,
    redraw: real,
    loanStartDate: Option<Date>,
    repaymentStartDate: Option<Date>,
    fixed: Overlay,
    split: SplitOverlay,
    io: Overlay,
    repaymentOverride: Option<real>,
    interventions: seq<Intervention>,
    propertyValue: real,
    growthRate: real)

  /** `!this.repaymentOverride` is false: an override is set and is not zero. */
  predicate OverrideActive(c: LoanConfig) {
    c.repaymentOverride.Some? && c.repaymentOverride.value != 0.0
  }

  /** The half-open date range [start, end) in which an overlay applies. */
  datatype Window = Window(start: Date, end: Date)

  /** The window of an overlay; none unless it is enabled, dated and lasts at least a year. */
  function OverlayWindow(enabled: bool, start: Option<Date>, years: int): (w: Option<Window>)
    ensures w.Some? <==> enabled && start.Some? && years > 0
    ensures w.Some? ==> w.value.start == start.value && Before(w.value.start, w.value.end)
    ensures w.Some? ==> years > 0 && w.value.end == AddYears(start.value, years)
  {
    if enabled && start.Some? && years > 0 then
      AddYearsAdvances(start.value, years);
      Some(Window(start.value, AddYears(start.value, years)))
    else None
  }

  function FixedWindow(c: LoanConfig): Option<Window> {
    OverlayWindow(c.fixed.enabled, c.fixed.startDate, c.fixed.durationYears)
  }

  function IOWindow(c: LoanConfig): Option<Window> {
    OverlayWindow(c.io.enabled, c.io.startDate, c.io.durationYears)
  }

  function SplitWindow(c: LoanConfig): Option<Window> {
    OverlayWindow(c.split.enabled, c.split.startDate, c.split.durationYears)
  }

  predicate InWindow(w: Option<Window>, d: Date) {
    w.Some? && AtOrBefore(w.value.start, d) && Before(d, w.value.end)
  }

  /** Which overlays a period is inside. */
  datatype RegimeFlags = RegimeFlags(fixed: bool, split: bool, io: bool)

  /**
   * The window evaluation of one period: interest-only is tested first and
   * split only when interest-only does not apply; fixed is tested on its own.
   */
  function Regime(c: LoanConfig, d: Date): (f: RegimeFlags)
    ensures f.io <==> InWindow(IOWindow(c), d)
    ensures f.split <==> InWindow(SplitWindow(c), d) && !InWindow(IOWindow(c), d)
    ensures f.fixed <==> InWindow(FixedWindow(c), d)
    ensures !(f.split && f.io)
  {
    var io := InWindow(IOWindow(c), d);
    RegimeFlags(InWindow(FixedWindow(c), d), !io && InWindow(SplitWindow(c), d), io)
  }

  /** The rate a period is charged: the fixed rate overrides last, then the IO rate, else the variable rate. */
  function EffectiveRate(c: LoanConfig, f: RegimeFlags, variableRate: real): (r: real)
    ensures f.fixed ==> r == c.fixed.rate
    ensures !f.fixed && f.io ==> r == c.io.rate
    ensures !f.fixed && !f.io ==> r == variableRate
  {
    var r := if f.io then c.io.rate else variableRate;
    if f.fixed then c.fixed.rate else r
  }

  /** The date of period `p` (1-based), counted from the first repayment. */
  function PeriodDate(f: Frequency, repayStart: Date, p: nat): Date
    requires p >= 1
  {
    if f == Monthly then AddMonths(repayStart, p - 1)
    else AddDays(repayStart, (p - 1) * StepDays(f))
  }

  /** Whether an event dated `e` falls in the period starting on `d`. */
  predicate InPeriod(f: Frequency, e: Date, d: Date) {
    if f == Monthly then e.year == d.year && e.month == d.month
    else AtOrBefore(d, e) && Before(e, AddDays(d, StepDays(f)))
  }

  function Max(a: real, b: real): real { if a >= b then a else b }
  function Min(a: real, b: real): real { if a <= b then a else b }

  /** The fixed-rate share of the original principal (`initialSplitRatio`). */
  function SplitRatio(c: LoanConfig, splitAmount: real): real {
    splitAmount / Max(1.0, c.principal)
  }

  /**
   * Interest for one period. The interest-bearing principal is the balance
   * less the offset and redraw facilities, floored at zero. In a split
   * period the balance is divided by `ratio` into a fixed part charged
   * `splitRate` and a variable part charged `variableRate`; otherwise all of
   * it is charged `rate`.
   */
  function PeriodInterest(balance: real, facilities: real, splitActive: bool, ratio: real,
                          splitRate: real, variableRate: real, rate: real, ppy: int): real
    requires ppy > 0
  {
    if splitActive then
      SplitInterest(balance, facilities, ratio, PeriodRate(splitRate, ppy), PeriodRate(variableRate, ppy))
    else
      Max(0.0, balance - facilities) * PeriodRate(rate, ppy)
  }

  /**
   * Split-period interest at per-period rates `rs` (fixed part) and `rv`
   * (variable part); each part is net of a pro-rata share of the facilities.
   */
  function SplitInterest(balance: real, facilities: real, ratio: real, rs: real, rv: real): real {
    var effS := NetFixedPortion(balance, facilities, ratio);
    var effV := Max(0.0, Max(0.0, balance - facilities) - effS);
    effS * rs + effV * rv
  }

  /**
   * The fixed portion of the balance, net of its pro-rata share of the
   * facilities. The source's share is the fixed portion divided by the
   * balance; for a positive balance that quotient is min(ratio, 1)
   * (`FixedShare`), and the balance reaching here is never negative. At a
   * zero balance the source's 0/0 is taken as a zero share.
   */
  function NetFixedPortion(balance: real, facilities: real, ratio: real): real {
    var s := Min(balance * ratio, balance);
    var share := if balance == 0.0 then 0.0 else Min(ratio, 1.0);
    Max(0.0, s - facilities * share)
  }

  /**
   * The split-period interest as the source computes it on doubles, where
   * `s / balance` at a zero balance is NaN and NaN survives `Math.max`:
   * `None` stands for NaN.
   */
  function SplitInterestAsWritten(balance: real, facilities: real, ratio: real, rs: real, rv: real): (r: Option<real>)
    ensures balance != 0.0 ==> r == Some(SplitInterest(balance, facilities, ratio, rs, rv))
  {
    if balance == 0.0 then None
    else Some(SplitInterest(balance, facilities, ratio, rs, rv))
  }

  /** `totalInterest += interest` on doubles: NaN absorbs the running total. */
  function AccrueAsWritten(total: real, interest: Option<real>): Option<real> {
    if interest.None? then None else Some(total + interest.value)
  }

  /**
   * As written, a period of a split window that opens with a zero balance
   * (a lump sum or an earlier payoff cleared the loan) accrues NaN interest,
   * and that NaN becomes the run's total interest.
   */
  lemma SplitZeroBalancePoisonsTotal(total: real, facilities: real, ratio: real, rs: real, rv: real)
    ensures SplitInterestAsWritten(0.0, facilities, ratio, rs, rv).None?
    ensures AccrueAsWritten(total, SplitInterestAsWritten(0.0, facilities, ratio, rs, rv)).None?
  {
  }

  /**
   * Corrected: a period that opens with a zero balance accrues no interest
   * under either branch, so the total is unchanged by the period that ends
   * the run.
   */
  lemma ZeroBalanceAccruesNothing(facilities: real, splitActive: bool, ratio: real,
                                  splitRate: real, variableRate: real, rate: real, ppy: int)
    requires ppy > 0 && facilities >= 0.0
    ensures PeriodInterest(0.0, facilities, splitActive, ratio, splitRate, variableRate, rate, ppy) == 0.0
  {
  }

  /** With non-negative rates, a period never accrues negative interest. */
  lemma InterestNonNegative(balance: real, facilities: real, splitActive: bool, ratio: real,
                            splitRate: real, variableRate: real, rate: real, ppy: int)
    requires ppy > 0 && splitRate >= 0.0 && variableRate >= 0.0 && rate >= 0.0
    ensures PeriodInterest(balance, facilities, splitActive, ratio, splitRate, variableRate, rate, ppy) >= 0.0
  {
    PeriodRateSign(splitRate, ppy);
    PeriodRateSign(variableRate, ppy);
    PeriodRateSign(rate, ppy);
  }

  /**
   * In a split period with a positive balance and a non-negative ratio the
   * interest is the interest-bearing principal times a blend of the two
   * rates, weighted by the fixed share min(ratio, 1).
   */
  lemma SplitInterestBlended(balance: real, facilities: real, ratio: real, rs: real, rv: real)
    requires balance > 0.0 && ratio >= 0.0
    ensures SplitInterest(balance, facilities, ratio, rs, rv) == Max(0.0, balance - facilities) * Blend(ratio, rs, rv)
  {
    var w := Min(ratio, 1.0);
    var e := Max(0.0, balance - facilities);
    SplitParts(balance, facilities, ratio, rs, rv, w, e);
    BlendSum(e, w, rs, rv);
  }

  /** The per-period rate of a split period: the two rates weighted by the fixed share min(ratio, 1). */
  function Blend(ratio: real, rs: real, rv: real): real {
    var w := Min(ratio, 1.0);
    w * rs + (1.0 - w) * rv
  }

  /** The net fixed and variable parts of a split period with a positive balance. */
  lemma SplitParts(balance: real, facilities: real, ratio: real, rs: real, rv: real, w: real, e: real)
    requires balance > 0.0 && ratio >= 0.0
    requires w == Min(ratio, 1.0) && e == Max(0.0, balance - facilities)
    ensures SplitInterest(balance, facilities, ratio, rs, rv) == (w * e) * rs + ((1.0 - w) * e) * rv
  {
    NetFixedShare(balance, facilities, ratio, w, e);
    NetShares(w, balance, facilities);
    TwoParts(NetFixedPortion(balance, facilities, ratio), e, w, rs, rv);
  }

  /** Charging a fixed part w·e and the variable remainder of e. */
  lemma TwoParts(n: real, e: real, w: real, rs: real, rv: real)
    requires n == w * e && Max(0.0, e - w * e) == (1.0 - w) * e
    ensures n * rs + Max(0.0, e - n) * rv == (w * e) * rs + ((1.0 - w) * e) * rv
  {
  }

  /** The net fixed portion is the share min(ratio, 1) of the interest-bearing principal. */
  lemma NetFixedShare(balance: real, facilities: real, ratio: real, w: real, e: real)
    requires balance > 0.0 && ratio >= 0.0
    requires w == Min(ratio, 1.0) && e == Max(0.0, balance - facilities)
    ensures NetFixedPortion(balance, facilities, ratio) == w * e
  {
    FixedShare(balance, ratio);
    NetShares(w, balance, facilities);
    assert Min(balance * ratio, balance) - facilities * w == balance * w - facilities * w;
  }

  /** The fixed part of a positive balance is the balance times min(ratio, 1), so its share of the balance is min(ratio, 1). */
  lemma FixedShare(balance: real, ratio: real)
    requires balance > 0.0
    ensures Min(balance * ratio, balance) == balance * Min(ratio, 1.0)
    ensures Min(balance * ratio, balance) / balance == Min(ratio, 1.0)
  {
    if ratio <= 1.0 {
      assert balance * ratio <= balance * 1.0;
    } else {
      assert balance * ratio > balance * 1.0;
    }
  }

  /** Netting a share w in [0, 1] of the facilities off the fixed part. */
  lemma NetShares(w: real, balance: real, facilities: real)
    requires 0.0 <= w <= 1.0
    ensures Max(0.0, balance * w - facilities * w) == w * Max(0.0, balance - facilities)
    ensures Max(0.0, Max(0.0, balance - facilities) - w * Max(0.0, balance - facilities))
            == (1.0 - w) * Max(0.0, balance - facilities)
  {
    var d := balance - facilities;
    assert balance * w - facilities * w == w * d;
    if d >= 0.0 {
      assert w * d >= 0.0;
    } else {
      assert w * d <= 0.0;
    }
    var e := Max(0.0, d);
    assert e - w * e == (1.0 - w) * e;
    assert (1.0 - w) * e >= 0.0;
  }

  lemma BlendSum(e: real, w: real, rs: real, rv: real)
    ensures (w * e) * rs + ((1.0 - w) * e) * rv == e * (w * rs + (1.0 - w) * rv)
  {
  }

  /**
   * More money in the offset and redraw facilities never raises a period's
   * interest (non-negative rates; in a split period a positive balance and a
   * non-negative split ratio).
   */
  lemma InterestMonotoneInFacilities(balance: real, f1: real, f2: real, splitActive: bool, ratio: real,
                                     splitRate: real, variableRate: real, rate: real, ppy: int)
    requires ppy > 0 && f1 <= f2
    requires splitRate >= 0.0 && variableRate >= 0.0 && rate >= 0.0
    requires splitActive ==> balance > 0.0 && ratio >= 0.0
    ensures PeriodInterest(balance, f2, splitActive, ratio, splitRate, variableRate, rate, ppy)
         <= PeriodInterest(balance, f1, splitActive, ratio, splitRate, variableRate, rate, ppy)
  {
    PeriodRateSign(splitRate, ppy);
    PeriodRateSign(variableRate, ppy);
    PeriodRateSign(rate, ppy);
    if splitActive {
      SplitInterestMonotone(balance, f1, f2, ratio, PeriodRate(splitRate, ppy), PeriodRate(variableRate, ppy));
    } else {
      MulMonotone(Max(0.0, balance - f2), Max(0.0, balance - f1), PeriodRate(rate, ppy));
    }
  }

  lemma SplitInterestMonotone(balance: real, f1: real, f2: real, ratio: real, rs: real, rv: real)
    requires f1 <= f2 && rs >= 0.0 && rv >= 0.0 && balance > 0.0 && ratio >= 0.0
    ensures SplitInterest(balance, f2, ratio, rs, rv) <= SplitInterest(balance, f1, ratio, rs, rv)
  {
    SplitInterestBlended(balance, f1, ratio, rs, rv);
    SplitInterestBlended(balance, f2, ratio, rs, rv);
    ChargeOrder(balance, f1, f2, ratio, rs, rv);
  }

  /** Charged at the blended rate, a larger interest-bearing principal costs more. */
  lemma ChargeOrder(balance: real, f1: real, f2: real, ratio: real, rs: real, rv: real)
    requires f1 <= f2 && rs >= 0.0 && rv >= 0.0 && ratio >= 0.0
    ensures Max(0.0, balance - f2) * Blend(ratio, rs, rv) <= Max(0.0, balance - f1) * Blend(ratio, rs, rv)
  {
    BlendNonNegative(Min(ratio, 1.0), rs, rv);
    MulMonotone(Max(0.0, balance - f2), Max(0.0, balance - f1), Blend(ratio, rs, rv));
  }

  lemma BlendNonNegative(w: real, rs: real, rv: real)
    requires 0.0 <= w <= 1.0 && rs >= 0.0 && rv >= 0.0
    ensures w * rs + (1.0 - w) * rv >= 0.0
  {
    assert w * rs >= 0.0;
    assert (1.0 - w) * rv >= 0.0;
  }

  lemma MulMonotone(x: real, y: real, k: real)
    requires x <= y && k >= 0.0
    ensures x * k <= y * k
  {
  }

  /** The loan-to-value ratio as a double holds it, division by zero included. */
  datatype Lvr = Finite(percent: real) | PosInfinity | NegInfinity | NaN

  /** `(balance / value) * 100`. */
  function ComputeLvr(balance: real, value: real): (l: Lvr)
    ensures value != 0.0 ==> l.Finite? && l.percent * value == balance * 100.0
  {
    if value != 0.0 then Finite(balance / value * 100.0)
    else if balance > 0.0 then PosInfinity
    else if balance < 0.0 then NegInfinity
    else NaN
  }

  /** `lvr <= t` on a double. */
  predicate AtMost(l: Lvr, t: real) {
    match l
    case Finite(v) => v <= t
    case NegInfinity => true
    case _ => false
  }

  /** `lvr > t` on a double. */
  predicate Above(l: Lvr, t: real) {
    match l
    case Finite(v) => v > t
    case PosInfinity => true
    case _ => false
  }

  /** The per-period property growth factor. */
  function GrowthFactor(c: LoanConfig): real {
    var monthly := c.growthRate / 100.0 / 12.0;
    if c.freq == Monthly then 1.0 + monthly
    else 1.0 + monthly * 12.0 / PeriodsPerYear(c.freq) as real
  }

  /** One period's growth of the property value. */
  function Grow(c: LoanConfig, value: real): real {
    value * GrowthFactor(c)
  }

  /** The property value after `k` periods of growth. */
  function ValueAfter(c: LoanConfig, k: nat): real {
    if k == 0 then c.propertyValue else Grow(c, ValueAfter(c, k - 1))
  }

  /** Compounding period by period is the closed form `value * factor^k`. */
  lemma {:induction false} ValueAfterClosedForm(c: LoanConfig, k: nat)
    ensures ValueAfter(c, k) == c.propertyValue * Pow(GrowthFactor(c), k)
  {
    if k > 0 {
      ValueAfterClosedForm(c, k - 1);
      CompoundStep(c.propertyValue, GrowthFactor(c), k - 1, ValueAfter(c, k - 1));
    }
  }

  lemma CompoundStep(v: real, g: real, k: nat, x: real)
    requires x == v * Pow(g, k)
    ensures x * g == v * Pow(g, k + 1)
  {
    var q := Pow(g, k);
    assert Pow(g, k + 1) == g * q;
    assert v * q * g == v * (g * q);
  }
}
