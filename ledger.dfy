/**
 * The ledger `runSimulation` produces: its rows, the summary it returns,
 * and the predicates that say what a well-formed ledger for a given loan
 * is. The simulation loop is proved to produce a ledger satisfying them.
 */
module Ledger {
  import opened Wrappers
  import opened Calendar
  import opened Repayment
  import opened Loan
  import opened Interventions

  /** One row of the ledger: the state after period `p`. */
  datatype LedgerEntry = LedgerEntry(
    p: int, date: Date, balance: real, interest: real, principal: real,
    offset: real, redraw: real, rate: real, repayment: real,
    isFixed: bool, isSplit: bool, isIO: bool, splitRate: Option<real>,
    variableRate: real, splitFixedRepay: real, splitVariableRepay: real,
    propertyValue: real, lvr: Lvr, equity: real,
    notes: seq<Note>, offsetNotes: seq<real>, redrawNotes: seq<real>)

  datatype PropertyPoint = PropertyPoint(p: int, date: Date, value: real, lvr: Lvr)

  /** The period at which the loan-to-value ratio first fell to a threshold. */
  datatype Milestone = Milestone(index: nat, date: Date, value: real, balance: real)

  datatype Milestones = Milestones(lvr90: Option<Milestone>, lvr80: Option<Milestone>,
                                   lvr50: Option<Milestone>, lvr25: Option<Milestone>)

  /** The first ledger row on or after an overlay's end date. */
  datatype Marker = Marker(index: nat, date: Date)

  /** The split repayments `calculate` stores on the engine before simulating. */
  datatype SplitPayments = SplitPayments(fixed: real, variable: real, total: real)

  /** What a simulation reads from the engine besides its arguments. */
  datatype SimEnv = SimEnv(cfg: LoanConfig, loanStart: Date, repayStart: Date, split: SplitPayments)

  /** The arguments of `runSimulation`. */
  datatype RunInputs = RunInputs(
    principal: real, rate: real, contrib: real, offset: real, redraw: real,
    annualFee: real, interventions: seq<Intervention>)

  datatype SimResult = SimResult(
    history: seq<LedgerEntry>, propertyHistory: seq<PropertyPoint>, totalInterest: real,
    neutralityDate: Option<Date>, neutralityIndex: int, loanEndDate: Option<Date>,
    milestones: Milestones, fixedRateEnd: Option<Marker>, splitRateEnd: Option<Marker>,
    ioRateEnd: Option<Marker>)

  /** The balance a row's period opened with, after fees, interventions and the floor at zero. */
  function Opening(e: LedgerEntry): real {
    e.balance + e.principal
  }

  /** The principal a row's period was due to repay: none while interest-only. */
  function Due(e: LedgerEntry): real {
    if e.isIO then 0.0 else e.repayment - e.interest
  }

  /** The fixed portion of a split loan; zero when no split window applies. */
  function SplitAmount(c: LoanConfig): real {
    if SplitWindow(c).None? then 0.0
    else if c.split.splitType == Percent then c.principal * c.split.percent / 100.0
    else c.split.value
  }

  /** `splitTotalRepayment || 1`. */
  function Denominator(total: real): (r: real)
    ensures r != 0.0
  {
    if total == 0.0 then 1.0 else total
  }

  /**
   * The ledger's breakdown of a split payment in proportion to the split
   * repayments: the two parts add up to the payment whenever the split
   * total is their non-zero sum, and are never negative for non-negative
   * repayments.
   */
  function SplitShares(sp: SplitPayments, contrib: real): (r: (real, real))
    ensures r.0 * Denominator(sp.total) == sp.fixed * contrib
    ensures r.1 * Denominator(sp.total) == sp.variable * contrib
    ensures sp.total == sp.fixed + sp.variable && sp.total != 0.0 ==> r.0 + r.1 == contrib
    ensures sp.fixed >= 0.0 && sp.variable >= 0.0 && sp.total >= 0.0 && contrib >= 0.0 ==> r.0 >= 0.0 && r.1 >= 0.0
    ensures sp.total == 0.0 ==> r == (sp.fixed * contrib, sp.variable * contrib)
  {
    var ratio := contrib / Denominator(sp.total);
    ScaledShare(sp.fixed, contrib, Denominator(sp.total));
    ScaledShare(sp.variable, contrib, Denominator(sp.total));
    SharesAddUp(sp, contrib, ratio);
    SharesNonNegative(sp, contrib, ratio);
    (sp.fixed * ratio, sp.variable * ratio)
  }

  /** With the total equal to the parts' sum, the parts scaled by `contrib / total` add up to `contrib`. */
  lemma SharesAddUp(sp: SplitPayments, contrib: real, ratio: real)
    requires ratio == contrib / Denominator(sp.total)
    ensures sp.total == sp.fixed + sp.variable && sp.total != 0.0 ==> sp.fixed * ratio + sp.variable * ratio == contrib
  {
    if sp.total == sp.fixed + sp.variable && sp.total != 0.0 {
      assert sp.fixed * ratio + sp.variable * ratio == sp.total * ratio;
      assert sp.total * ratio == contrib;
    }
  }

  lemma SharesNonNegative(sp: SplitPayments, contrib: real, ratio: real)
    requires ratio == contrib / Denominator(sp.total)
    ensures sp.fixed >= 0.0 && sp.variable >= 0.0 && sp.total >= 0.0 && contrib >= 0.0 ==>
              sp.fixed * ratio >= 0.0 && sp.variable * ratio >= 0.0
  {
    if sp.fixed >= 0.0 && sp.variable >= 0.0 && sp.total >= 0.0 && contrib >= 0.0 {
      assert ratio >= 0.0;
      MulNonNegative(sp.fixed, ratio);
      MulNonNegative(sp.variable, ratio);
    }
  }

  /** `share * (contrib / d)` times `d` is `share * contrib`. */
  lemma ScaledShare(share: real, contrib: real, d: real)
    requires d != 0.0
    ensures share * (contrib / d) * d == share * contrib
  {
    var q := contrib / d;
    assert q * d == contrib;
    assert share * q * d == share * (q * d);
  }

  /**
   * What one row says about its own period: its date and regime, the rate
   * charged by precedence (fixed, then interest-only, then variable), the
   * repayment split between interest and principal with payoff when the
   * principal due covers the balance, the interest formula, the property
   * value grown `k` times, and the loan-to-value ratio and equity.
   */
  predicate EntryOk(env: SimEnv, run: RunInputs, k: nat, e: LedgerEntry) {
    var c := env.cfg;
    && e.p == k + 1
    && e.date == PeriodDate(c.freq, env.repayStart, k + 1)
    && RegimeFlags(e.isFixed, e.isSplit, e.isIO) == Regime(c, e.date)
    && e.rate == EffectiveRate(c, Regime(c, e.date), e.rate)
    && (!e.isFixed && !e.isIO && NoRateNote(e.notes) ==> e.rate == e.variableRate)
    && Opening(e) > 0.0 && e.balance >= 0.0
    && (Opening(e) <= Due(e) ==> e.balance == 0.0)
    && (Opening(e) > Due(e) ==> e.principal == Due(e))
    && (e.isIO && !OverrideActive(c) ==> e.repayment == e.interest)
    && e.interest == PeriodInterest(Opening(e), e.offset + e.redraw, e.isSplit && !e.isFixed,
                                    SplitRatio(c, SplitAmount(c)), c.split.rate, e.variableRate,
                                    e.rate, PeriodsPerYear(c.freq))
    && e.propertyValue == ValueAfter(c, k)
    && e.lvr == ComputeLvr(e.balance, e.propertyValue)
    && e.equity == e.propertyValue - e.balance
    && e.splitRate == (if e.isSplit then Some(c.split.rate) else None)
    && (e.splitFixedRepay, e.splitVariableRepay) == (if e.isSplit then SplitShares(env.split, e.repayment) else (0.0, 0.0))
  }

  function PrevBalance(run: RunInputs, h: seq<LedgerEntry>, k: nat): real
    requires k <= |h|
  {
    if k == 0 then run.principal else h[k - 1].balance
  }

  function PrevOffset(run: RunInputs, h: seq<LedgerEntry>, k: nat): real
    requires k <= |h|
  {
    if k == 0 then run.offset else h[k - 1].offset
  }

  function PrevRedraw(run: RunInputs, h: seq<LedgerEntry>, k: nat): real
    requires k <= |h|
  {
    if k == 0 then run.redraw else h[k - 1].redraw
  }

  function PrevRate(run: RunInputs, h: seq<LedgerEntry>, k: nat): real
    requires k <= |h|
  {
    if k == 0 then run.rate else h[k - 1].variableRate
  }

  /**
   * Row `k` continues row `k - 1`: it opens at the previous closing balance
   * moved by exactly the fees and lump sums it notes, its facilities grow by
   * exactly the top-ups it notes, and a variable period is charged the
   * variable rate the previous period closed with.
   */
  predicate Continues(run: RunInputs, h: seq<LedgerEntry>, k: nat)
    requires k < |h|
  {
    && Opening(h[k]) == PrevBalance(run, h, k) + Adjustment(h[k].notes)
    && h[k].offset == PrevOffset(run, h, k) + Sum(h[k].offsetNotes)
    && h[k].redraw == PrevRedraw(run, h, k) + Sum(h[k].redrawNotes)
    && (!h[k].isFixed && !h[k].isIO ==> h[k].rate == PrevRate(run, h, k))
  }

  /** A row that charges the annual fee did so under the source's conditions. */
  predicate FeeCharged(env: SimEnv, run: RunInputs, e: LedgerEntry) {
    && run.annualFee > 0.0 && e.p > 1
    && e.date.year > env.loanStart.year && e.date.month >= env.loanStart.month
    && Fee(run.annualFee) in e.notes
  }

  predicate HasFee(e: LedgerEntry) {
    !NoFeeNote(e.notes)
  }

  /** Every row with a fee note was charged legitimately, at most once per calendar year. */
  predicate FeesOk(env: SimEnv, run: RunInputs, h: seq<LedgerEntry>) {
    && (forall k :: 0 <= k < |h| && HasFee(h[k]) ==> FeeCharged(env, run, h[k]))
    && (forall j, k :: 0 <= j < k < |h| && HasFee(h[j]) && HasFee(h[k]) ==> h[j].date.year < h[k].date.year)
  }

  /** The whole ledger: every row well formed and continuing its predecessor. */
  predicate LedgerOk(env: SimEnv, run: RunInputs, h: seq<LedgerEntry>) {
    && (forall k {:trigger EntryOk(env, run, k, h[k])} :: 0 <= k < |h| ==> EntryOk(env, run, k, h[k]))
    && (forall k :: 0 <= k < |h| ==> Continues(run, h, k))
    && FeesOk(env, run, h)
    && (OverrideActive(env.cfg) ==> forall k :: 0 <= k < |h| ==> h[k].repayment == run.contrib)
  }

  /** The offset and redraw together cover the whole opening balance. */
  predicate NeutralAt(e: LedgerEntry) {
    e.offset + e.redraw >= Opening(e) && Opening(e) > 0.0
  }

  predicate PaidOff(e: LedgerEntry) {
    e.balance == 0.0
  }

  /** Row `e` is where the ratio first may count as having fallen to `t` from an initial `init`. */
  predicate Crossed(e: LedgerEntry, t: real, init: Lvr) {
    e.p > 1 && AtMost(e.lvr, t) && Above(init, t)
  }

  /** The index of the first row satisfying `P`, or -1. */
  function FirstWhere(h: seq<LedgerEntry>, P: LedgerEntry -> bool): (r: int)
    ensures -1 <= r < |h|
    ensures r >= 0 ==> P(h[r]) && forall j :: 0 <= j < r ==> !P(h[j])
    ensures r == -1 <==> forall j :: 0 <= j < |h| ==> !P(h[j])
    decreases |h|
  {
    if h == [] then -1
    else
      var r := FirstWhere(h[..|h| - 1], P);
      if r >= 0 then r else if P(h[|h| - 1]) then |h| - 1 else -1
  }

  /** The index of the last row satisfying `P`, or -1. */
  function LastWhere(h: seq<LedgerEntry>, P: LedgerEntry -> bool): (r: int)
    ensures -1 <= r < |h|
    ensures r >= 0 ==> P(h[r]) && forall j :: r < j < |h| ==> !P(h[j])
    ensures r == -1 <==> forall j :: 0 <= j < |h| ==> !P(h[j])
    decreases |h|
  {
    if h == [] then -1
    else if P(h[|h| - 1]) then |h| - 1
    else LastWhere(h[..|h| - 1], P)
  }

  function DateAt(h: seq<LedgerEntry>, i: int): Option<Date> {
    if 0 <= i < |h| then Some(h[i].date) else None
  }

  function MilestoneAt(h: seq<LedgerEntry>, i: int): Option<Milestone> {
    if 0 <= i < |h| then Some(Milestone(i, h[i].date, h[i].propertyValue, h[i].balance)) else None
  }

  /** `principal / propertyValue * 100`: the ratio the milestones are measured against. */
  function InitialLvr(env: SimEnv, run: RunInputs): Lvr {
    ComputeLvr(run.principal, env.cfg.propertyValue)
  }

  function FirstCrossing(h: seq<LedgerEntry>, t: real, init: Lvr): int {
    FirstWhere(h, e => Crossed(e, t, init))
  }

  /** Each milestone is the first row that crossed its threshold, if any did. */
  predicate MilestonesOk(h: seq<LedgerEntry>, init: Lvr, m: Milestones) {
    && m.lvr90 == MilestoneAt(h, FirstCrossing(h, 90.0, init))
    && m.lvr80 == MilestoneAt(h, FirstCrossing(h, 80.0, init))
    && m.lvr50 == MilestoneAt(h, FirstCrossing(h, 50.0, init))
    && m.lvr25 == MilestoneAt(h, FirstCrossing(h, 25.0, init))
  }

  /** The interest of all rows. */
  function SumInterest(h: seq<LedgerEntry>): real
    decreases |h|
  {
    if h == [] then 0.0 else SumInterest(h[..|h| - 1]) + h[|h| - 1].interest
  }

  /** The first row on or after `end` marks where an overlay ended. */
  predicate MarkerOk(h: seq<LedgerEntry>, w: Option<Window>, m: Option<Marker>) {
    && (w.None? ==> m.None?)
    && (w.Some? && m.None? ==> forall j :: 0 <= j < |h| ==> Before(h[j].date, w.value.end))
    && (w.Some? && m.Some? ==>
          && m.value.index < |h| && m.value.date == w.value.end
          && AtOrBefore(w.value.end, h[m.value.index].date)
          && forall j :: 0 <= j < m.value.index ==> Before(h[j].date, w.value.end))
  }

  /** The loop that finds the first row dated on or after `end`. */
  method FindMarker(h: seq<LedgerEntry>, w: Option<Window>) returns (m: Option<Marker>)
    ensures MarkerOk(h, w, m)
  {
    m := None;
    if w.None? || |h| == 0 {
      return;
    }
    var end := w.value.end;
    var i := 0;
    while i < |h|
      invariant 0 <= i <= |h|
      invariant forall j :: 0 <= j < i ==> Before(h[j].date, end)
    {
      if AtOrBefore(end, h[i].date) {
        return Some(Marker(i, end));
      }
      i := i + 1;
    }
  }

  /** `findLastIndex(h => h.date <= d)`: the last row dated on or before `d`, or -1. */
  function LastAtOrBefore(h: seq<LedgerEntry>, d: Date): (r: int)
    ensures -1 <= r < |h|
    ensures r >= 0 ==> AtOrBefore(h[r].date, d)
    ensures forall j :: r < j < |h| ==> Before(d, h[j].date)
    decreases |h|
  {
    if h == [] then -1
    else if AtOrBefore(h[|h| - 1].date, d) then |h| - 1
    else
      var r := LastAtOrBefore(h[..|h| - 1], d);
      assert forall j :: r < j < |h| - 1 ==> h[..|h| - 1][j] == h[j];
      r
  }

  /** With non-negative rates every row accrues non-negative interest. */
  lemma EntryInterestNonNegative(env: SimEnv, run: RunInputs, k: nat, e: LedgerEntry)
    requires EntryOk(env, run, k, e)
    requires env.cfg.split.rate >= 0.0 && e.variableRate >= 0.0 && e.rate >= 0.0
    ensures e.interest >= 0.0
  {
    var c := env.cfg;
    InterestNonNegative(Opening(e), e.offset + e.redraw, e.isSplit && !e.isFixed,
                        SplitRatio(c, SplitAmount(c)), c.split.rate, e.variableRate,
                        e.rate, PeriodsPerYear(c.freq));
  }

  /**
   * The offset and redraw never raise a row's interest: with non-negative
   * facilities and rates it is at most what the same period would accrue
   * with no facilities at all.
   */
  lemma EntryInterestAtMostWithoutFacilities(env: SimEnv, run: RunInputs, k: nat, e: LedgerEntry)
    requires EntryOk(env, run, k, e)
    requires e.offset + e.redraw >= 0.0
    requires env.cfg.split.rate >= 0.0 && e.variableRate >= 0.0 && e.rate >= 0.0
    requires env.cfg.split.percent >= 0.0 && env.cfg.split.value >= 0.0 && env.cfg.principal >= 0.0
    ensures var c := env.cfg;
      e.interest <= PeriodInterest(Opening(e), 0.0, e.isSplit && !e.isFixed,
                                   SplitRatio(c, SplitAmount(c)), c.split.rate, e.variableRate,
                                   e.rate, PeriodsPerYear(c.freq))
  {
    var c := env.cfg;
    var ratio := SplitRatio(c, SplitAmount(c));
    SplitRatioNonNegative(c);
    InterestMonotoneInFacilities(Opening(e), 0.0, e.offset + e.redraw, e.isSplit && !e.isFixed,
                                 ratio, c.split.rate, e.variableRate, e.rate, PeriodsPerYear(c.freq));
  }

  lemma SplitRatioNonNegative(c: LoanConfig)
    requires c.split.percent >= 0.0 && c.split.value >= 0.0 && c.principal >= 0.0
    ensures SplitRatio(c, SplitAmount(c)) >= 0.0
  {
    SplitAmountNonNegative(c);
    DivNonNegative(SplitAmount(c), Max(1.0, c.principal));
  }

  lemma SplitAmountNonNegative(c: LoanConfig)
    requires c.split.percent >= 0.0 && c.split.value >= 0.0 && c.principal >= 0.0
    ensures SplitAmount(c) >= 0.0
  {
    if SplitWindow(c).Some? && c.split.splitType == Percent {
      MulNonNegative(c.principal, c.split.percent);
    }
  }

  lemma DivNonNegative(x: real, y: real)
    requires x >= 0.0 && y >= 1.0
    ensures x / y >= 0.0
  {
  }

  lemma MulNonNegative(x: real, y: real)
    requires x >= 0.0 && y >= 0.0
    ensures x * y >= 0.0
  {
  }

  /** An interest-only row repays no principal and, without an override, pays exactly its interest. */
  lemma InterestOnlyRepaysNoPrincipal(env: SimEnv, run: RunInputs, k: nat, e: LedgerEntry)
    requires EntryOk(env, run, k, e) && e.isIO
    ensures e.principal == 0.0 && e.balance == Opening(e)
    ensures !OverrideActive(env.cfg) ==> e.repayment == e.interest
    ensures !e.isFixed ==> e.rate == env.cfg.io.rate
  {
  }

  /**
   * A lower threshold is never reached before a higher one: when both
   * milestones exist the higher one's row comes first, and reaching the
   * lower one implies reaching the higher one if the loan started above it.
   */
  lemma CrossingsOrdered(h: seq<LedgerEntry>, init: Lvr, hi: real, lo: real)
    requires lo <= hi
    ensures FirstCrossing(h, lo, init) >= 0 && Above(init, hi) ==> FirstCrossing(h, hi, init) >= 0
    ensures FirstCrossing(h, lo, init) >= 0 && FirstCrossing(h, hi, init) >= 0 ==>
              FirstCrossing(h, hi, init) <= FirstCrossing(h, lo, init)
  {
    var l, u := FirstCrossing(h, lo, init), FirstCrossing(h, hi, init);
    if l >= 0 && Above(init, hi) {
      assert Crossed(h[l], hi, init);
    }
  }

  /** The four milestones come in threshold order. */
  lemma MilestonesOrdered(h: seq<LedgerEntry>, init: Lvr, m: Milestones)
    requires MilestonesOk(h, init, m)
    ensures m.lvr90.Some? && m.lvr80.Some? ==> m.lvr90.value.index <= m.lvr80.value.index
    ensures m.lvr80.Some? && m.lvr50.Some? ==> m.lvr80.value.index <= m.lvr50.value.index
    ensures m.lvr50.Some? && m.lvr25.Some? ==> m.lvr50.value.index <= m.lvr25.value.index
    ensures m.lvr25.Some? && Above(init, 90.0) ==> m.lvr90.Some?
  {
    CrossingsOrdered(h, init, 90.0, 80.0);
    CrossingsOrdered(h, init, 80.0, 50.0);
    CrossingsOrdered(h, init, 50.0, 25.0);
    CrossingsOrdered(h, init, 90.0, 25.0);
  }
}
