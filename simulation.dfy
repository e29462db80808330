/**
 * `runSimulation`: the period-by-period loop that builds the ledger, proved
 * to produce a ledger satisfying `Ledger.LedgerOk` and the summary
 * (neutrality date, payoff date, milestones, overlay end markers) the
 * ledger determines.
 */
module Simulation {
  import opened Wrappers
  import opened Calendar
  import opened Repayment
  import opened Loan
  import opened Interventions
  import opened Ledger

  /** The payment in force and the notes a period has collected so far. */
  datatype Payment = Payment(contrib: real, notes: seq<Note>)

  /** Periods left on the contract at period `p` (1-based). */
  function Remaining(c: LoanConfig, p: int): int {
    ContractPeriods(c.termMonths, c.freq) - p + 1
  }

  /** A payment re-solved over the remaining periods, rounded to the cent. */
  function Resolve(c: LoanConfig, balance: real, rate: real, p: int): real {
    CentRound(CalculateRepayment(balance, rate, Remaining(c, p), PeriodsPerYear(c.freq)))
  }

  /** A regime change re-solves the payment only after the first period, with periods left and no override. */
  predicate MayResolve(c: LoanConfig, p: int) {
    p > 1 && Remaining(c, p) > 0 && !OverrideActive(c)
  }

  /** Entering or leaving the fixed window re-solves at the rate now charged. */
  function FixedTransition(c: LoanConfig, p: int, now: bool, prev: bool, balance: real, effRate: real, pay: Payment): Payment {
    if MayResolve(c, p) && now != prev then
      Payment(Resolve(c, balance, effRate, p), pay.notes + [if now then FixedStarted else RevertedToVariable])
    else pay
  }

  /** Entering interest-only only notes it; leaving re-solves at the variable rate. */
  function IOTransition(c: LoanConfig, p: int, now: bool, prev: bool, balance: real, variableRate: real, pay: Payment): Payment {
    if MayResolve(c, p) && now != prev then
      if now then pay.(notes := pay.notes + [InterestOnlyStarted])
      else Payment(Resolve(c, balance, variableRate, p), pay.notes + [InterestOnlyEnded])
    else pay
  }

  /**
   * Entering a split window outside a fixed one scales the split payments by
   * the share of the original principal still owed; leaving it re-solves at
   * the variable rate.
   */
  function SplitTransition(c: LoanConfig, sp: SplitPayments, p: int, now: bool, prev: bool, fixed: bool,
                           balance: real, variableRate: real, pay: Payment): Payment {
    if MayResolve(c, p) && now != prev then
      if now && !fixed then Payment((sp.fixed + sp.variable) * (balance / Max(1.0, c.principal)), pay.notes + [SplitStarted])
      else if !now then Payment(Resolve(c, balance, variableRate, p), pay.notes + [SplitEnded])
      else pay
    else pay
  }

  /** The split check leaves the payment alone: no split change, or a split starting inside a fixed window. */
  predicate SplitQuiet(now: RegimeFlags, prev: RegimeFlags) {
    now.split == prev.split || (now.split && now.fixed)
  }

  /**
   * The three regime-change checks of a period, in the source's order; a
   * later check that sets the payment overrides an earlier one.
   */
  function Transitions(c: LoanConfig, sp: SplitPayments, p: int, now: RegimeFlags, prev: RegimeFlags,
                       balance: real, effRate: real, variableRate: real, contrib: real): (r: Payment)
    ensures !MayResolve(c, p) || now == prev ==> r == Payment(contrib, [])
    ensures now.fixed == prev.fixed && now.io == prev.io && now.split == prev.split ==> r == Payment(contrib, [])
    ensures NoMoney(r.notes) && NoRateNote(r.notes) && NoFeeNote(r.notes)
    ensures |r.notes| <= 3
    ensures now.io && !prev.io && now.fixed == prev.fixed && now.split == prev.split ==> r.contrib == contrib
    // Entering a split window outside a fixed one scales the split repayments by the share still owed.
    ensures MayResolve(c, p) && now.split && !prev.split && !now.fixed ==>
              r.contrib == (sp.fixed + sp.variable) * (balance / Max(1.0, c.principal))
    // Leaving a split window re-solves at the variable rate.
    ensures MayResolve(c, p) && !now.split && prev.split ==> r.contrib == Resolve(c, balance, variableRate, p)
    // With the split check quiet, leaving interest-only re-solves at the variable rate.
    ensures MayResolve(c, p) && SplitQuiet(now, prev) && prev.io && !now.io ==>
              r.contrib == Resolve(c, balance, variableRate, p)
    // With both later checks quiet, entering or leaving the fixed window re-solves at the rate now charged.
    ensures MayResolve(c, p) && SplitQuiet(now, prev) && !(prev.io && !now.io) && now.fixed != prev.fixed ==>
              r.contrib == Resolve(c, balance, effRate, p)
    // With every check quiet, the payment is kept.
    ensures SplitQuiet(now, prev) && !(prev.io && !now.io) && now.fixed == prev.fixed ==> r.contrib == contrib
  {
    var a := FixedTransition(c, p, now.fixed, prev.fixed, balance, effRate, Payment(contrib, []));
    var b := IOTransition(c, p, now.io, prev.io, balance, variableRate, a);
    SplitTransition(c, sp, p, now.split, prev.split, now.fixed, balance, variableRate, b)
  }

  /** The annual fee falls due in the first period of a new calendar year at or past the loan's start month. */
  predicate FeeDue(fee: real, p: int, date: Date, lastFeeYear: int, loanStart: Date) {
    fee > 0.0 && p > 1 && date.year > lastFeeYear && date.month >= loanStart.month
  }

  /** What one period hands to the next. */
  datatype Carry = Carry(
    balance: real, offset: real, redraw: real, rate: real, contrib: real,
    lastFeeYear: int, prev: RegimeFlags, propertyValue: real)

  /** A period either stops the run (the balance it opens with is zero) or adds a row. */
  datatype Outcome = Stopped(interest: real) | Row(entry: LedgerEntry, next: Carry)

  /** Top-ups and starting facilities that are never negative. */
  predicate NonNegativeFacilities(run: RunInputs) {
    run.offset >= 0.0 && run.redraw >= 0.0 && AllValuesNonNegative(run.interventions)
  }

  /** The row of period `p` continues the carried state, and the carried state continues the row. */
  predicate RowOk(env: SimEnv, run: RunInputs, p: nat, cr: Carry, e: LedgerEntry, next: Carry)
    requires p >= 1
  {
    var c := env.cfg;
    && EntryOk(env, run, p - 1, e)
    && Opening(e) == cr.balance + Adjustment(e.notes)
    && e.offset == cr.offset + Sum(e.offsetNotes)
    && e.redraw == cr.redraw + Sum(e.redrawNotes)
    && (!e.isFixed && !e.isIO ==> e.rate == cr.rate)
    && (OverrideActive(c) ==> e.repayment == cr.contrib)
    && (FeeDue(run.annualFee, p, e.date, cr.lastFeeYear, env.loanStart) <==> HasFee(e))
    && (NoRateNote(e.notes) ==> e.variableRate == cr.rate)
    && (HasFee(e) ==> FeeCharged(env, run, e) && e.date.year > cr.lastFeeYear && next.lastFeeYear == e.date.year)
    && (!HasFee(e) ==> next.lastFeeYear == cr.lastFeeYear)
    && next.balance == e.balance && next.offset == e.offset && next.redraw == e.redraw
    && next.rate == e.variableRate && next.contrib == e.repayment
    && next.propertyValue == Grow(c, e.propertyValue)
  }

  lemma NoteConcat(a: seq<Note>, b: seq<Note>)
    ensures NoRateNote(a + b) ==> NoRateNote(b)
    ensures NoFeeNote(a) && NoFeeNote(b) ==> NoFeeNote(a + b)
  {
    if NoRateNote(a + b) {
      forall k | 0 <= k < |b| ensures !b[k].RateTo? { assert (a + b)[|a| + k] == b[k]; }
    }
  }

  lemma SumNonNegative(xs: seq<real>)
    requires forall k :: 0 <= k < |xs| ==> xs[k] >= 0.0
    ensures Sum(xs) >= 0.0
    decreases |xs|
  {
    if xs != [] {
      SumNonNegative(xs[..|xs| - 1]);
    }
  }

  lemma {:induction false} TopUpsNonNegative(ctx: PeriodContext, evs: seq<Intervention>, kind: InterventionKind)
    requires AllValuesNonNegative(evs)
    ensures forall k :: 0 <= k < |TopUps(ctx, evs, kind)| ==> TopUps(ctx, evs, kind)[k] >= 0.0
    decreases |evs|
  {
    if evs != [] {
      TopUpsNonNegative(ctx, evs[..|evs| - 1], kind);
    }
  }

  /** A period's state once fees, interventions and the floor at zero have been applied. */
  datatype Opened = Opened(date: Date, flags: RegimeFlags, effRate: real, balance: real, st: EventState, lastFeeYear: int)

  /** What the first half of a period establishes about the state it opens with. */
  predicate OpenedOk(env: SimEnv, run: RunInputs, p: nat, cr: Carry, o: Opened)
    requires p >= 1
  {
    var c := env.cfg;
    && o.date == PeriodDate(c.freq, env.repayStart, p)
    && o.flags == Regime(c, o.date)
    && o.effRate == EffectiveRate(c, o.flags, cr.rate)
    && o.balance >= 0.0
    && (o.st.balance >= 0.0 ==> o.balance == o.st.balance)
    && (o.st.balance < 0.0 ==> o.balance == 0.0)
    && o.st.balance == cr.balance + Adjustment(o.st.notes)
    && o.st.offset == cr.offset + Sum(o.st.offsetNotes)
    && o.st.redraw == cr.redraw + Sum(o.st.redrawNotes)
    && (NoRateNote(o.st.notes) ==> o.st.rate == cr.rate)
    && (OverrideActive(c) ==> o.st.contrib == cr.contrib)
    && (FeeDue(run.annualFee, p, o.date, cr.lastFeeYear, env.loanStart) <==> !NoFeeNote(o.st.notes))
    && (!NoFeeNote(o.st.notes) ==> Fee(run.annualFee) in o.st.notes && o.lastFeeYear == o.date.year)
    && (NoFeeNote(o.st.notes) ==> o.lastFeeYear == cr.lastFeeYear)
    && (NonNegativeFacilities(run) && cr.offset >= 0.0 && cr.redraw >= 0.0 ==> o.st.offset >= 0.0 && o.st.redraw >= 0.0)
  }

  /**
   * The state period `p` opens with: its date and regime, the payment after
   * the regime-change checks, the annual fee added when it falls due, the
   * period's interventions applied in order, and the balance floored at zero.
   */
  function Open(env: SimEnv, run: RunInputs, p: nat, cr: Carry): Opened
    requires p >= 1
  {
    var c := env.cfg;
    var date := PeriodDate(c.freq, env.repayStart, p);
    var flags := Regime(c, date);
    var effRate := EffectiveRate(c, flags, cr.rate);
    var pay := Transitions(c, env.split, p, flags, cr.prev, cr.balance, effRate, cr.rate, cr.contrib);
    var charged := FeeDue(run.annualFee, p, date, cr.lastFeeYear, env.loanStart);
    var ctx := PeriodContext(c.freq, date, flags.fixed, Remaining(c, p), OverrideActive(c));
    var before := EventState(if charged then cr.balance + run.annualFee else cr.balance, cr.offset, cr.redraw,
                             cr.rate, pay.contrib, if charged then pay.notes + [Fee(run.annualFee)] else pay.notes,
                             [], []);
    var st := ApplyEvents(ctx, before, run.interventions);
    Opened(date, flags, effRate, if st.balance < 0.0 then 0.0 else st.balance, st,
           if charged then date.year else cr.lastFeeYear)
  }

  /**
   * The first half of the loop body: the period's date and regime, the
   * regime-change checks, the annual fee, the interventions and the floor
   * at zero.
   */
  method OpenPeriod(env: SimEnv, run: RunInputs, p: nat, cr: Carry) returns (o: Opened)
    requires p >= 1
    ensures o == Open(env, run, p, cr)
  {
    var c := env.cfg;
    var date := PeriodDate(c.freq, env.repayStart, p);
    var flags := Regime(c, date);
    var effRate := EffectiveRate(c, flags, cr.rate);
    var pay := Transitions(c, env.split, p, flags, cr.prev, cr.balance, effRate, cr.rate, cr.contrib);

    var balance := cr.balance;
    var notes := pay.notes;
    var lastFeeYear := cr.lastFeeYear;
    if FeeDue(run.annualFee, p, date, lastFeeYear, env.loanStart) {
      balance := balance + run.annualFee;
      notes := notes + [Fee(run.annualFee)];
      lastFeeYear := date.year;
    }

    var ctx := PeriodContext(c.freq, date, flags.fixed, Remaining(c, p), OverrideActive(c));
    var st := ApplyInterventions(ctx, EventState(balance, cr.offset, cr.redraw, cr.rate, pay.contrib, notes, [], []),
                                 run.interventions);
    balance := st.balance;
    if balance < 0.0 {
      balance := 0.0;
    }
    o := Opened(date, flags, effRate, balance, st, lastFeeYear);
  }

  /** What a period opens with continues the carried state by exactly its notes, fee and interventions. */
  lemma OpenOk(env: SimEnv, run: RunInputs, p: nat, cr: Carry)
    requires p >= 1
    ensures OpenedOk(env, run, p, cr, Open(env, run, p, cr))
  {
    var c := env.cfg;
    var o := Open(env, run, p, cr);
    var pay := Transitions(c, env.split, p, o.flags, cr.prev, cr.balance, o.effRate, cr.rate, cr.contrib);
    var charged := FeeDue(run.annualFee, p, o.date, cr.lastFeeYear, env.loanStart);
    var feeNotes := if charged then [Fee(run.annualFee)] else [];
    var ctx := PeriodContext(c.freq, o.date, o.flags.fixed, Remaining(c, p), OverrideActive(c));
    var before := EventState(if charged then cr.balance + run.annualFee else cr.balance, cr.offset, cr.redraw,
                             cr.rate, pay.contrib, pay.notes + feeNotes, [], []);
    assert before.notes == if charged then pay.notes + [Fee(run.annualFee)] else pay.notes;
    assert o.st == ApplyEvents(ctx, before, run.interventions);
    OpenEvents(run, cr, ctx, before, o.st, charged, pay.notes, feeNotes);
  }

  /** The interventions' part of `OpenOk`: what the period's events do to the state after the fee. */
  lemma OpenEvents(run: RunInputs, cr: Carry, ctx: PeriodContext, before: EventState, st: EventState,
                   charged: bool, tn: seq<Note>, feeNotes: seq<Note>)
    requires NoMoney(tn) && NoRateNote(tn) && NoFeeNote(tn)
    requires feeNotes == if charged then [Fee(run.annualFee)] else []
    requires before.balance == (if charged then cr.balance + run.annualFee else cr.balance)
    requires before.offset == cr.offset && before.redraw == cr.redraw && before.rate == cr.rate
    requires before.notes == tn + feeNotes && before.offsetNotes == [] && before.redrawNotes == []
    requires st == ApplyEvents(ctx, before, run.interventions)
    ensures st.balance == cr.balance + Adjustment(st.notes)
    ensures st.offset == cr.offset + Sum(st.offsetNotes) && st.redraw == cr.redraw + Sum(st.redrawNotes)
    ensures NoRateNote(st.notes) ==> st.rate == cr.rate
    ensures ctx.overridden ==> st.contrib == before.contrib
    ensures charged <==> !NoFeeNote(st.notes)
    ensures charged ==> Fee(run.annualFee) in st.notes
    ensures NonNegativeFacilities(run) && cr.offset >= 0.0 && cr.redraw >= 0.0 ==> st.offset >= 0.0 && st.redraw >= 0.0
  {
    EventsLedger(ctx, before, run.interventions);
    if ctx.overridden {
      OverrideKeepsPayment(ctx, before, run.interventions);
    }
    if NonNegativeFacilities(run) && cr.offset >= 0.0 && cr.redraw >= 0.0 {
      TopUpsNonNegative(ctx, run.interventions, OffsetAdd);
      TopUpsNonNegative(ctx, run.interventions, RedrawAdd);
      SumNonNegative(TopUps(ctx, run.interventions, OffsetAdd));
      SumNonNegative(TopUps(ctx, run.interventions, RedrawAdd));
    }
    PeriodNotesFacts(tn, feeNotes, PeriodNotes(ctx, run.interventions), run.annualFee, charged);

    var pn, offs, reds := PeriodNotes(ctx, run.interventions), TopUps(ctx, run.interventions, OffsetAdd), TopUps(ctx, run.interventions, RedrawAdd);
    assert st.notes == tn + feeNotes + pn;
    assert st.offsetNotes == offs by { assert [] + offs == offs; }
    assert st.redrawNotes == reds by { assert [] + reds == reds; }
  }

  /**
   * How a period that opened as `o` ends: it is charged interest on the
   * balance net of the facilities (split or not) and, while interest-only
   * without an override, pays exactly that interest; then it stops when it
   * opened at zero, or pays off at most the balance, marks a payoff at zero
   * and writes its row, handing the closing state and the grown property
   * value to the next period.
   */
  function Settle(env: SimEnv, p: nat, cr: Carry, o: Opened): Outcome {
    var c := env.cfg;
    var interest := PeriodInterest(o.balance, o.st.offset + o.st.redraw, o.flags.split && !o.flags.fixed,
                                   SplitRatio(c, SplitAmount(c)), c.split.rate, o.st.rate, o.effRate,
                                   PeriodsPerYear(c.freq));
    var contrib := if o.flags.io && !OverrideActive(c) then interest else o.st.contrib;
    var due := if o.flags.io then 0.0 else contrib - interest;
    if o.balance <= 0.0 then Stopped(interest) else Close(env, p, cr, o, interest, contrib, due)
  }

  /** The row a period writes once charged `interest` against a payment of `contrib` with `due` principal due. */
  function Close(env: SimEnv, p: nat, cr: Carry, o: Opened, interest: real, contrib: real, due: real): Outcome {
    var c := env.cfg;
    var paidOff := o.balance <= due;
    var closing := if paidOff then 0.0 else o.balance - due;
    var shares := if o.flags.split then SplitShares(env.split, contrib) else (0.0, 0.0);
    var e := LedgerEntry(
      p, o.date, closing, interest, if paidOff then o.balance else due, o.st.offset, o.st.redraw, o.effRate,
      contrib, o.flags.fixed, o.flags.split, o.flags.io, if o.flags.split then Some(c.split.rate) else None,
      o.st.rate, shares.0, shares.1, cr.propertyValue, ComputeLvr(closing, cr.propertyValue),
      cr.propertyValue - closing, o.st.notes, o.st.offsetNotes, o.st.redrawNotes);
    Row(e, Carry(closing, o.st.offset, o.st.redraw, o.st.rate, contrib, o.lastFeeYear, o.flags,
                 Grow(c, cr.propertyValue)))
  }

  /** Once its charges are known, a period stops with that interest at zero and otherwise writes its row. */
  lemma SettleByCharges(env: SimEnv, p: nat, cr: Carry, o: Opened, interest: real, contrib: real, due: real)
    requires ChargedOk(env, p, cr, o, interest, contrib, due)
    ensures o.balance <= 0.0 ==> Settle(env, p, cr, o) == Stopped(interest)
    ensures o.balance > 0.0 ==> Settle(env, p, cr, o) == Close(env, p, cr, o, interest, contrib, due)
  {
  }

  /** Period `p` run on the carried state `cr`. */
  function PeriodResult(env: SimEnv, run: RunInputs, p: nat, cr: Carry): Outcome
    requires p >= 1
  {
    Settle(env, p, cr, Open(env, run, p, cr))
  }

  /**
   * One pass of the loop body: the opening half, then the interest, the
   * interest-only payment, and either the stop at a zero balance or the
   * repayment (with payoff) and the new row.
   */
  method Period(env: SimEnv, run: RunInputs, p: nat, cr: Carry) returns (out: Outcome)
    requires p >= 1
    requires cr.propertyValue == ValueAfter(env.cfg, p - 1)
    requires cr.lastFeeYear >= env.loanStart.year
    ensures out == PeriodResult(env, run, p, cr)
    ensures out.Stopped? <==> Open(env, run, p, cr).balance <= 0.0
    ensures out.Row? ==> RowOk(env, run, p, cr, out.entry, out.next)
    ensures out.Row? ==> out.next.prev == Regime(env.cfg, out.entry.date)
    ensures out.Row? && NonNegativeFacilities(run) && cr.offset >= 0.0 && cr.redraw >= 0.0 ==> out.next.offset >= 0.0 && out.next.redraw >= 0.0
    ensures out.Stopped? && NonNegativeFacilities(run) && cr.offset >= 0.0 && cr.redraw >= 0.0 ==> out.interest == 0.0
  {
    var c := env.cfg;
    var o := OpenPeriod(env, run, p, cr);
    OpenOk(env, run, p, cr);
    var st, flags, balance := o.st, o.flags, o.balance;
    var facilities := st.offset + st.redraw;
    var interest := PeriodInterest(balance, facilities, flags.split && !flags.fixed,
                                   SplitRatio(c, SplitAmount(c)), c.split.rate, st.rate, o.effRate,
                                   PeriodsPerYear(c.freq));
    var contrib := st.contrib;
    if flags.io && !OverrideActive(c) {
      contrib := interest;
    }
    var principalPaid := if flags.io then 0.0 else contrib - interest;
    assert ChargedOk(env, p, cr, o, interest, contrib, principalPaid);
    SettleByCharges(env, p, cr, o, interest, contrib, principalPaid);

    if balance <= 0.0 {
      if NonNegativeFacilities(run) && cr.offset >= 0.0 && cr.redraw >= 0.0 {
        ZeroBalanceAccruesNothing(facilities, flags.split && !flags.fixed,
                                  SplitRatio(c, SplitAmount(c)), c.split.rate, st.rate, o.effRate,
                                  PeriodsPerYear(c.freq));
      }
      return Stopped(interest);
    }

    out := ClosePeriod(env, run, p, cr, o, interest, contrib, principalPaid);
    SettleOk(env, run, p, cr, o, interest, contrib, principalPaid);
  }

  /** The period's interest, payment and principal due, as the loop body computes them. */
  predicate ChargedOk(env: SimEnv, p: nat, cr: Carry, o: Opened, interest: real, contrib: real, due: real)
  {
    var c := env.cfg;
    && interest == PeriodInterest(o.balance, o.st.offset + o.st.redraw, o.flags.split && !o.flags.fixed,
                                  SplitRatio(c, SplitAmount(c)), c.split.rate, o.st.rate, o.effRate,
                                  PeriodsPerYear(c.freq))
    && contrib == (if o.flags.io && !OverrideActive(c) then interest else o.st.contrib)
    && due == (if o.flags.io then 0.0 else contrib - interest)
  }

  /** The row written for a period that opened as `o` and was charged `interest` against a payment of `contrib`. */
  predicate Recorded(env: SimEnv, p: nat, cr: Carry, o: Opened, interest: real, contrib: real, due: real, e: LedgerEntry) {
    var c := env.cfg;
    && e.p == p && e.date == o.date
    && e.balance == (if o.balance <= due then 0.0 else o.balance - due)
    && e.principal == (if o.balance <= due then o.balance else due)
    && e.interest == interest && e.offset == o.st.offset && e.redraw == o.st.redraw
    && e.rate == o.effRate && e.repayment == contrib
    && e.isFixed == o.flags.fixed && e.isSplit == o.flags.split && e.isIO == o.flags.io
    && e.splitRate == (if o.flags.split then Some(c.split.rate) else None)
    && e.variableRate == o.st.rate
    && (e.splitFixedRepay, e.splitVariableRepay) == (if o.flags.split then SplitShares(env.split, contrib) else (0.0, 0.0))
    && e.propertyValue == cr.propertyValue && e.lvr == ComputeLvr(e.balance, cr.propertyValue)
    && e.equity == cr.propertyValue - e.balance
    && e.notes == o.st.notes && e.offsetNotes == o.st.offsetNotes && e.redrawNotes == o.st.redrawNotes
  }

  /** The second half of the loop body once the balance is known to be positive: repayment, payoff and the row. */
  method ClosePeriod(env: SimEnv, run: RunInputs, p: nat, cr: Carry, o: Opened,
                     interest: real, contrib: real, due: real) returns (out: Outcome)
    requires o.balance > 0.0
    requires ChargedOk(env, p, cr, o, interest, contrib, due)
    ensures out == Close(env, p, cr, o, interest, contrib, due)
  {
    var c := env.cfg;
    var st, flags, balance := o.st, o.flags, o.balance;
    var paidOff := balance <= due;
    var principalPaid := if paidOff then balance else due;
    var closing := if paidOff then 0.0 else balance - due;
    var shares := if flags.split then SplitShares(env.split, contrib) else (0.0, 0.0);

    var e := LedgerEntry(
      p, o.date, closing, interest, principalPaid, st.offset, st.redraw, o.effRate, contrib,
      flags.fixed, flags.split, flags.io, if flags.split then Some(c.split.rate) else None,
      st.rate, shares.0, shares.1, cr.propertyValue, ComputeLvr(closing, cr.propertyValue),
      cr.propertyValue - closing, st.notes, st.offsetNotes, st.redrawNotes);
    out := Row(e, Carry(closing, st.offset, st.redraw, st.rate, contrib, o.lastFeeYear, flags,
                        Grow(c, cr.propertyValue)));
  }

  /**
   * A period that opened above zero writes a well-formed row that continues
   * the carried state, and hands on its regime and non-negative facilities.
   */
  lemma SettleOk(env: SimEnv, run: RunInputs, p: nat, cr: Carry, o: Opened, interest: real, contrib: real, due: real)
    requires p >= 1
    requires cr.propertyValue == ValueAfter(env.cfg, p - 1)
    requires cr.lastFeeYear >= env.loanStart.year
    requires OpenedOk(env, run, p, cr, o) && o.balance > 0.0
    requires ChargedOk(env, p, cr, o, interest, contrib, due)
    ensures Close(env, p, cr, o, interest, contrib, due).Row?
    ensures RowOk(env, run, p, cr, Close(env, p, cr, o, interest, contrib, due).entry, Close(env, p, cr, o, interest, contrib, due).next)
    ensures Close(env, p, cr, o, interest, contrib, due).next.prev == Regime(env.cfg, Close(env, p, cr, o, interest, contrib, due).entry.date)
    ensures NonNegativeFacilities(run) && cr.offset >= 0.0 && cr.redraw >= 0.0 ==>
              Close(env, p, cr, o, interest, contrib, due).next.offset >= 0.0 && Close(env, p, cr, o, interest, contrib, due).next.redraw >= 0.0
  {
    var out := Close(env, p, cr, o, interest, contrib, due);
    assert Recorded(env, p, cr, o, interest, contrib, due, out.entry);
    ClosedEntryOk(env, run, p, cr, o, interest, contrib, due, out.entry);
    ClosedRowOk(env, run, p, cr, o, interest, contrib, due, out.entry, out.next);
  }

  /** A recorded row is well formed. */
  lemma ClosedEntryOk(env: SimEnv, run: RunInputs, p: nat, cr: Carry, o: Opened,
                      interest: real, contrib: real, due: real, e: LedgerEntry)
    requires p >= 1
    requires cr.propertyValue == ValueAfter(env.cfg, p - 1)
    requires OpenedOk(env, run, p, cr, o) && o.balance > 0.0
    requires ChargedOk(env, p, cr, o, interest, contrib, due)
    requires Recorded(env, p, cr, o, interest, contrib, due, e)
    ensures EntryOk(env, run, p - 1, e)
  {
    var c := env.cfg;
    var k := p - 1;
    assert Opening(e) == o.balance;
    assert e.date == PeriodDate(c.freq, env.repayStart, k + 1);
    assert RegimeFlags(e.isFixed, e.isSplit, e.isIO) == Regime(c, e.date);
    assert e.rate == EffectiveRate(c, Regime(c, e.date), e.rate);
    assert !e.isFixed && !e.isIO && NoRateNote(e.notes) ==> e.rate == e.variableRate;
    assert Opening(e) > 0.0 && e.balance >= 0.0;
    assert Opening(e) <= Due(e) ==> e.balance == 0.0;
    assert Opening(e) > Due(e) ==> e.principal == Due(e);
    assert e.isIO && !OverrideActive(c) ==> e.repayment == e.interest;
    assert e.interest == PeriodInterest(Opening(e), e.offset + e.redraw, e.isSplit && !e.isFixed,
                                        SplitRatio(c, SplitAmount(c)), c.split.rate, e.variableRate,
                                        e.rate, PeriodsPerYear(c.freq));
    assert e.propertyValue == ValueAfter(c, k);
  }

  /** A recorded row continues the carried state, and the state handed on continues the row. */
  lemma ClosedRowOk(env: SimEnv, run: RunInputs, p: nat, cr: Carry, o: Opened,
                    interest: real, contrib: real, due: real, e: LedgerEntry, next: Carry)
    requires p >= 1
    requires cr.lastFeeYear >= env.loanStart.year
    requires OpenedOk(env, run, p, cr, o) && o.balance > 0.0
    requires ChargedOk(env, p, cr, o, interest, contrib, due)
    requires Recorded(env, p, cr, o, interest, contrib, due, e) && EntryOk(env, run, p - 1, e)
    requires next == Carry(e.balance, o.st.offset, o.st.redraw, o.st.rate, contrib, o.lastFeeYear, o.flags,
                           Grow(env.cfg, cr.propertyValue))
    ensures RowOk(env, run, p, cr, e, next)
    ensures next.prev == Regime(env.cfg, e.date)
  {
    var c := env.cfg;
    assert Opening(e) == cr.balance + Adjustment(e.notes);
    assert !e.isFixed && !e.isIO ==> e.rate == cr.rate;
    assert OverrideActive(c) ==> e.repayment == cr.contrib;
    assert FeeDue(run.annualFee, p, e.date, cr.lastFeeYear, env.loanStart) <==> HasFee(e);
    assert NoRateNote(e.notes) ==> e.variableRate == cr.rate;
    assert HasFee(e) ==> FeeCharged(env, run, e) && e.date.year > cr.lastFeeYear && next.lastFeeYear == e.date.year;
    assert !HasFee(e) ==> next.lastFeeYear == cr.lastFeeYear;
  }

  /**
   * The notes of a row are the regime-change notes, then the fee note if
   * charged, then the interventions' notes: their money adds up to the fee
   * less the lump sums, the fee note is there exactly when charged, and a
   * rate note can only come from the interventions.
   */
  lemma PeriodNotesFacts(tn: seq<Note>, fn: seq<Note>, pn: seq<Note>, fee: real, charged: bool)
    requires NoMoney(tn) && NoRateNote(tn) && NoFeeNote(tn) && NoFeeNote(pn)
    requires fn == if charged then [Fee(fee)] else []
    ensures Adjustment(tn + fn + pn) == (if charged then fee else 0.0) + Adjustment(pn)
    ensures charged <==> !NoFeeNote(tn + fn + pn)
    ensures charged ==> Fee(fee) in tn + fn + pn
    ensures NoRateNote(tn + fn + pn) ==> NoRateNote(pn)
  {
    NoMoneyNoAdjustment(tn);
    AdjustmentAppend(tn, fn);
    AdjustmentAppend(tn + fn, pn);
    if charged {
      assert fn[..0] == [];
      assert (tn + fn + pn)[|tn|] == Fee(fee);
    } else {
      assert tn + fn == tn;
      NoteConcat(tn, pn);
    }
    NoteConcat(tn + fn, pn);
  }

  /** The carried state agrees with the rows written so far. */
  predicate CarryOk(env: SimEnv, run: RunInputs, h: seq<LedgerEntry>, cr: Carry) {
    && cr.balance == PrevBalance(run, h, |h|)
    && cr.offset == PrevOffset(run, h, |h|)
    && cr.redraw == PrevRedraw(run, h, |h|)
    && cr.rate == PrevRate(run, h, |h|)
    && (OverrideActive(env.cfg) ==> cr.contrib == run.contrib)
    && cr.propertyValue == ValueAfter(env.cfg, |h|)
    && cr.lastFeeYear >= env.loanStart.year
    && (forall k :: 0 <= k < |h| && HasFee(h[k]) ==> h[k].date.year <= cr.lastFeeYear)
    && (NonNegativeFacilities(run) ==> cr.offset >= 0.0 && cr.redraw >= 0.0)
  }

  /** Appending a well-formed row keeps the ledger well formed and the carried state in step. */
  lemma Extend(env: SimEnv, run: RunInputs, h: seq<LedgerEntry>, cr: Carry, e: LedgerEntry, next: Carry)
    requires LedgerOk(env, run, h) && CarryOk(env, run, h, cr)
    requires RowOk(env, run, |h| + 1, cr, e, next)
    requires NonNegativeFacilities(run) ==> next.offset >= 0.0 && next.redraw >= 0.0
    ensures LedgerOk(env, run, h + [e]) && CarryOk(env, run, h + [e], next)
  {
    ExtendEntries(env, run, h, e);
    ExtendContinues(run, h, cr, e);
    ExtendFees(env, run, h, e, cr.lastFeeYear);
    ExtendFeeYears(h, e, cr.lastFeeYear, next.lastFeeYear);
    if OverrideActive(env.cfg) {
      ExtendRepayments(h, e, run.contrib);
    }
  }

  lemma ExtendEntries(env: SimEnv, run: RunInputs, h: seq<LedgerEntry>, e: LedgerEntry)
    requires forall k :: 0 <= k < |h| ==> EntryOk(env, run, k, h[k])
    requires EntryOk(env, run, |h|, e)
    ensures forall k :: 0 <= k < |h + [e]| ==> EntryOk(env, run, k, (h + [e])[k])
  {
    forall k | 0 <= k < |h + [e]|
      ensures EntryOk(env, run, k, (h + [e])[k])
    {
      if k < |h| {
        assert (h + [e])[k] == h[k];
      }
    }
  }

  /** The new row continues the carried state, and the old rows still continue theirs. */
  lemma ExtendContinues(run: RunInputs, h: seq<LedgerEntry>, cr: Carry, e: LedgerEntry)
    requires forall k :: 0 <= k < |h| ==> Continues(run, h, k)
    requires cr.balance == PrevBalance(run, h, |h|) && cr.offset == PrevOffset(run, h, |h|)
    requires cr.redraw == PrevRedraw(run, h, |h|) && cr.rate == PrevRate(run, h, |h|)
    requires Opening(e) == cr.balance + Adjustment(e.notes)
    requires e.offset == cr.offset + Sum(e.offsetNotes) && e.redraw == cr.redraw + Sum(e.redrawNotes)
    requires !e.isFixed && !e.isIO ==> e.rate == cr.rate
    ensures forall k :: 0 <= k < |h + [e]| ==> Continues(run, h + [e], k)
  {
    var h' := h + [e];
    forall k | 0 <= k < |h'|
      ensures Continues(run, h', k)
    {
      if k < |h| {
        assert h'[k] == h[k];
        assert Continues(run, h, k);
        if k > 0 {
          assert h'[k - 1] == h[k - 1];
        }
      } else if k > 0 {
        assert h'[k - 1] == h[k - 1];
      }
    }
  }

  /** A fee on the new row falls in a later year than every earlier fee. */
  lemma ExtendFees(env: SimEnv, run: RunInputs, h: seq<LedgerEntry>, e: LedgerEntry, lastFeeYear: int)
    requires FeesOk(env, run, h)
    requires forall k :: 0 <= k < |h| && HasFee(h[k]) ==> h[k].date.year <= lastFeeYear
    requires HasFee(e) ==> FeeCharged(env, run, e) && e.date.year > lastFeeYear
    ensures FeesOk(env, run, h + [e])
  {
    var h' := h + [e];
    forall k | 0 <= k < |h'| && HasFee(h'[k])
      ensures FeeCharged(env, run, h'[k])
    {
      if k < |h| {
        assert h'[k] == h[k];
      }
    }
    forall j, k | 0 <= j < k < |h'| && HasFee(h'[j]) && HasFee(h'[k])
      ensures h'[j].date.year < h'[k].date.year
    {
      if k < |h| {
        assert h'[j] == h[j] && h'[k] == h[k];
      } else {
        assert h'[j] == h[j];
      }
    }
  }

  /** The year of the last fee charged still bounds every fee row after the new row. */
  lemma ExtendFeeYears(h: seq<LedgerEntry>, e: LedgerEntry, lastFeeYear: int, lastFeeYear': int)
    requires forall k :: 0 <= k < |h| && HasFee(h[k]) ==> h[k].date.year <= lastFeeYear
    requires HasFee(e) ==> e.date.year > lastFeeYear && lastFeeYear' == e.date.year
    requires !HasFee(e) ==> lastFeeYear' == lastFeeYear
    ensures lastFeeYear' >= lastFeeYear
    ensures forall k :: 0 <= k < |h + [e]| && HasFee((h + [e])[k]) ==> (h + [e])[k].date.year <= lastFeeYear'
  {
    forall k | 0 <= k < |h + [e]| && HasFee((h + [e])[k])
      ensures (h + [e])[k].date.year <= lastFeeYear'
    {
      if k < |h| {
        assert (h + [e])[k] == h[k];
      }
    }
  }

  lemma ExtendRepayments(h: seq<LedgerEntry>, e: LedgerEntry, contrib: real)
    requires forall k :: 0 <= k < |h| ==> h[k].repayment == contrib
    requires e.repayment == contrib
    ensures forall k :: 0 <= k < |h + [e]| ==> (h + [e])[k].repayment == contrib
  {
    forall k | 0 <= k < |h + [e]|
      ensures (h + [e])[k].repayment == contrib
    {
      if k < |h| {
        assert (h + [e])[k] == h[k];
      }
    }
  }

  /** The state the first period starts from: the loan as drawn, in no overlay, with no fee charged yet. */
  function Start(env: SimEnv, run: RunInputs): Carry {
    Carry(run.principal, run.offset, run.redraw, run.rate, run.contrib,
          env.loanStart.year, RegimeFlags(false, false, false), env.cfg.propertyValue)
  }

  /** The rows written, the interest charged and the state carried at the end of a run. */
  datatype Trace = Trace(history: seq<LedgerEntry>, totalInterest: real, last: Carry)

  /**
   * The rest of the loop from the rows `h` and the carried state `cr`: the
   * periods run one after another until the horizon, or until a period opens
   * with nothing owing (whose interest is still added to the total).
   */
  function RunFrom(env: SimEnv, run: RunInputs, h: seq<LedgerEntry>, cr: Carry, total: real): Trace
    decreases SimulationPeriods(env.cfg.freq) - |h|
  {
    if |h| >= SimulationPeriods(env.cfg.freq) then Trace(h, total, cr)
    else match PeriodResult(env, run, |h| + 1, cr)
      case Stopped(interest) => Trace(h, total + interest, cr)
      case Row(e, next) => RunFrom(env, run, h + [e], next, total + e.interest)
  }

  /** A run only appends rows, and never beyond the horizon. */
  lemma {:induction false} RunFromGrows(env: SimEnv, run: RunInputs, h: seq<LedgerEntry>, cr: Carry, total: real)
    ensures h <= RunFrom(env, run, h, cr, total).history
    ensures |h| <= SimulationPeriods(env.cfg.freq) ==> |RunFrom(env, run, h, cr, total).history| <= SimulationPeriods(env.cfg.freq)
    decreases SimulationPeriods(env.cfg.freq) - |h|
  {
    if |h| < SimulationPeriods(env.cfg.freq) {
      match PeriodResult(env, run, |h| + 1, cr)
      case Stopped(interest) =>
      case Row(e, next) =>
        RunFromGrows(env, run, h + [e], next, total + e.interest);
    }
  }

  /** One turn of the loop, as `Step` reports it, is one step of the run. */
  lemma RunFromStep(env: SimEnv, run: RunInputs, h: seq<LedgerEntry>, cr: Carry, total: real,
                    out: Outcome, h': seq<LedgerEntry>, cr': Carry, total': real)
    requires |h| < SimulationPeriods(env.cfg.freq) && out == PeriodResult(env, run, |h| + 1, cr)
    requires out.Stopped? ==> h' == h && cr' == cr && total' == total + out.interest
    requires out.Row? ==> h' == h + [out.entry] && cr' == out.next && total' == total + out.entry.interest
    ensures out.Stopped? ==> RunFrom(env, run, h, cr, total) == Trace(h', total', cr')
    ensures out.Row? ==> RunFrom(env, run, h', cr', total') == RunFrom(env, run, h, cr, total)
  {
  }

  /** At the horizon nothing more is run. */
  lemma RunFromHorizon(env: SimEnv, run: RunInputs, h: seq<LedgerEntry>, cr: Carry, total: real)
    requires |h| >= SimulationPeriods(env.cfg.freq)
    ensures RunFrom(env, run, h, cr, total) == Trace(h, total, cr)
  {
  }

  /** The whole loop, from the loan as drawn. */
  function Run(env: SimEnv, run: RunInputs): Trace {
    RunFrom(env, run, [], Start(env, run), 0.0)
  }

  /** A run ends at the horizon or at a period that opens with nothing owing. */
  predicate Ends(env: SimEnv, run: RunInputs, t: Trace) {
    |t.history| == SimulationPeriods(env.cfg.freq) || Open(env, run, |t.history| + 1, t.last).balance <= 0.0
  }

  /** Every run stops only for one of the loop's two reasons. */
  lemma {:induction false} RunEnds(env: SimEnv, run: RunInputs, h: seq<LedgerEntry>, cr: Carry, total: real)
    requires |h| <= SimulationPeriods(env.cfg.freq)
    ensures Ends(env, run, RunFrom(env, run, h, cr, total))
    decreases SimulationPeriods(env.cfg.freq) - |h|
  {
    if |h| < SimulationPeriods(env.cfg.freq) {
      match PeriodResult(env, run, |h| + 1, cr)
      case Stopped(interest) =>
      case Row(e, next) =>
        RunEnds(env, run, h + [e], next, total + e.interest);
    }
  }

  /** One period run on top of the ledger so far: a row that keeps the ledger well formed, or the stop. */
  method Advance(env: SimEnv, run: RunInputs, h: seq<LedgerEntry>, cr: Carry) returns (out: Outcome)
    requires LedgerOk(env, run, h) && CarryOk(env, run, h, cr)
    ensures out == PeriodResult(env, run, |h| + 1, cr)
    ensures out.Stopped? <==> Open(env, run, |h| + 1, cr).balance <= 0.0
    ensures out.Row? ==> LedgerOk(env, run, h + [out.entry]) && CarryOk(env, run, h + [out.entry], out.next)
    ensures out.Stopped? && NonNegativeFacilities(run) ==> out.interest == 0.0
  {
    out := Period(env, run, |h| + 1, cr);
    if out.Row? {
      Extend(env, run, h, cr, out.entry, out.next);
    }
  }

  /** The first row satisfying `P` after one more row is appended. */
  lemma FirstWhereSnoc(h: seq<LedgerEntry>, e: LedgerEntry, P: LedgerEntry -> bool)
    ensures FirstWhere(h + [e], P) == if FirstWhere(h, P) >= 0 then FirstWhere(h, P) else if P(e) then |h| else -1
  {
    assert (h + [e])[..|h|] == h;
  }

  /** The last row satisfying `P` after one more row is appended. */
  lemma LastWhereSnoc(h: seq<LedgerEntry>, e: LedgerEntry, P: LedgerEntry -> bool)
    ensures LastWhere(h + [e], P) == if P(e) then |h| else LastWhere(h, P)
  {
    assert (h + [e])[..|h|] == h;
  }

  lemma SumInterestSnoc(h: seq<LedgerEntry>, e: LedgerEntry)
    ensures SumInterest(h + [e]) == SumInterest(h) + e.interest
  {
    assert (h + [e])[..|h|] == h;
  }

  /** A milestone slot after one more row: kept if already set, else set when the row crosses. */
  function Check(m: Option<Milestone>, i: nat, e: LedgerEntry, t: real, init: Lvr): Option<Milestone> {
    if m.None? && Crossed(e, t, init) then Some(Milestone(i, e.date, e.propertyValue, e.balance)) else m
  }

  lemma CheckSnoc(h: seq<LedgerEntry>, e: LedgerEntry, t: real, init: Lvr, m: Option<Milestone>)
    requires m == MilestoneAt(h, FirstCrossing(h, t, init))
    ensures Check(m, |h|, e, t, init) == MilestoneAt(h + [e], FirstCrossing(h + [e], t, init))
  {
    var h' := h + [e];
    var f := FirstCrossing(h, t, init);
    if f >= 0 {
      assert h'[f] == h[f];
      assert Crossed(h'[f], t, init);
    } else if Crossed(e, t, init) {
      assert h'[|h|] == e;
    }
  }

  /** What the loop has recorded so far, as functions of the rows written. */
  predicate Tracked(h: seq<LedgerEntry>, init: Lvr, totalInterest: real,
                    neutralityDate: Option<Date>, loanEndDate: Option<Date>, m: Milestones) {
    && totalInterest == SumInterest(h)
    && neutralityDate == DateAt(h, FirstWhere(h, NeutralAt))
    && loanEndDate == DateAt(h, LastWhere(h, PaidOff))
    && MilestonesOk(h, init, m)
  }

  /** The milestones after one more row. */
  function NextMilestones(m: Milestones, i: nat, e: LedgerEntry, init: Lvr): Milestones {
    Milestones(Check(m.lvr90, i, e, 90.0, init), Check(m.lvr80, i, e, 80.0, init),
               Check(m.lvr50, i, e, 50.0, init), Check(m.lvr25, i, e, 25.0, init))
  }

  lemma MilestonesStep(h: seq<LedgerEntry>, e: LedgerEntry, init: Lvr, m: Milestones)
    requires MilestonesOk(h, init, m)
    ensures MilestonesOk(h + [e], init, NextMilestones(m, |h|, e, init))
  {
    CheckSnoc(h, e, 90.0, init, m.lvr90);
    CheckSnoc(h, e, 80.0, init, m.lvr80);
    CheckSnoc(h, e, 50.0, init, m.lvr50);
    CheckSnoc(h, e, 25.0, init, m.lvr25);
  }

  /** Recording one more row keeps the records in step with the rows. */
  lemma Track(h: seq<LedgerEntry>, e: LedgerEntry, init: Lvr, totalInterest: real,
              neutralityDate: Option<Date>, loanEndDate: Option<Date>, m: Milestones,
              totalInterest': real, neutralityDate': Option<Date>, loanEndDate': Option<Date>, m': Milestones)
    requires Tracked(h, init, totalInterest, neutralityDate, loanEndDate, m)
    requires totalInterest' == totalInterest + e.interest
    requires neutralityDate' == if neutralityDate.None? && NeutralAt(e) then Some(e.date) else neutralityDate
    requires loanEndDate' == if PaidOff(e) then Some(e.date) else loanEndDate
    requires m' == NextMilestones(m, |h|, e, init)
    ensures Tracked(h + [e], init, totalInterest', neutralityDate', loanEndDate', m')
  {
    SumInterestSnoc(h, e);
    NeutralityStep(h, e, neutralityDate);
    LoanEndStep(h, e, loanEndDate);
    MilestonesStep(h, e, init, m);
  }

  /** The neutrality date after one more row: kept if already set, else the row's date when it is neutral. */
  lemma NeutralityStep(h: seq<LedgerEntry>, e: LedgerEntry, d: Option<Date>)
    requires d == DateAt(h, FirstWhere(h, NeutralAt))
    ensures (if d.None? && NeutralAt(e) then Some(e.date) else d) == DateAt(h + [e], FirstWhere(h + [e], NeutralAt))
  {
    FirstWhereSnoc(h, e, NeutralAt);
    var f := FirstWhere(h, NeutralAt);
    if f >= 0 {
      assert (h + [e])[f] == h[f];
    } else if NeutralAt(e) {
      assert (h + [e])[|h|] == e;
    }
  }

  /** The loan-end date after one more row: the row's date when it pays the loan off, else unchanged. */
  lemma LoanEndStep(h: seq<LedgerEntry>, e: LedgerEntry, d: Option<Date>)
    requires d == DateAt(h, LastWhere(h, PaidOff))
    ensures (if PaidOff(e) then Some(e.date) else d) == DateAt(h + [e], LastWhere(h + [e], PaidOff))
  {
    LastWhereSnoc(h, e, PaidOff);
    var l := LastWhere(h, PaidOff);
    if PaidOff(e) {
      assert (h + [e])[|h|] == e;
    } else if 0 <= l < |h| {
      assert (h + [e])[l] == h[l];
    }
  }

  /** The overlay windows of the configuration. */
  function Markers(c: LoanConfig): (Option<Window>, Option<Window>, Option<Window>) {
    (FixedWindow(c), SplitWindow(c), IOWindow(c))
  }

  /** The property history: one point per row, with the row's period, date, value and ratio. */
  function Points(h: seq<LedgerEntry>): (r: seq<PropertyPoint>)
    ensures |r| == |h|
    ensures forall k :: 0 <= k < |h| ==> r[k] == PropertyPoint(h[k].p, h[k].date, h[k].propertyValue, h[k].lvr)
    decreases |h|
  {
    if h == [] then [] else
      var e := h[|h| - 1];
      Points(h[..|h| - 1]) + [PropertyPoint(e.p, e.date, e.propertyValue, e.lvr)]
  }

  lemma PointsSnoc(h: seq<LedgerEntry>, e: LedgerEntry)
    ensures Points(h + [e]) == Points(h) + [PropertyPoint(e.p, e.date, e.propertyValue, e.lvr)]
  {
    assert (h + [e])[..|h|] == h;
  }

  /**
   * The bookkeeping after a row is written: the row and its property point
   * are appended, its interest added to the total, the neutrality date set
   * the first time the facilities cover the balance, the loan-end date moved
   * to any row that pays the loan off, and the milestones it first reaches set.
   */
  method Record(history: seq<LedgerEntry>, propertyHistory: seq<PropertyPoint>, init: Lvr, totalInterest: real,
                neutralityDate: Option<Date>, loanEndDate: Option<Date>, milestones: Milestones, e: LedgerEntry)
    returns (history': seq<LedgerEntry>, propertyHistory': seq<PropertyPoint>, totalInterest': real,
             neutralityDate': Option<Date>, loanEndDate': Option<Date>, milestones': Milestones)
    requires propertyHistory == Points(history)
    requires Tracked(history, init, totalInterest, neutralityDate, loanEndDate, milestones)
    ensures history' == history + [e] && propertyHistory' == Points(history')
    ensures totalInterest' == totalInterest + e.interest
    ensures Tracked(history', init, totalInterest', neutralityDate', loanEndDate', milestones')
  {
    totalInterest' := totalInterest + e.interest;
    neutralityDate' := neutralityDate;
    if neutralityDate.None? && NeutralAt(e) {
      neutralityDate' := Some(e.date);
    }
    loanEndDate' := loanEndDate;
    if PaidOff(e) {
      loanEndDate' := Some(e.date);
    }
    milestones' := NextMilestones(milestones, |history|, e, init);
    Track(history, e, init, totalInterest, neutralityDate, loanEndDate, milestones,
          totalInterest', neutralityDate', loanEndDate', milestones');
    PointsSnoc(history, e);
    history' := history + [e];
    propertyHistory' := propertyHistory + [PropertyPoint(e.p, e.date, e.propertyValue, e.lvr)];
  }

  /** One turn of the simulation loop: the period is run, and either the loop stops or the row is recorded. */
  method Step(env: SimEnv, run: RunInputs, init: Lvr, history: seq<LedgerEntry>, cr: Carry,
              propertyHistory: seq<PropertyPoint>, totalInterest: real,
              neutralityDate: Option<Date>, loanEndDate: Option<Date>, milestones: Milestones)
    returns (stopped: bool, out: Outcome, history': seq<LedgerEntry>, cr': Carry, propertyHistory': seq<PropertyPoint>,
             totalInterest': real, neutralityDate': Option<Date>, loanEndDate': Option<Date>, milestones': Milestones)
    requires |history| < SimulationPeriods(env.cfg.freq)
    requires LedgerOk(env, run, history) && CarryOk(env, run, history, cr)
    requires propertyHistory == Points(history)
    requires Tracked(history, init, totalInterest, neutralityDate, loanEndDate, milestones)
    ensures out == PeriodResult(env, run, |history| + 1, cr)
    ensures stopped <==> out.Stopped?
    ensures stopped <==> Open(env, run, |history| + 1, cr).balance <= 0.0
    ensures stopped ==> cr' == cr && totalInterest' == totalInterest + out.interest
    ensures !stopped ==> history' == history + [out.entry] && cr' == out.next && totalInterest' == totalInterest + out.entry.interest
    ensures stopped ==> history' == history && propertyHistory' == propertyHistory
    ensures stopped ==> neutralityDate' == neutralityDate && loanEndDate' == loanEndDate && milestones' == milestones
    ensures stopped && NonNegativeFacilities(run) ==> totalInterest' == totalInterest
    ensures !stopped ==> |history'| == |history| + 1
    ensures !stopped ==> LedgerOk(env, run, history') && CarryOk(env, run, history', cr')
    ensures !stopped ==> propertyHistory' == Points(history')
    ensures !stopped ==> Tracked(history', init, totalInterest', neutralityDate', loanEndDate', milestones')
  {
    out := Advance(env, run, history, cr);
    if out.Stopped? {
      return true, out, history, cr, propertyHistory, totalInterest + out.interest, neutralityDate, loanEndDate, milestones;
    }
    stopped, cr' := false, out.next;
    history', propertyHistory', totalInterest', neutralityDate', loanEndDate', milestones' :=
      Record(history, propertyHistory, init, totalInterest, neutralityDate, loanEndDate, milestones, out.entry);
  }

  /**
   * The simulation loop: at most sixty years of periods, each one row of the
   * ledger, stopping at the first period that opens with nothing owing.
   * Along the way it totals the interest, records the first period the
   * facilities cover the balance, the last period that paid the loan off,
   * and the first period each loan-to-value milestone was reached.
   */
  method Simulate(env: SimEnv, run: RunInputs)
    returns (history: seq<LedgerEntry>, propertyHistory: seq<PropertyPoint>, totalInterest: real,
             neutralityDate: Option<Date>, loanEndDate: Option<Date>, milestones: Milestones)
    ensures history == Run(env, run).history && totalInterest == Run(env, run).totalInterest
    ensures LedgerOk(env, run, history) && |history| <= SimulationPeriods(env.cfg.freq)
    ensures propertyHistory == Points(history)
    ensures NonNegativeFacilities(run) ==> totalInterest == SumInterest(history)
    ensures neutralityDate == DateAt(history, FirstWhere(history, NeutralAt))
    ensures loanEndDate == DateAt(history, LastWhere(history, PaidOff))
    ensures MilestonesOk(history, InitialLvr(env, run), milestones)
  {
    var c := env.cfg;
    var init := InitialLvr(env, run);
    var cr := Start(env, run);
    history, propertyHistory, totalInterest := [], [], 0.0;
    neutralityDate, loanEndDate := None, None;
    milestones := Milestones(None, None, None, None);

    var p := 1;
    while p <= SimulationPeriods(c.freq)
      invariant 1 <= p <= SimulationPeriods(c.freq) + 1 && |history| == p - 1
      invariant LedgerOk(env, run, history) && CarryOk(env, run, history, cr)
      invariant propertyHistory == Points(history)
      invariant Tracked(history, init, totalInterest, neutralityDate, loanEndDate, milestones)
      invariant RunFrom(env, run, history, cr, totalInterest) == Run(env, run)
    {
      ghost var history0, cr0, totalInterest0 := history, cr, totalInterest;
      var stopped, out;
      stopped, out, history, cr, propertyHistory, totalInterest, neutralityDate, loanEndDate, milestones :=
        Step(env, run, init, history, cr, propertyHistory, totalInterest, neutralityDate, loanEndDate, milestones);
      RunFromStep(env, run, history0, cr0, totalInterest0, out, history, cr, totalInterest);
      if stopped {
        return;
      }
      p := p + 1;
    }
    RunFromHorizon(env, run, history, cr, totalInterest);
  }

  /** `findLastIndex` from the neutrality date lands on or after the first neutral row. */
  lemma NeutralityIndex(h: seq<LedgerEntry>, d: Option<Date>)
    requires d == DateAt(h, FirstWhere(h, NeutralAt)) && d.Some?
    ensures FirstWhere(h, NeutralAt) <= LastAtOrBefore(h, d.value)
  {
    var f := FirstWhere(h, NeutralAt);
    assert AtOrBefore(h[f].date, d.value);
  }

  /**
   * What `runSimulation` returns: a well-formed ledger of at most sixty
   * years with its property history; the interest total (exact when the
   * facilities are never negative); the first neutral row's date and an
   * index at or after it; the last payoff row's date; the milestones; and
   * the rows at which the overlays ended.
   */
  predicate SimulationOk(env: SimEnv, run: RunInputs, res: SimResult) {
    var h := res.history;
    && h == Run(env, run).history && res.totalInterest == Run(env, run).totalInterest
    && Ends(env, run, Run(env, run))
    && LedgerOk(env, run, h)
    && |h| <= SimulationPeriods(env.cfg.freq)
    && res.propertyHistory == Points(h)
    && (NonNegativeFacilities(run) ==> res.totalInterest == SumInterest(h))
    && res.neutralityDate == DateAt(h, FirstWhere(h, NeutralAt))
    && (res.neutralityDate.None? ==> res.neutralityIndex == -1)
    && (res.neutralityDate.Some? ==>
          && FirstWhere(h, NeutralAt) <= res.neutralityIndex < |h|
          && AtOrBefore(h[res.neutralityIndex].date, res.neutralityDate.value)
          && forall j :: res.neutralityIndex < j < |h| ==> Before(res.neutralityDate.value, h[j].date))
    && res.loanEndDate == DateAt(h, LastWhere(h, PaidOff))
    && MilestonesOk(h, InitialLvr(env, run), res.milestones)
    && MarkerOk(h, FixedWindow(env.cfg), res.fixedRateEnd)
    && MarkerOk(h, SplitWindow(env.cfg), res.splitRateEnd)
    && MarkerOk(h, IOWindow(env.cfg), res.ioRateEnd)
  }

  /**
   * `runSimulation`: the loop, then the rows at which the fixed, split and
   * interest-only overlays ended, and the last row dated on or before the
   * neutrality date.
   */
  method RunSimulation(env: SimEnv, run: RunInputs) returns (res: SimResult)
    ensures SimulationOk(env, run, res)
  {
    var c := env.cfg;
    var history, propertyHistory, totalInterest, neutralityDate, loanEndDate, milestones := Simulate(env, run);
    RunEnds(env, run, [], Start(env, run), 0.0);
    var fixedRateEnd := FindMarker(history, FixedWindow(c));
    var splitRateEnd := FindMarker(history, SplitWindow(c));
    var ioRateEnd := FindMarker(history, IOWindow(c));
    var neutralityIndex := -1;
    if neutralityDate.Some? {
      neutralityIndex := LastAtOrBefore(history, neutralityDate.value);
      NeutralityIndex(history, neutralityDate);
    }
    res := SimResult(history, propertyHistory, totalInterest, neutralityDate, neutralityIndex, loanEndDate,
                     milestones, fixedRateEnd, splitRateEnd, ioRateEnd);
  }
}
