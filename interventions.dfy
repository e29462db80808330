/**
 * Dated interventions: expanding a recurring one into its occurrences
 * (`expandIntervention`) and applying the occurrences that fall in a
 * period to the running loan state (the intervention step of
 * `runSimulation`).
 */
module Interventions {
  import opened Wrappers
  import opened Calendar
  import opened Repayment
  import opened Loan

  /** The date after `d` on which a recurring event happens again; none for a one-off or unrecognised rule. */
  function NextOccurrence(d: Date, r: Recurrence): (n: Option<Date>)
    ensures n.Some? <==> r in {WeeklyRecurrence, FortnightlyRecurrence, MonthlyRecurrence, YearlyRecurrence}
    ensures n.Some? ==> Before(d, n.value)
  {
    match r
    case WeeklyRecurrence => AddDaysAdvances(d, 7); Some(AddDays(d, 7))
    case FortnightlyRecurrence => AddDaysAdvances(d, 14); Some(AddDays(d, 14))
    case MonthlyRecurrence => AddMonthsAdvances(d, 1); Some(AddMonths(d, 1))
    case YearlyRecurrence => AddYearsAdvances(d, 1); Some(AddYears(d, 1))
    case _ => None
  }

  /** The last day recurring events are expanded to: 60 years after the base date. */
  function ExpansionLimit(base: Date): Date {
    AddYears(base, 60)
  }

  /** A one-off event or a rate change is never expanded. */
  predicate IsSingle(item: Intervention) {
    item.recurrence == Once || item.kind == RateChange
  }

  /** Every element is `item` with only its date changed. */
  predicate Copies(occ: seq<Intervention>, item: Intervention) {
    forall k :: 0 <= k < |occ| ==> occ[k] == item.(date := occ[k].date)
  }

  predicate WithinLimit(occ: seq<Intervention>, limit: Date) {
    forall k :: 0 <= k < |occ| ==> AtOrBefore(occ[k].date, limit)
  }

  /** Each date after the first is the recurrence's next date from the one before. */
  predicate Linked(occ: seq<Intervention>, r: Recurrence) {
    forall k :: 0 < k < |occ| ==> NextOccurrence(occ[k - 1].date, r) == Some(occ[k].date)
  }

  predicate Increasing(occ: seq<Intervention>) {
    forall j, k :: 0 <= j < k < |occ| ==> Before(occ[j].date, occ[k].date)
  }

  /** The expansion stops only where the next date is past the limit or there is none. */
  predicate StopsAt(occ: seq<Intervention>, r: Recurrence, limit: Date)
    requires |occ| > 0
  {
    var n := NextOccurrence(occ[|occ| - 1].date, r);
    n.None? || Before(limit, n.value)
  }

  /** Occurrences linked by the recurrence have strictly increasing dates. */
  lemma {:induction false} LinkedIncreasing(occ: seq<Intervention>, r: Recurrence)
    requires Linked(occ, r)
    ensures Increasing(occ)
    decreases |occ|
  {
    if |occ| > 1 {
      var init := occ[..|occ| - 1];
      assert Linked(init, r) by {
        forall k | 0 < k < |init| ensures NextOccurrence(init[k - 1].date, r) == Some(init[k].date) {
          assert init[k - 1] == occ[k - 1] && init[k] == occ[k];
        }
      }
      LinkedIncreasing(init, r);
      var last := |occ| - 1;
      forall j | 0 <= j < last ensures Before(occ[j].date, occ[last].date) {
        assert Before(occ[j].date, occ[last - 1].date) || j == last - 1 by {
          if j < last - 1 { assert init[j] == occ[j] && init[last - 1] == occ[last - 1]; }
        }
        assert Before(occ[last - 1].date, occ[last].date);
      }
      forall j, k | 0 <= j < k < |occ| ensures Before(occ[j].date, occ[k].date) {
        if k < last {
          assert init[j] == occ[j] && init[k] == occ[k];
        }
      }
    }
  }

  /** One more occurrence, at the date the recurrence reached, keeps the chain. */
  lemma AppendOccurrence(occ: seq<Intervention>, item: Intervention, curr: Date, limit: Date)
    requires Copies(occ, item) && WithinLimit(occ, limit) && Linked(occ, item.recurrence)
    requires |occ| == 0 ==> curr == item.date
    requires |occ| > 0 ==> occ[0].date == item.date
    requires |occ| > 0 ==> NextOccurrence(occ[|occ| - 1].date, item.recurrence) == Some(curr)
    requires AtOrBefore(curr, limit)
    ensures var occ' := occ + [item.(date := curr)];
      Copies(occ', item) && WithinLimit(occ', limit) && Linked(occ', item.recurrence)
      && occ'[0].date == item.date
  {
    var occ' := occ + [item.(date := curr)];
    forall k | 0 <= k < |occ'| ensures occ'[k] == item.(date := occ'[k].date) && AtOrBefore(occ'[k].date, limit) {
      if k < |occ| {
        assert occ'[k] == occ[k];
      }
    }
    forall k | 0 < k < |occ'| ensures NextOccurrence(occ'[k - 1].date, item.recurrence) == Some(occ'[k].date) {
      if k < |occ| {
        assert occ'[k] == occ[k] && occ'[k - 1] == occ[k - 1];
      } else {
        assert occ'[k - 1] == occ[|occ| - 1];
      }
    }
  }

  /**
   * `expandIntervention`: the occurrences of `item` from its own date up to
   * 60 years after `base`, each a copy of `item` with its own date.
   */
  method ExpandIntervention(item: Intervention, base: Date) returns (occ: seq<Intervention>)
    ensures IsSingle(item) ==> occ == [item]
    ensures !IsSingle(item) ==>
      && Copies(occ, item)
      && WithinLimit(occ, ExpansionLimit(base))
      && Linked(occ, item.recurrence)
      && Increasing(occ)
      && (|occ| == 0 <==> Before(ExpansionLimit(base), item.date))
      && (|occ| > 0 ==> occ[0].date == item.date && StopsAt(occ, item.recurrence, ExpansionLimit(base)))
      && (item.recurrence == Unrecognised ==> |occ| <= 1)
  {
    var maxDate := ExpansionLimit(base);
    if IsSingle(item) {
      return [item];
    }
    occ := [];
    var curr := item.date;
    while AtOrBefore(curr, maxDate)
      invariant |occ| == 0 ==> curr == item.date
      invariant Copies(occ, item) && WithinLimit(occ, maxDate) && Linked(occ, item.recurrence)
      invariant |occ| > 0 ==> occ[0].date == item.date
      invariant |occ| > 0 ==> NextOccurrence(occ[|occ| - 1].date, item.recurrence) == Some(curr)
      decreases Key(maxDate) - Key(curr)
    {
      AppendOccurrence(occ, item, curr, maxDate);
      occ := occ + [item.(date := curr)];
      var next := NextOccurrence(curr, item.recurrence);
      if next.None? {
        break;
      }
      curr := next.value;
    }
    LinkedIncreasing(occ, item.recurrence);
  }

  /** What the intervention step reads and writes. */
  datatype EventState = EventState(
    balance: real, offset: real, redraw: real, rate: real, contrib: real,
    notes: seq<Note>, offsetNotes: seq<real>, redrawNotes: seq<real>)

  /** The context of one period that the intervention step consults. */
  datatype PeriodContext = PeriodContext(freq: Frequency, date: Date, inFixed: bool, remaining: int, overridden: bool)

  /**
   * One occurrence applied to the state: a lump sum comes off the balance, a
   * rate change outside a fixed window sets the variable rate and (with
   * periods left and no override) re-solves the payment, top-ups add to the
   * facilities.
   */
  function ApplyEvent(ctx: PeriodContext, st: EventState, ev: Intervention): EventState {
    var v := ev.value;
    match ev.kind
    case LumpSum => st.(balance := st.balance - v, notes := st.notes + [Lump(v)])
    case RateChange =>
      if ctx.inFixed then st
      else
        var contrib := if ctx.remaining > 0 && !ctx.overridden
                       then CentRound(CalculateRepayment(st.balance, v, ctx.remaining, PeriodsPerYear(ctx.freq)))
                       else st.contrib;
        st.(rate := v, contrib := contrib, notes := st.notes + [RateTo(v)])
    case OffsetAdd => st.(offset := st.offset + v, offsetNotes := st.offsetNotes + [v])
    case RedrawAdd => st.(redraw := st.redraw + v, redrawNotes := st.redrawNotes + [v])
  }

  /** The occurrences in `evs` that fall in the period, applied in list order. */
  function ApplyEvents(ctx: PeriodContext, st: EventState, evs: seq<Intervention>): EventState
    decreases |evs|
  {
    if evs == [] then st
    else
      var before := ApplyEvents(ctx, st, evs[..|evs| - 1]);
      var ev := evs[|evs| - 1];
      if InPeriod(ctx.freq, ev.date, ctx.date) then ApplyEvent(ctx, before, ev) else before
  }

  /** The filter-then-forEach of the intervention step, as one loop. */
  method ApplyInterventions(ctx: PeriodContext, st: EventState, evs: seq<Intervention>) returns (r: EventState)
    ensures r == ApplyEvents(ctx, st, evs)
  {
    r := st;
    for i := 0 to |evs|
      invariant r == ApplyEvents(ctx, st, evs[..i])
    {
      assert evs[..i + 1][..i] == evs[..i];
      if InPeriod(ctx.freq, evs[i].date, ctx.date) {
        r := ApplyEvent(ctx, r, evs[i]);
      }
    }
    assert evs[..|evs|] == evs;
  }

  /** Inside a fixed window no intervention touches the rate or the payment. */
  lemma {:induction false} FixedWindowKeepsRate(ctx: PeriodContext, st: EventState, evs: seq<Intervention>)
    requires ctx.inFixed
    ensures ApplyEvents(ctx, st, evs).rate == st.rate
    ensures ApplyEvents(ctx, st, evs).contrib == st.contrib
    decreases |evs|
  {
    if evs != [] {
      FixedWindowKeepsRate(ctx, st, evs[..|evs| - 1]);
    }
  }

  /** With an override, no intervention changes the payment. */
  lemma {:induction false} OverrideKeepsPayment(ctx: PeriodContext, st: EventState, evs: seq<Intervention>)
    requires ctx.overridden
    ensures ApplyEvents(ctx, st, evs).contrib == st.contrib
    decreases |evs|
  {
    if evs != [] {
      OverrideKeepsPayment(ctx, st, evs[..|evs| - 1]);
    }
  }

  predicate AllValuesNonNegative(evs: seq<Intervention>) {
    forall k :: 0 <= k < |evs| ==> evs[k].value >= 0.0
  }

  /**
   * Non-negative interventions never lower the facilities, never raise the
   * balance, and keep a non-negative rate non-negative.
   */
  lemma {:induction false} NonNegativeEvents(ctx: PeriodContext, st: EventState, evs: seq<Intervention>)
    requires AllValuesNonNegative(evs)
    ensures ApplyEvents(ctx, st, evs).offset >= st.offset
    ensures ApplyEvents(ctx, st, evs).redraw >= st.redraw
    ensures ApplyEvents(ctx, st, evs).balance <= st.balance
    ensures st.rate >= 0.0 ==> ApplyEvents(ctx, st, evs).rate >= 0.0
    decreases |evs|
  {
    if evs != [] {
      NonNegativeEvents(ctx, st, evs[..|evs| - 1]);
    }
  }

  /** The balance change the notes of a period record: fees add, lump sums subtract. */
  function Adjustment(notes: seq<Note>): real
    decreases |notes|
  {
    if notes == [] then 0.0
    else
      var n := notes[|notes| - 1];
      Adjustment(notes[..|notes| - 1]) + (match n case Fee(a) => a case Lump(a) => -a case _ => 0.0)
  }

  lemma {:induction false} AdjustmentAppend(a: seq<Note>, b: seq<Note>)
    ensures Adjustment(a + b) == Adjustment(a) + Adjustment(b)
    decreases |b|
  {
    if b == [] {
      assert a + b == a;
    } else {
      assert (a + b)[..|a + b| - 1] == a + b[..|b| - 1];
      AdjustmentAppend(a, b[..|b| - 1]);
    }
  }

  /** Notes that record no movement of money (the regime-change notes). */
  predicate NoMoney(notes: seq<Note>) {
    forall k :: 0 <= k < |notes| ==> !notes[k].Fee? && !notes[k].Lump?
  }

  lemma {:induction false} NoMoneyNoAdjustment(notes: seq<Note>)
    requires NoMoney(notes)
    ensures Adjustment(notes) == 0.0
    decreases |notes|
  {
    if notes != [] {
      NoMoneyNoAdjustment(notes[..|notes| - 1]);
    }
  }

  predicate NoRateNote(notes: seq<Note>) {
    forall k :: 0 <= k < |notes| ==> !notes[k].RateTo?
  }

  predicate NoFeeNote(notes: seq<Note>) {
    forall k :: 0 <= k < |notes| ==> !notes[k].Fee?
  }

  function Sum(xs: seq<real>): real
    decreases |xs|
  {
    if xs == [] then 0.0 else Sum(xs[..|xs| - 1]) + xs[|xs| - 1]
  }

  /** The notes one occurrence adds to its period's balance column. */
  function EventNotes(ctx: PeriodContext, ev: Intervention): seq<Note> {
    match ev.kind
    case LumpSum => [Lump(ev.value)]
    case RateChange => if ctx.inFixed then [] else [RateTo(ev.value)]
    case _ => []
  }

  /** The balance-column notes of all occurrences that fall in the period. */
  function PeriodNotes(ctx: PeriodContext, evs: seq<Intervention>): seq<Note>
    decreases |evs|
  {
    if evs == [] then []
    else
      var ev := evs[|evs| - 1];
      PeriodNotes(ctx, evs[..|evs| - 1]) + (if InPeriod(ctx.freq, ev.date, ctx.date) then EventNotes(ctx, ev) else [])
  }

  /** The amounts of the occurrences of `kind` that fall in the period. */
  function TopUps(ctx: PeriodContext, evs: seq<Intervention>, kind: InterventionKind): seq<real>
    decreases |evs|
  {
    if evs == [] then []
    else
      var ev := evs[|evs| - 1];
      TopUps(ctx, evs[..|evs| - 1], kind) + (if InPeriod(ctx.freq, ev.date, ctx.date) && ev.kind == kind then [ev.value] else [])
  }

  /**
   * The intervention step as the ledger sees it: the notes it appends, the
   * top-ups it records, a balance lowered by exactly the lump sums noted,
   * facilities raised by exactly the top-ups noted, and a variable rate
   * that moves only with a rate note.
   */
  lemma EventsLedger(ctx: PeriodContext, st: EventState, evs: seq<Intervention>)
    ensures var r := ApplyEvents(ctx, st, evs);
      && r.notes == st.notes + PeriodNotes(ctx, evs)
      && r.offsetNotes == st.offsetNotes + TopUps(ctx, evs, OffsetAdd)
      && r.redrawNotes == st.redrawNotes + TopUps(ctx, evs, RedrawAdd)
      && r.balance == st.balance + Adjustment(PeriodNotes(ctx, evs))
      && r.offset == st.offset + Sum(TopUps(ctx, evs, OffsetAdd))
      && r.redraw == st.redraw + Sum(TopUps(ctx, evs, RedrawAdd))
      && (NoRateNote(PeriodNotes(ctx, evs)) ==> r.rate == st.rate)
      && NoFeeNote(PeriodNotes(ctx, evs))
  {
    EventsNotes(ctx, st, evs);
    EventsBalance(ctx, st, evs);
    EventsTopUps(ctx, st, evs);
  }

  lemma {:induction false} EventsNotes(ctx: PeriodContext, st: EventState, evs: seq<Intervention>)
    ensures var r := ApplyEvents(ctx, st, evs);
      && r.notes == st.notes + PeriodNotes(ctx, evs)
      && (NoRateNote(PeriodNotes(ctx, evs)) ==> r.rate == st.rate)
      && NoFeeNote(PeriodNotes(ctx, evs))
    decreases |evs|
  {
    if evs != [] {
      var init, ev := evs[..|evs| - 1], evs[|evs| - 1];
      EventsNotes(ctx, st, init);
      var pn := PeriodNotes(ctx, init);
      var added := if InPeriod(ctx.freq, ev.date, ctx.date) then EventNotes(ctx, ev) else [];
      assert PeriodNotes(ctx, evs) == pn + added;
      assert NoRateNote(pn + added) ==> NoRateNote(pn) by {
        if NoRateNote(pn + added) {
          forall k | 0 <= k < |pn| ensures !pn[k].RateTo? { assert (pn + added)[k] == pn[k]; }
        }
      }
      if added != [] {
        assert (pn + added)[|pn|] == added[0];
      }
    }
  }

  /** One occurrence, in terms of the notes and top-ups it records. */
  lemma EventStep(ctx: PeriodContext, s: EventState, ev: Intervention)
    ensures var r := ApplyEvent(ctx, s, ev);
      && r.balance == s.balance + Adjustment(EventNotes(ctx, ev))
      && r.offset == s.offset + (if ev.kind == OffsetAdd then ev.value else 0.0)
      && r.redraw == s.redraw + (if ev.kind == RedrawAdd then ev.value else 0.0)
      && r.offsetNotes == s.offsetNotes + (if ev.kind == OffsetAdd then [ev.value] else [])
      && r.redrawNotes == s.redrawNotes + (if ev.kind == RedrawAdd then [ev.value] else [])
  {
    var n := EventNotes(ctx, ev);
    if n != [] {
      assert n[..0] == [];
    }
  }

  lemma {:induction false} EventsBalance(ctx: PeriodContext, st: EventState, evs: seq<Intervention>)
    ensures ApplyEvents(ctx, st, evs).balance == st.balance + Adjustment(PeriodNotes(ctx, evs))
    decreases |evs|
  {
    if evs != [] {
      var init, ev := evs[..|evs| - 1], evs[|evs| - 1];
      EventsBalance(ctx, st, init);
      var pn := PeriodNotes(ctx, init);
      var added := if InPeriod(ctx.freq, ev.date, ctx.date) then EventNotes(ctx, ev) else [];
      assert PeriodNotes(ctx, evs) == pn + added;
      AdjustmentAppend(pn, added);
      EventStep(ctx, ApplyEvents(ctx, st, init), ev);
      assert Adjustment([]) == 0.0;
    }
  }

  lemma EventsTopUps(ctx: PeriodContext, st: EventState, evs: seq<Intervention>)
    ensures var r := ApplyEvents(ctx, st, evs);
      && r.offsetNotes == st.offsetNotes + TopUps(ctx, evs, OffsetAdd)
      && r.redrawNotes == st.redrawNotes + TopUps(ctx, evs, RedrawAdd)
      && r.offset == st.offset + Sum(TopUps(ctx, evs, OffsetAdd))
      && r.redraw == st.redraw + Sum(TopUps(ctx, evs, RedrawAdd))
  {
    EventsOffset(ctx, st, evs);
    EventsRedraw(ctx, st, evs);
  }

  /** The offset grows by exactly the offset top-ups noted for the period. */
  lemma {:induction false} EventsOffset(ctx: PeriodContext, st: EventState, evs: seq<Intervention>)
    ensures var r := ApplyEvents(ctx, st, evs);
      && r.offsetNotes == st.offsetNotes + TopUps(ctx, evs, OffsetAdd)
      && r.offset == st.offset + Sum(TopUps(ctx, evs, OffsetAdd))
    decreases |evs|
  {
    if evs != [] {
      var init, ev := evs[..|evs| - 1], evs[|evs| - 1];
      EventsOffset(ctx, st, init);
      var o := TopUps(ctx, init, OffsetAdd);
      if InPeriod(ctx.freq, ev.date, ctx.date) {
        EventStep(ctx, ApplyEvents(ctx, st, init), ev);
      }
      if InPeriod(ctx.freq, ev.date, ctx.date) && ev.kind == OffsetAdd {
        assert (o + [ev.value])[..|o|] == o;
      } else {
        assert o + [] == o;
      }
    }
  }

  /** The redraw grows by exactly the redraw top-ups noted for the period. */
  lemma {:induction false} EventsRedraw(ctx: PeriodContext, st: EventState, evs: seq<Intervention>)
    ensures var r := ApplyEvents(ctx, st, evs);
      && r.redrawNotes == st.redrawNotes + TopUps(ctx, evs, RedrawAdd)
      && r.redraw == st.redraw + Sum(TopUps(ctx, evs, RedrawAdd))
    decreases |evs|
  {
    if evs != [] {
      var init, ev := evs[..|evs| - 1], evs[|evs| - 1];
      EventsRedraw(ctx, st, init);
      var d := TopUps(ctx, init, RedrawAdd);
      if InPeriod(ctx.freq, ev.date, ctx.date) {
        EventStep(ctx, ApplyEvents(ctx, st, init), ev);
      }
      if InPeriod(ctx.freq, ev.date, ctx.date) && ev.kind == RedrawAdd {
        assert (d + [ev.value])[..|d|] == d;
      } else {
        assert d + [] == d;
      }
    }
  }
}
