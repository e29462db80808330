/**
 * Calendar dates as the engine uses them: a year, a zero-based month and a
 * day of the month, with the roll-over rules of the JavaScript `Date`
 * setters (`setDate`, `setMonth`, `setFullYear`). Time of day and time
 * zones are not modelled.
 */
module Calendar {
  import opened Wrappers

  datatype CalDate = CalDate(year: int, month: int, day: int)

  predicate IsLeapYear(y: int) {
    y % 4 == 0 && (y % 100 != 0 || y % 400 == 0)
  }

  /** Days in month `m` (0 = January) of year `y`. */
  function DaysIn(y: int, m: int): (r: int)
    requires 0 <= m < 12
    ensures 28 <= r <= 31
  {
    if m == 1 then (if IsLeapYear(y) then 29 else 28)
    else if m == 3 || m == 5 || m == 8 || m == 10 then 30
    else 31
  }

  predicate IsValid(d: CalDate) {
    0 <= d.month < 12 && 1 <= d.day <= DaysIn(d.year, d.month)
  }

  /** A date as a JavaScript `Date` always holds it: normalised. */
  type Date = d: CalDate | IsValid(d) witness CalDate(2000, 0, 1)

  /** Months since January of year 0. */
  function MonthIndex(d: CalDate): int {
    d.year * 12 + d.month
  }

  /** A number that orders valid dates chronologically. */
  function Key(d: CalDate): int {
    MonthIndex(d) * 32 + d.day
  }

  predicate Before(a: Date, b: Date) { Key(a) < Key(b) }
  predicate AtOrBefore(a: Date, b: Date) { Key(a) <= Key(b) }

  /**
   * The date with month index `mi` and day `day`, rolling an overflowing day
   * into the next month as `Date` does (31 February becomes 3 March).
   */
  function FromMonthIndex(mi: int, day: int): (r: Date)
    requires 1 <= day <= 31
    ensures MonthIndex(r) == mi || MonthIndex(r) == mi + 1
    ensures MonthIndex(r) == mi <==> day <= DaysIn(mi / 12, mi % 12)
    ensures MonthIndex(r) == mi ==> r.day == day
    ensures MonthIndex(r) == mi + 1 ==> r.day == day - DaysIn(mi / 12, mi % 12)
  {
    var y, m := mi / 12, mi % 12;
    if day <= DaysIn(y, m) then CalDate(y, m, day)
    else
      var over := day - DaysIn(y, m);
      var y', m' := (mi + 1) / 12, (mi + 1) % 12;
      CalDate(y', m', over)
  }

  /**
   * `setMonth(getMonth() + k)`: the same day k months later when that month
   * has it; otherwise the days past the month's end spill into the next one.
   */
  function AddMonths(d: Date, k: nat): (r: Date)
    ensures MonthIndex(r) == MonthIndex(d) + k || MonthIndex(r) == MonthIndex(d) + k + 1
    ensures var t := MonthIndex(d) + k;
            d.day <= DaysIn(t / 12, t % 12) ==> MonthIndex(r) == t && r.day == d.day
    ensures var t := MonthIndex(d) + k;
            d.day > DaysIn(t / 12, t % 12) ==> MonthIndex(r) == t + 1 && r.day == d.day - DaysIn(t / 12, t % 12)
  {
    FromMonthIndex(MonthIndex(d) + k, d.day)
  }

  /**
   * `setFullYear(getFullYear() + n)`: the same month and day n years later,
   * except that 29 February becomes 1 March when the target year is not a
   * leap year.
   */
  function AddYears(d: Date, n: nat): (r: Date)
    ensures MonthIndex(r) == MonthIndex(d) + 12 * n || MonthIndex(r) == MonthIndex(d) + 12 * n + 1
    ensures d.day <= DaysIn(d.year + n, d.month) ==> r == CalDate(d.year + n, d.month, d.day)
    ensures d.day > DaysIn(d.year + n, d.month) ==>
              d.month == 1 && d.day == 29 && !IsLeapYear(d.year + n) && r == CalDate(d.year + n, 2, 1)
  {
    var t := MonthIndex(d) + 12 * n;
    assert t == (d.year + n) * 12 + d.month;
    assert t / 12 == d.year + n && t % 12 == d.month;
    FromMonthIndex(t, d.day)
  }

  /** The calendar day after `d`. */
  function NextDay(d: Date): (r: Date)
    ensures Key(r) > Key(d)
  {
    if d.day < DaysIn(d.year, d.month) then CalDate(d.year, d.month, d.day + 1)
    else if d.month < 11 then CalDate(d.year, d.month + 1, 1)
    else CalDate(d.year + 1, 0, 1)
  }

  /** `setDate(getDate() + n)`. */
  function AddDays(d: Date, n: nat): Date
    decreases n
  {
    if n == 0 then d else AddDays(NextDay(d), n - 1)
  }

  lemma {:induction false} AddDaysAdvances(d: Date, n: nat)
    ensures n == 0 ==> AddDays(d, n) == d
    ensures n > 0 ==> Key(AddDays(d, n)) > Key(d)
    ensures Key(AddDays(d, n)) >= Key(d) + n
    decreases n
  {
    if n > 0 {
      AddDaysAdvances(NextDay(d), n - 1);
    }
  }

  lemma AddMonthsAdvances(d: Date, k: nat)
    requires k > 0
    ensures Key(AddMonths(d, k)) > Key(d)
  {
    var r := AddMonths(d, k);
    assert MonthIndex(r) >= MonthIndex(d) + 1;
    assert Key(r) >= (MonthIndex(d) + 1) * 32 + 1;
  }

  lemma AddYearsAdvances(d: Date, n: nat)
    requires n > 0
    ensures Key(AddYears(d, n)) > Key(d)
  {
    var r := AddYears(d, n);
    assert MonthIndex(r) >= MonthIndex(d) + 1;
    assert Key(r) >= (MonthIndex(d) + 1) * 32 + 1;
  }

  /** `monthsBetween`: whole calendar months from `d1` to `d2`, 0 when either is absent. */
  function MonthsBetween(d1: Option<Date>, d2: Option<Date>): (r: int)
    ensures d1.None? || d2.None? ==> r == 0
    ensures d1.Some? && d2.Some? ==> r == MonthIndex(d2.value) - MonthIndex(d1.value)
  {
    if d1.None? || d2.None? then 0
    else (d2.value.year - d1.value.year) * 12 + (d2.value.month - d1.value.month)
  }

  /** Adding `k` months and counting the months back gives `k`, unless the day rolls over. */
  lemma MonthsBetweenAddMonths(d: Date, k: nat)
    requires d.day <= 28
    ensures MonthsBetween(Some(d), Some(AddMonths(d, k))) == k
  {
    var mi := MonthIndex(d) + k;
    assert DaysIn(mi / 12, mi % 12) >= 28;
  }
}
