/** Reporting periods of the consultant timesheet and its single running timer
    (mac_audit_agent/consultant_timesheet.py), over the proleptic Gregorian
    calendar of years 1 to 9999. Instants are wall-clock readings of one zone. */
module TimesheetPeriods {
  import opened Common
  import opened Rounding

  // ---------- the calendar ----------

  const MAXYEAR := 9999

  predicate IsLeap(y: int) {
    y % 4 == 0 && (y % 100 != 0 || y % 400 == 0)
  }

  function DaysInMonth(y: int, m: int): int {
    if m == 2 then (if IsLeap(y) then 29 else 28)
    else if m in {4, 6, 9, 11} then 30 else 31
  }

  datatype Date = Date(year: int, month: int, day: int)

  predicate Valid(d: Date) {
    1 <= d.year <= MAXYEAR && 1 <= d.month <= 12 && 1 <= d.day <= DaysInMonth(d.year, d.month)
  }

  function NextDay(d: Date): Option<Date> {
    if d.day < DaysInMonth(d.year, d.month) then Some(d.(day := d.day + 1))
    else if d.month < 12 then Some(Date(d.year, d.month + 1, 1))
    else if d.year < MAXYEAR then Some(Date(d.year + 1, 1, 1))
    else None
  }

  function PreviousDay(d: Date): Option<Date> {
    if d.day > 1 then Some(d.(day := d.day - 1))
    else if d.month > 1 then Some(Date(d.year, d.month - 1, DaysInMonth(d.year, d.month - 1)))
    else if d.year > 1 then Some(Date(d.year - 1, 12, 31))
    else None
  }

  /** Adding a number of days; None where the source overflows. */
  function PlusDays(d: Date, n: nat): Option<Date>
    decreases n
  {
    if n == 0 then Some(d)
    else
      match NextDay(d)
      case None => None
      case Some(e) => PlusDays(e, n - 1)
  }

  function MinusDays(d: Date, n: nat): Option<Date>
    decreases n
  {
    if n == 0 then Some(d)
    else
      match PreviousDay(d)
      case None => None
      case Some(e) => MinusDays(e, n - 1)
  }

  function DaysBeforeYear(y: int): int {
    (y - 1) * 365 + (y - 1) / 4 - (y - 1) / 100 + (y - 1) / 400
  }

  function DaysBeforeMonth(y: int, m: int): int
    requires 1 <= m <= 13
  {
    if m == 1 then 0 else DaysBeforeMonth(y, m - 1) + DaysInMonth(y, m - 1)
  }

  /** The number of the day; 1 is the first of January of year 1. */
  function Ordinal(d: Date): int
    requires 1 <= d.month <= 12
  {
    DaysBeforeYear(d.year) + DaysBeforeMonth(d.year, d.month) + d.day
  }

  /** Monday is 0; day 1 was a Monday. */
  function Weekday(d: Date): nat
    requires 1 <= d.month <= 12
  {
    (Ordinal(d) + 6) % 7
  }

  // ---------- the calendar counts days ----------

  /** Weekdays count from a known Monday, the first of January 2024, and so does
      the first of January 1900. */
  lemma WeekdayIsAnchored(d: Date)
    requires Valid(d)
    ensures Weekday(d) == (Ordinal(d) - Ordinal(Date(2024, 1, 1))) % 7
    ensures Weekday(Date(2024, 1, 1)) == 0 && Weekday(Date(1900, 1, 1)) == 0
  {
    assert Ordinal(Date(2024, 1, 1)) == 738886 && Ordinal(Date(1900, 1, 1)) == 693596;
    SevenApart(Ordinal(d));
  }

  lemma SevenApart(o: int)
    ensures (o + 6) % 7 == (o - 738886) % 7
  {
    assert o + 6 == (o - 738886) + 7 * 105556;
  }

  lemma DivStep(a: int, k: int)
    requires a >= 0 && k > 0
    ensures (a + 1) / k == a / k + (if (a + 1) % k == 0 then 1 else 0)
  {
    var q, r := a / k, a % k;
    assert a == k * q + r;
    if r + 1 == k {
      Quotient(a + 1, k, q + 1, 0);
    } else {
      Quotient(a + 1, k, q, r + 1);
    }
  }

  lemma Quotient(a: int, k: int, q: int, r: int)
    requires k > 0 && a == k * q + r && 0 <= r < k
    ensures a / k == q && a % k == r
  {
    var p, s := a / k, a % k;
    assert a == k * p + s;
    assert k * (p - q) == r - s;
    if p > q { MulLe(1, p - q, k); }
    if p < q { MulLe(p - q, -1, k); }
  }

  lemma DaysInYear(y: int)
    ensures DaysBeforeMonth(y, 13) == 365 + (if IsLeap(y) then 1 else 0)
  {
    var leap := if IsLeap(y) then 1 else 0;
    assert DaysBeforeMonth(y, 2) == 31;
    assert DaysBeforeMonth(y, 3) == 59 + leap;
    assert DaysBeforeMonth(y, 4) == 90 + leap;
    assert DaysBeforeMonth(y, 5) == 120 + leap;
    assert DaysBeforeMonth(y, 6) == 151 + leap;
    assert DaysBeforeMonth(y, 7) == 181 + leap;
    assert DaysBeforeMonth(y, 8) == 212 + leap;
    assert DaysBeforeMonth(y, 9) == 243 + leap;
    assert DaysBeforeMonth(y, 10) == 273 + leap;
    assert DaysBeforeMonth(y, 11) == 304 + leap;
    assert DaysBeforeMonth(y, 12) == 334 + leap;
  }

  lemma YearLength(y: int)
    requires y >= 1
    ensures DaysBeforeYear(y + 1) == DaysBeforeYear(y) + 365 + (if IsLeap(y) then 1 else 0)
    ensures DaysBeforeMonth(y, 13) == 365 + (if IsLeap(y) then 1 else 0)
  {
    DaysInYear(y);
    DivStep(y - 1, 4);
    DivStep(y - 1, 100);
    DivStep(y - 1, 400);
    assert y % 400 == 0 ==> y % 100 == 0;
    assert y % 100 == 0 ==> y % 4 == 0;
  }

  lemma NextDayCounts(d: Date)
    requires Valid(d)
    ensures NextDay(d).Some? ==> Valid(NextDay(d).value) && Ordinal(NextDay(d).value) == Ordinal(d) + 1
    ensures NextDay(d) == None <==> d == Date(MAXYEAR, 12, 31)
  {
    YearLength(d.year);
    assert DaysBeforeMonth(d.year, d.month + 1) == DaysBeforeMonth(d.year, d.month) + DaysInMonth(d.year, d.month);
  }

  lemma PreviousDayCounts(d: Date)
    requires Valid(d)
    ensures PreviousDay(d).Some? ==> Valid(PreviousDay(d).value) && Ordinal(PreviousDay(d).value) == Ordinal(d) - 1
    ensures PreviousDay(d) == None <==> d == Date(1, 1, 1)
  {
    if d.year > 1 { YearLength(d.year - 1); }
    assert d.month > 1 ==> DaysBeforeMonth(d.year, d.month) == DaysBeforeMonth(d.year, d.month - 1) + DaysInMonth(d.year, d.month - 1);
  }

  lemma {:induction false} PlusDaysCounts(d: Date, n: nat)
    requires Valid(d)
    ensures PlusDays(d, n).Some? ==> Valid(PlusDays(d, n).value) && Ordinal(PlusDays(d, n).value) == Ordinal(d) + n
    ensures PlusDays(d, n) == None <==> Ordinal(d) + n > Ordinal(Date(MAXYEAR, 12, 31))
    decreases n
  {
    NextDayCounts(d);
    OrdinalOrders(d, Date(MAXYEAR, 12, 31));
    if n > 0 && NextDay(d).Some? {
      PlusDaysCounts(NextDay(d).value, n - 1);
    }
  }

  lemma PreviousDayExists(d: Date)
    requires Valid(d) && Ordinal(d) > 1
    ensures PreviousDay(d).Some? && Valid(PreviousDay(d).value) && Ordinal(PreviousDay(d).value) == Ordinal(d) - 1
  {
    PreviousDayCounts(d);
    NotTheFirst(d);
  }

  lemma NotTheFirst(d: Date)
    requires Valid(d) && Ordinal(d) > 1
    ensures d != Date(1, 1, 1)
  {
    if d.year == 1 && d.month == 1 {
      assert DaysBeforeYear(d.year) == 0 && DaysBeforeMonth(d.year, d.month) == 0;
      assert d.day > 1;
    }
  }

  lemma {:induction false} MinusDaysCounts(d: Date, n: nat, o: int)
    requires Valid(d) && o == Ordinal(d) && o > n
    ensures MinusDays(d, n).Some? && Valid(MinusDays(d, n).value) && Ordinal(MinusDays(d, n).value) == o - n
    decreases n
  {
    if n > 0 {
      PreviousDayExists(d);
      MinusDaysCounts(PreviousDay(d).value, n - 1, o - 1);
    }
  }

  lemma {:induction false} MonthsAddUp(y: int, m: int, m': int)
    requires 1 <= m <= m' <= 13
    ensures DaysBeforeMonth(y, m) <= DaysBeforeMonth(y, m')
    decreases m' - m
  {
    if m < m' { MonthsAddUp(y, m, m' - 1); }
  }

  lemma {:induction false} YearsAddUp(y: int, y': int)
    requires 1 <= y <= y'
    ensures DaysBeforeYear(y) <= DaysBeforeYear(y')
    decreases y' - y
  {
    if y < y' {
      YearsAddUp(y, y' - 1);
      YearLength(y' - 1);
    }
  }

  predicate Earlier(a: Date, b: Date) {
    a.year < b.year || (a.year == b.year && (a.month < b.month || (a.month == b.month && a.day < b.day)))
  }

  lemma EarlierCounts(a: Date, b: Date)
    requires Valid(a) && Valid(b) && Earlier(a, b)
    ensures Ordinal(a) < Ordinal(b)
  {
    if a.year < b.year {
      MonthsAddUp(a.year, a.month + 1, 13);
      YearLength(a.year);
      YearsAddUp(a.year + 1, b.year);
      MonthsAddUp(b.year, 1, b.month);
    } else if a.month < b.month {
      MonthsAddUp(a.year, a.month + 1, b.month);
    }
  }

  /** Day numbers order dates as the calendar does, and tell them apart. */
  lemma OrdinalOrders(a: Date, b: Date)
    requires Valid(a) && Valid(b)
    ensures Ordinal(a) < Ordinal(b) <==> Earlier(a, b)
    ensures Ordinal(a) == Ordinal(b) <==> a == b
  {
    if Earlier(a, b) { EarlierCounts(a, b); }
    if Earlier(b, a) { EarlierCounts(b, a); }
  }

  // ---------- instants and periods ----------

  const DAY: int := 86400000000

  /** A date and the microseconds since its midnight. */
  datatype Instant = Instant(date: Date, micros: int)

  predicate Possible(t: Instant) {
    Valid(t.date) && 0 <= t.micros < DAY
  }

  predicate NotAfter(a: Instant, b: Instant) {
    Earlier(a.date, b.date) || (a.date == b.date && a.micros <= b.micros)
  }

  predicate Before(a: Instant, b: Instant) {
    Earlier(a.date, b.date) || (a.date == b.date && a.micros < b.micros)
  }

  datatype Period = Daily | Weekly | Monthly | OtherPeriod

  datatype Bounds = Unbounded | Bounds(start: Instant, end: Instant)

  function Midnight(d: Date): Instant {
    Instant(d, 0)
  }

  /** The first instant of the period that `now` lies in. */
  function StartDate(p: Period, now: Instant): Option<Date>
    requires 1 <= now.date.month <= 12
  {
    match p
    case Daily => Some(now.date)
    case Weekly => MinusDays(now.date, Weekday(now.date))
    case Monthly => Some(now.date.(day := 1))
    case OtherPeriod => None
  }

  /** The end: a day or a week on, or the first of the month that day 28 plus
      four days falls in. */
  function EndDate(p: Period, start: Date): Option<Date> {
    match p
    case Daily => PlusDays(start, 1)
    case Weekly => PlusDays(start, 7)
    case Monthly =>
      (match PlusDays(start.(day := 28), 4)
       case None => None
       case Some(d) => Some(d.(day := 1)))
    case OtherPeriod => None
  }

  datatype Overflow = Overflow

  /** `range_bounds`; date arithmetic past year 9999 raises OverflowError. */
  function RangeBounds(p: Period, now: Instant): Result<Bounds, Overflow>
    requires 1 <= now.date.month <= 12
  {
    if p == OtherPeriod then Ok(Unbounded)
    else
      match StartDate(p, now)
      case None => Err(Overflow)
      case Some(start) =>
        match EndDate(p, start)
        case None => Err(Overflow)
        case Some(end) => Ok(Bounds(Midnight(start), Midnight(end)))
  }

  function FirstOfNextMonth(y: int, m: int): Date {
    if m < 12 then Date(y, m + 1, 1) else Date(y + 1, 1, 1)
  }

  /** Day 28 plus four days always lands in the next month. */
  lemma FourDaysAfterThe28th(y: int, m: int)
    requires 1 <= y <= MAXYEAR && 1 <= m <= 12
    ensures var r := PlusDays(Date(y, m, 28), 4);
            && (r == None <==> y == MAXYEAR && m == 12)
            && (r.Some? ==> r.value.(day := 1) == FirstOfNextMonth(y, m) && r.value.day == 32 - DaysInMonth(y, m))
  {
    var d1 := NextDay(Date(y, m, 28));
    if d1.Some? {
      var d2 := NextDay(d1.value);
      if d2.Some? {
        var d3 := NextDay(d2.value);
        assert PlusDays(Date(y, m, 28), 4) == PlusDays(d2.value, 2);
        if d3.Some? { assert PlusDays(d2.value, 2) == NextDay(d3.value); }
      }
    }
  }

  // ---------- the periods partition time ----------

  lemma WithinByOrdinals(s: Date, e: Date, t: Instant)
    requires Valid(s) && Valid(e) && Possible(t)
    ensures NotAfter(Midnight(s), t) <==> Ordinal(s) <= Ordinal(t.date)
    ensures Before(t, Midnight(e)) <==> Ordinal(t.date) < Ordinal(e)
  {
    OrdinalOrders(s, t.date);
    OrdinalOrders(t.date, e);
  }

  lemma WeekStart(d: Date)
    requires Valid(d)
    ensures Ordinal(d) > Weekday(d)
    ensures MinusDays(d, Weekday(d)).Some?
    ensures var s := MinusDays(d, Weekday(d)).value; Valid(s) && Ordinal(s) == Ordinal(d) - Weekday(d)
  {
    OrdinalIsPositive(d);
    MinusDaysCounts(d, Weekday(d), Ordinal(d));
  }

  lemma OrdinalIsPositive(d: Date)
    requires Valid(d)
    ensures Ordinal(d) >= 1
  {
    MonthsAddUp(d.year, 1, d.month);
    YearsAddUp(1, d.year);
  }

  /** Where a period starts and ends, in day numbers. */
  lemma PeriodDays(p: Period, now: Instant, s: Date, e: Date)
    requires Possible(now) && p != OtherPeriod
    requires StartDate(p, now) == Some(s) && EndDate(p, s) == Some(e)
    ensures Valid(s) && Valid(e)
    ensures p == Daily ==> s == now.date && Ordinal(e) == Ordinal(s) + 1
    ensures p == Weekly ==> Ordinal(s) == Ordinal(now.date) - Weekday(now.date) && Ordinal(e) == Ordinal(s) + 7
    ensures p == Monthly ==> s == Date(now.date.year, now.date.month, 1) && e == FirstOfNextMonth(now.date.year, now.date.month)
  {
    match p
    case Daily => PlusDaysCounts(s, 1);
    case Weekly => WeekStart(now.date); PlusDaysCounts(s, 7);
    case Monthly => FourDaysAfterThe28th(now.date.year, now.date.month);
  }

  lemma SameMonthByOrdinals(y: int, m: int, d: Date)
    requires Valid(Date(y, m, 1)) && Valid(FirstOfNextMonth(y, m)) && Valid(d)
    ensures Ordinal(Date(y, m, 1)) <= Ordinal(d) < Ordinal(FirstOfNextMonth(y, m)) <==> d.year == y && d.month == m
  {
    OrdinalOrders(d, Date(y, m, 1));
    OrdinalOrders(d, FirstOfNextMonth(y, m));
  }

  lemma SameWeekByOrdinals(a: Date, b: Date)
    requires Valid(a) && Valid(b)
    ensures Ordinal(a) - Weekday(a) <= Ordinal(b) < Ordinal(a) - Weekday(a) + 7 <==> Ordinal(a) - Weekday(a) == Ordinal(b) - Weekday(b)
  {}

  lemma SameStart(p: Period, now: Instant, t: Instant, s: Date, e: Date)
    requires Possible(now) && Possible(t) && p != OtherPeriod && Valid(s) && Valid(e)
    requires StartDate(p, now) == Some(s) && EndDate(p, s) == Some(e)
    ensures Ordinal(s) <= Ordinal(t.date) < Ordinal(e) <==> StartDate(p, t) == Some(s)
  {
    PeriodDays(p, now, s, e);
    match p
    case Daily => OrdinalOrders(s, t.date);
    case Weekly =>
      WeekStart(now.date);
      WeekStart(t.date);
      SameWeekByOrdinals(now.date, t.date);
      OrdinalOrders(s, MinusDays(t.date, Weekday(t.date)).value);
    case Monthly => SameMonthByOrdinals(s.year, s.month, t.date);
  }

  lemma WeekEndIsMonday(d: Date, e: Date)
    requires Valid(d) && Valid(e) && Ordinal(e) == Ordinal(d) - Weekday(d) + 7
    ensures Weekday(e) == 0 && StartDate(Weekly, Midnight(e)) == Some(e)
  {}

  lemma EndStartsNext(p: Period, now: Instant, s: Date, e: Date)
    requires Possible(now) && p != OtherPeriod && Valid(e)
    requires StartDate(p, now) == Some(s) && EndDate(p, s) == Some(e)
    ensures StartDate(p, Midnight(e)) == Some(e)
  {
    PeriodDays(p, now, s, e);
    match p
    case Daily =>
    case Weekly => WeekEndIsMonday(now.date, e);
    case Monthly =>
  }

  /** s and e are the day, the week from its Monday on, or the calendar month
      that d lies in. */
  predicate Spans(p: Period, d: Date, s: Date, e: Date)
    requires Valid(d) && Valid(s) && Valid(e)
  {
    match p
    case Daily => s == d && Ordinal(e) == Ordinal(d) + 1
    case Weekly => Weekday(s) == 0 && Ordinal(e) == Ordinal(s) + 7 && Ordinal(s) <= Ordinal(d) < Ordinal(e)
    case Monthly => s == Date(d.year, d.month, 1) && e == FirstOfNextMonth(d.year, d.month)
    case OtherPeriod => false
  }

  lemma MondayBefore(d: Date, s: Date)
    requires Valid(d) && Valid(s) && Ordinal(s) == Ordinal(d) - Weekday(d)
    ensures Weekday(s) == 0 && Ordinal(s) <= Ordinal(d) < Ordinal(s) + 7
  {}

  lemma PeriodSpans(p: Period, now: Instant, s: Date, e: Date)
    requires Possible(now) && p != OtherPeriod && StartDate(p, now) == Some(s) && EndDate(p, s) == Some(e)
    ensures Valid(s) && Valid(e) && Spans(p, now.date, s, e)
  {
    PeriodDays(p, now, s, e);
    if p == Weekly { MondayBefore(now.date, s); }
  }

  /** What the bounds are: midnight to midnight, spanning the period's days. */
  lemma BoundsAre(p: Period, now: Instant)
    requires Possible(now) && RangeBounds(p, now).Ok?
    ensures var b := RangeBounds(p, now).value;
            && (b == Unbounded <==> p == OtherPeriod)
            && (b.Bounds? ==>
                  && b.start.micros == 0 && b.end.micros == 0 && Valid(b.start.date) && Valid(b.end.date)
                  && Spans(p, now.date, b.start.date, b.end.date))
  {
    if p != OtherPeriod {
      var s := StartDate(p, now).value;
      PeriodSpans(p, now, s, EndDate(p, s).value);
    }
  }

  /** A period contains the instant it was computed for; exactly the instants it
      contains have the same bounds; and the next period starts where it ends. */
  lemma PeriodsPartitionTime(p: Period, now: Instant, t: Instant)
    requires Possible(now) && Possible(t) && p != OtherPeriod && RangeBounds(p, now).Ok?
    ensures var b := RangeBounds(p, now).value;
            && b.Bounds? && Possible(b.start) && Possible(b.end)
            && NotAfter(b.start, now) && Before(now, b.end)
            && (NotAfter(b.start, t) && Before(t, b.end) <==> RangeBounds(p, t) == Ok(b))
            && (RangeBounds(p, b.end).Ok? ==> RangeBounds(p, b.end).value.start == b.end)
  {
    var s := StartDate(p, now).value;
    var e := EndDate(p, s).value;
    PeriodDays(p, now, s, e);
    WithinByOrdinals(s, e, now);
    WithinByOrdinals(s, e, t);
    SameStart(p, now, now, s, e);
    SameStart(p, now, t, s, e);
    EndStartsNext(p, now, s, e);
  }

  /** Bounds fail to exist only for the last day, week or month of year 9999. */
  lemma OverflowExactly(p: Period, now: Instant)
    requires Possible(now)
    ensures RangeBounds(p, now) == Err(Overflow) <==>
              match p
              case Daily => now.date == Date(MAXYEAR, 12, 31)
              case Weekly => Ordinal(now.date) - Weekday(now.date) + 7 > Ordinal(Date(MAXYEAR, 12, 31))
              case Monthly => now.date.year == MAXYEAR && now.date.month == 12
              case OtherPeriod => false
  {
    match p
    case Daily => NextDayCounts(now.date); PlusDaysCounts(now.date, 1); OrdinalOrders(now.date, Date(MAXYEAR, 12, 31));
    case Weekly => WeekStart(now.date); PlusDaysCounts(MinusDays(now.date, Weekday(now.date)).value, 7);
    case Monthly => FourDaysAfterThe28th(now.date.year, now.date.month);
    case OtherPeriod =>
  }
}
