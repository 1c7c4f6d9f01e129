/**
 Budget periods: the period identifier of an instant and the instant the next period starts, over the
 proleptic Gregorian calendar Go's `time` package uses. An instant is a count of nanoseconds since
 0001-01-01T00:00:00Z, which is a Monday.
 */
module Periods {
  import opened Decimal

  const NS_PER_SECOND := 1_000_000_000
  const NS_PER_DAY := 86400 * NS_PER_SECOND

  datatype Scheme = Monthly | Weekly | Daily | NoPeriod

  predicate Leap(y: int) { y % 4 == 0 && (y % 100 != 0 || y % 400 == 0) }

  /** The day number of January 1st. */
  function YearStart(y: int): int {
    365 * (y - 1) + (y - 1) / 4 - (y - 1) / 100 + (y - 1) / 400
  }

  /** Days of the year before a month; month 13 gives the year's length. */
  function DaysBefore(leap: bool, m: int): int
    requires 1 <= m <= 13
  {
    (if m <= 4 then if m == 1 then 0 else if m == 2 then 31 else if m == 3 then 59 else 90
     else if m <= 8 then if m == 5 then 120 else if m == 6 then 151 else if m == 7 then 181 else 212
     else if m == 9 then 243 else if m == 10 then 273 else if m == 11 then 304 else if m == 12 then 334 else 365)
    + if leap && m > 2 then 1 else 0
  }

  lemma DivStep(y: int, k: int)
    requires k == 4 || k == 100 || k == 400
    ensures y / k == (y - 1) / k + if y % k == 0 then 1 else 0
  {
  }

  lemma CenturiesAreMultiples(y: int)
    ensures y % 400 == 0 ==> y % 100 == 0
    ensures y % 100 == 0 ==> y % 4 == 0
  {
    Multiple(y / 400 * 4, 100);
    Multiple(y / 100 * 25, 4);
  }

  lemma Multiple(q: int, k: int)
    requires k == 4 || k == 100
    ensures q * k % k == 0
  {
  }

  lemma LeapDays(y: int)
    ensures y / 4 - y / 100 + y / 400 == (y - 1) / 4 - (y - 1) / 100 + (y - 1) / 400 + if Leap(y) then 1 else 0
  {
    DivStep(y, 4);
    DivStep(y, 100);
    DivStep(y, 400);
    CenturiesAreMultiples(y);
  }

  lemma YearLength(y: int)
    ensures YearStart(y + 1) == YearStart(y) + DaysBefore(Leap(y), 13)
  {
    hide Leap;
    LeapDays(y);
  }

  lemma {:induction false} YearStartMonotone(y: int, z: int)
    requires y <= z
    ensures YearStart(y) + 365 * (z - y) <= YearStart(z)
    decreases z - y
  {
    if y < z {
      YearStartMonotone(y, z - 1);
      YearLength(z - 1);
    }
  }

  lemma YearStartBounds(y: int)
    ensures 146097 * (y - 1) - 800 <= 400 * YearStart(y) <= 146097 * (y - 1) + 800
  {
  }

  function YearOf(day: int): (y: int)
    ensures YearStart(y) <= day < YearStart(y + 1)
  {
    var e := 400 * day / 146097 + 1;
    YearStartBounds(e - 1);
    YearStartBounds(e);
    YearStartBounds(e + 1);
    YearStartBounds(e + 2);
    if day < YearStart(e) then e - 1 else if day >= YearStart(e + 1) then e + 1 else e
  }

  /** The zero-based day of the year. */
  function YearDay(day: int): (d: int)
    ensures 0 <= d < DaysBefore(Leap(YearOf(day)), 13)
  {
    YearLength(YearOf(day));
    day - YearStart(YearOf(day))
  }

  function MonthFrom(leap: bool, yday: int, m: int): (r: int)
    requires 1 <= m <= 12 && DaysBefore(leap, m) <= yday < DaysBefore(leap, 13)
    ensures m <= r <= 12 && DaysBefore(leap, r) <= yday < DaysBefore(leap, r + 1)
    decreases 12 - m
  {
    if yday < DaysBefore(leap, m + 1) then m else MonthFrom(leap, yday, m + 1)
  }

  function MonthOf(day: int): (m: int)
    ensures 1 <= m <= 12
  {
    MonthFrom(Leap(YearOf(day)), YearDay(day), 1)
  }

  function DayOfMonth(day: int): (d: int)
    ensures 1 <= d <= 31
  {
    YearDay(day) - DaysBefore(Leap(YearOf(day)), MonthOf(day)) + 1
  }

  /** The day number of `time.Date(y, m, d)`, with Go's normalisation of an out-of-range month. */
  function DateDay(y: int, m: int, d: int): int {
    var year := y + (m - 1) / 12;
    YearStart(year) + DaysBefore(Leap(year), (m - 1) % 12 + 1) + d - 1
  }

  /** The day's ISO week is the week of its Thursday. */
  function Thursday(day: int): int { day - day % 7 + 3 }

  /** ISO week-numbering year and week, section 4.1.4 of ISO 8601:2004. */
  function IsoYear(day: int): int { YearOf(Thursday(day)) }

  function IsoWeek(day: int): (w: int)
    ensures 1 <= w <= 53
  {
    YearDay(Thursday(day)) / 7 + 1
  }

  function DayOf(t: int): int { t / NS_PER_DAY }

  function PeriodKey(scheme: Scheme, t: int): string {
    var day := DayOf(t);
    match scheme
    case Monthly => IntField(YearOf(day), 4) + "-" + Pad2(MonthOf(day))
    case Weekly => IntField(IsoYear(day), 1) + "-W" + Pad2(IsoWeek(day))
    case Daily => IntField(YearOf(day), 4) + "-" + Pad2(MonthOf(day)) + "-" + Pad2(DayOfMonth(day))
    case NoPeriod => ""
  }

  /** Go numbers weekdays from Sunday. */
  function Weekday(day: int): int { (day + 1) % 7 }

  function NextPeriodDay(scheme: Scheme, day: int): int {
    match scheme
    case Monthly => DateDay(YearOf(day), MonthOf(day) + 1, 1)
    case Weekly =>
      var untilMonday := (8 - Weekday(day)) % 7;
      DateDay(YearOf(day), MonthOf(day), DayOfMonth(day)) + if untilMonday == 0 then 7 else untilMonday
    case _ => DateDay(YearOf(day), MonthOf(day), DayOfMonth(day)) + 1
  }

  function NextPeriodStart(scheme: Scheme, t: int): int {
    NextPeriodDay(scheme, DayOf(t)) * NS_PER_DAY
  }

  // ---- Correctness of the calendar ----

  lemma DateRoundTrip(day: int)
    ensures DateDay(YearOf(day), MonthOf(day), DayOfMonth(day)) == day
  {
    hide YearStart, Leap, YearOf, MonthFrom;
    var m := MonthOf(day);
    assert (m - 1) / 12 == 0 && (m - 1) % 12 == m - 1;
  }

  /** `Date(y, m + 1, 1)` is the day after the month's last, in December too. */
  lemma NextMonth(y: int, m: int)
    requires 1 <= m <= 12
    ensures DateDay(y, m + 1, 1) == YearStart(y) + DaysBefore(Leap(y), m + 1)
  {
    hide YearStart, Leap;
    YearLength(y);
  }

  lemma NextMonthBounds(day: int)
    ensures DateDay(YearOf(day), MonthOf(day), 1) <= day < DateDay(YearOf(day), MonthOf(day) + 1, 1)
  {
    hide YearStart, Leap, YearOf, MonthFrom;
    NextMonth(YearOf(day), MonthOf(day));
  }

  /** Months are ordered like (year, month), so a day lies in exactly one of them. */
  lemma MonthOrder(d: int, e: int)
    requires d <= e
    ensures YearOf(d) < YearOf(e) || (YearOf(d) == YearOf(e) && MonthOf(d) <= MonthOf(e))
  {
    hide YearStart, Leap, YearOf, MonthFrom;
    var y, z := YearOf(d), YearOf(e);
    if z < y {
      YearStartMonotone(z + 1, y);
    } else if y == z && MonthOf(e) < MonthOf(d) {
      DaysBeforeMonotone(Leap(y), MonthOf(e) + 1, MonthOf(d));
    }
  }

  lemma DaysBeforeMonotone(leap: bool, m: int, n: int)
    requires 1 <= m <= n <= 13
    ensures DaysBefore(leap, m) <= DaysBefore(leap, n)
  {
  }

  lemma MonthlyExact(d: int, e: int)
    requires d <= e
    ensures (YearOf(e) == YearOf(d) && MonthOf(e) == MonthOf(d)) <==> e < NextPeriodDay(Monthly, d)
  {
    hide YearStart, Leap, YearOf, MonthFrom;
    NextMonthBounds(d);
    NextMonth(YearOf(d), MonthOf(d));
    var y, m := YearOf(d), MonthOf(d);
    if YearOf(e) == y && MonthOf(e) == m {
      NextMonthBounds(e);
    } else if e < NextPeriodDay(Monthly, d) {
      MonthOrder(d, e);
      YearLength(y);
      if YearOf(e) == y {
        DaysBeforeMonotone(Leap(y), m + 1, MonthOf(e));
      } else {
        YearStartMonotone(y + 1, YearOf(e));
        DaysBeforeMonotone(Leap(y), m + 1, 13);
      }
    }
  }

  lemma ThursdayIsDay3(d: int)
    ensures Thursday(d) % 7 == 3
  {
  }

  lemma WeekBounds(d: int, e: int)
    requires d <= e
    ensures e < d - d % 7 + 7 <==> Thursday(d) == Thursday(e)
  {
  }

  lemma NextMonday(d: int)
    ensures NextPeriodDay(Weekly, d) == d - d % 7 + 7
  {
    hide YearStart, Leap, YearOf, MonthFrom, DateDay, DaysBefore;
    DateRoundTrip(d);
  }

  lemma WeeklyExact(d: int, e: int)
    requires d <= e
    ensures (IsoYear(e) == IsoYear(d) && IsoWeek(e) == IsoWeek(d)) <==> e < NextPeriodDay(Weekly, d)
  {
    hide YearStart, Leap, YearOf, MonthFrom, DateDay, DaysBefore;
    hide NextPeriodDay, Thursday;
    NextMonday(d);
    WeekBounds(d, e);
    var p, q := Thursday(d), Thursday(e);
    assert p % 7 == q % 7 == 3 by { ThursdayIsDay3(d); ThursdayIsDay3(e); }
    if IsoYear(e) == IsoYear(d) && IsoWeek(e) == IsoWeek(d) {
      assert YearDay(q) - YearDay(p) == q - p;
      assert YearDay(p) / 7 == YearDay(q) / 7;
    }
  }

  lemma DailyExact(d: int, e: int)
    ensures (YearOf(e) == YearOf(d) && MonthOf(e) == MonthOf(d) && DayOfMonth(e) == DayOfMonth(d)) <==> e == d
    ensures NextPeriodDay(Daily, d) == d + 1
  {
    DateRoundTrip(d);
    DateRoundTrip(e);
  }

  /** Two keys of one scheme agree exactly when their fields agree. */
  lemma KeyFields(scheme: Scheme, t: int, u: int)
    requires scheme != NoPeriod
    ensures
      var d, e := DayOf(t), DayOf(u);
      PeriodKey(scheme, t) == PeriodKey(scheme, u) <==>
      match scheme
      case Weekly => IsoYear(e) == IsoYear(d) && IsoWeek(e) == IsoWeek(d)
      case Monthly => YearOf(e) == YearOf(d) && MonthOf(e) == MonthOf(d)
      case _ => YearOf(e) == YearOf(d) && MonthOf(e) == MonthOf(d) && DayOfMonth(e) == DayOfMonth(d)
  {
    var d, e := DayOf(t), DayOf(u);
    match scheme
    case Monthly =>
      TwoFields(YearOf(d), "-", MonthOf(d), YearOf(e), MonthOf(e), 4);
    case Weekly =>
      TwoFields(IsoYear(d), "-W", IsoWeek(d), IsoYear(e), IsoWeek(e), 1);
    case Daily =>
      var p, q := IntField(YearOf(d), 4) + "-" + Pad2(MonthOf(d)), IntField(YearOf(e), 4) + "-" + Pad2(MonthOf(e));
      SameSuffix(p, "-", Pad2(DayOfMonth(d)), q, Pad2(DayOfMonth(e)));
      TwoFields(YearOf(d), "-", MonthOf(d), YearOf(e), MonthOf(e), 4);
  }

  lemma SameSuffix(p: string, sep: string, a: string, q: string, b: string)
    requires |a| == |b|
    ensures p + sep + a == q + sep + b <==> p == q && a == b
  {
    if p + sep + a == q + sep + b {
      var s, r := p + sep + a, q + sep + b;
      assert |p| == |q|;
      assert s[..|p|] == p && r[..|p|] == q;
      assert s[|p| + |sep|..] == a && r[|p| + |sep|..] == b;
    }
  }

  lemma TwoFields(y: int, sep: string, m: int, z: int, n: int, width: nat)
    requires 0 <= m < 100 && 0 <= n < 100
    ensures IntField(y, width) + sep + Pad2(m) == IntField(z, width) + sep + Pad2(n) <==> y == z && m == n
  {
    SameSuffix(IntField(y, width), sep, Pad2(m), IntField(z, width), Pad2(n));
    if IntField(y, width) == IntField(z, width) {
      IntFieldInjective(y, z, width);
    }
  }

  /**
   Calendar exactness. Going forward from t, the period key stays what it is at t up to the computed
   start of the next period and is different at every instant from there on.
   */
  lemma PeriodKeyExact(scheme: Scheme, t: int, u: int)
    requires scheme != NoPeriod && t <= u
    ensures PeriodKey(scheme, u) == PeriodKey(scheme, t) <==> u < NextPeriodStart(scheme, t)
    ensures t < NextPeriodStart(scheme, t)
  {
    hide YearStart, Leap, YearOf, MonthOf, YearDay, DayOfMonth, DateDay, DaysBefore, IsoWeek, IsoYear, PeriodKey,
         NextPeriodDay;
    var d, e := DayOf(t), DayOf(u);
    KeyFields(scheme, t, u);
    match scheme {
      case Monthly => MonthlyExact(d, e); MonthlyExact(d, d);
      case Weekly => WeeklyExact(d, e); WeeklyExact(d, d);
      case Daily => DailyExact(d, e);
    }
    var n := NextPeriodDay(scheme, d);
    assert e < n <==> u < n * NS_PER_DAY;
    assert d < n <==> t < n * NS_PER_DAY;
  }

  /** A period is an interval: an instant between two instants of one period belongs to it too. */
  lemma PeriodsAreIntervals(scheme: Scheme, a: int, b: int, c: int)
    requires a <= b <= c && PeriodKey(scheme, a) == PeriodKey(scheme, c)
    ensures PeriodKey(scheme, b) == PeriodKey(scheme, a)
  {
    if scheme != NoPeriod {
      PeriodKeyExact(scheme, a, b);
      PeriodKeyExact(scheme, a, c);
    }
  }

  lemma KeyNonempty(scheme: Scheme, t: int)
    ensures PeriodKey(scheme, t) == "" <==> scheme == NoPeriod
  {
  }

  /** The Gregorian months: thirty days hath four of them, February 28 or 29, the rest 31. */
  lemma MonthLengths(y: int, m: int)
    requires 1 <= m <= 12
    ensures DateDay(y, m + 1, 1) - DateDay(y, m, 1) ==
            if m == 2 then (if y % 4 == 0 && (y % 100 != 0 || y % 400 == 0) then 29 else 28)
            else if m in {4, 6, 9, 11} then 30 else 31
  {
    hide YearStart;
    NextMonth(y, m);
    assert (m - 1) / 12 == 0 && (m - 1) % 12 == m - 1;
  }

  /** Where the count is anchored: the Unix epoch is a Thursday, and days of a month follow each other. */
  lemma EpochAnchor(y: int, m: int, d: int)
    ensures DateDay(1970, 1, 1) == 719162 && Weekday(719162) == 4 && Weekday(719162 + d) == (4 + d) % 7
    ensures NS_PER_DAY == 24 * 60 * 60 * NS_PER_SECOND && NS_PER_SECOND == 1_000_000_000
    ensures DateDay(y, m, d + 1) == DateDay(y, m, d) + 1
  {
  }

  /** Four digits, a dash and two digits. */
  predicate ReadsMonth(k: string, year: int, month: int) {
    && |k| == 7 && IsNumeral(k[..4]) && k[4] == '-' && IsNumeral(k[5..])
    && Value(k[..4]) == year && Value(k[5..]) == month
  }

  /** A month, a dash and two digits. */
  predicate ReadsDay(k: string, year: int, month: int, day: int) {
    |k| == 10 && ReadsMonth(k[..7], year, month) && k[7] == '-' && IsNumeral(k[8..]) && Value(k[8..]) == day
  }

  /** The year, a dash, the letter W and two digits. */
  predicate ReadsWeek(k: string, year: int, week: int) {
    var n := |k| - 4;
    && n >= 1 && IsNumeral(k[..n]) && k[n..n + 2] == "-W" && IsNumeral(k[n + 2..])
    && Value(k[..n]) == year && Value(k[n + 2..]) == week
  }

  /** The keys read as their formats say. */
  lemma KeyReads(t: int)
    requires 0 <= YearOf(DayOf(t)) <= 9999 && 0 <= IsoYear(DayOf(t)) <= 9999
    ensures ReadsMonth(PeriodKey(Monthly, t), YearOf(DayOf(t)), MonthOf(DayOf(t)))
    ensures ReadsDay(PeriodKey(Daily, t), YearOf(DayOf(t)), MonthOf(DayOf(t)), DayOfMonth(DayOf(t)))
    ensures ReadsWeek(PeriodKey(Weekly, t), IsoYear(DayOf(t)), IsoWeek(DayOf(t)))
  {
    hide YearOf, MonthOf, DayOfMonth, IsoYear, IsoWeek, Value, IsNumeral;
    var day := DayOf(t);
    var year, iso := IntField(YearOf(day), 4), IntField(IsoYear(day), 1);
    FourDigits(YearOf(day));
    var m, d, w := PeriodKey(Monthly, t), PeriodKey(Daily, t), PeriodKey(Weekly, t);
    assert m[..4] == year && m[5..] == Pad2(MonthOf(day));
    assert d[..7] == m && d[8..] == Pad2(DayOfMonth(day));
    var n := |w| - 4;
    assert w[..n] == iso && w[n..n + 2] == "-W" && w[n + 2..] == Pad2(IsoWeek(day));
    FieldNonempty(IsoYear(day), 1);
  }

  /** The seconds a blocked caller is told to wait: whole seconds to the rollover, plus one. */
  function RetryAfter(scheme: Scheme, now: int): int {
    (NextPeriodStart(scheme, now) - now) / NS_PER_SECOND + 1
  }

  /** A caller that honours Retry-After comes back in another period, at most a second late. */
  lemma RetryAfterLandsPastRollover(scheme: Scheme, now: int)
    requires scheme != NoPeriod
    ensures
      var back := now + RetryAfter(scheme, now) * NS_PER_SECOND;
      && RetryAfter(scheme, now) >= 1
      && NextPeriodStart(scheme, now) < back <= NextPeriodStart(scheme, now) + NS_PER_SECOND
      && PeriodKey(scheme, back) != PeriodKey(scheme, now)
  {
    hide PeriodKey, NextPeriodStart;
    PeriodKeyExact(scheme, now, now);
    var back := now + RetryAfter(scheme, now) * NS_PER_SECOND;
    PeriodKeyExact(scheme, now, back);
  }

  /** The Monday of a day's week, and of the week that holds January 4. */
  function Monday(day: int): int { day - day % 7 }

  function WeekOne(y: int): int { Monday(YearStart(y) + 3) }

  /**
   The definition of section 4.1.4 of ISO 8601:2004: weeks start on Monday, week 1 of a year is the one that
   holds its January 4, and a week belongs to the last year whose week 1 is not after it. Year and week
   satisfy it, and no other pair does.
   */
  lemma IsoWeekDefinition(day: int, y: int, w: int)
    ensures (y, w) == (IsoYear(day), IsoWeek(day)) <==>
            WeekOne(y) <= Monday(day) < WeekOne(y + 1) && Monday(day) == WeekOne(y) + 7 * (w - 1)
  {
    hide YearStart, IsoWeek, IsoYear;
    IsoWeekHolds(day);
    if WeekOne(y) <= Monday(day) < WeekOne(y + 1) {
      if y < IsoYear(day) {
        WeekOneMonotone(y + 1, IsoYear(day));
      } else if IsoYear(day) < y {
        WeekOneMonotone(IsoYear(day) + 1, y);
      }
    }
  }

  lemma IsoWeekHolds(day: int)
    ensures
      var y := IsoYear(day);
      WeekOne(y) <= Monday(day) < WeekOne(y + 1) && Monday(day) == WeekOne(y) + 7 * (IsoWeek(day) - 1)
  {
    hide YearStart, Leap, YearOf, DaysBefore;
    var y := IsoYear(day);
    var th := Thursday(day);
    assert th == YearStart(y) + YearDay(th);
    assert th % 7 == 3;
    assert th < YearStart(y + 1);
  }

  lemma WeekOneMonotone(y: int, z: int)
    requires y <= z
    ensures WeekOne(y) <= WeekOne(z)
  {
    hide YearStart;
    YearStartMonotone(y, z);
  }
}
