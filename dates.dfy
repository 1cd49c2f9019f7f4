/**
 Calendar dates as Python's `datetime.date` treats them: the proleptic Gregorian calendar,
 years 1..9999, day ordinals as `date.toordinal()` numbers them (0001-01-01 is day 1), and the
 two `strptime`/`strftime` formats the usage engine uses, `%m/%d/%y` and `%Y-%m-%d`.
 */
module Dates {
  import opened Wrappers
  import opened Text

  datatype Date = Date(year: int, month: int, day: int)

  predicate IsLeap(y: int) {
    y % 4 == 0 && (y % 100 != 0 || y % 400 == 0)
  }

  function DaysInMonth(y: int, m: int): (n: int)
    requires 1 <= m <= 12
    ensures 28 <= n <= 31
  {
    if m == 2 then (if IsLeap(y) then 29 else 28)
    else if m == 4 || m == 6 || m == 9 || m == 11 then 30
    else 31
  }

  /** The dates `datetime.date` can represent. */
  predicate Valid(d: Date) {
    1 <= d.year <= 9999 && 1 <= d.month <= 12 && 1 <= d.day <= DaysInMonth(d.year, d.month)
  }

  /** Days in the years before `y` (Python's `_days_before_year`). */
  function DaysBeforeYear(y: int): int {
    var z := y - 1;
    z * 365 + z / 4 - z / 100 + z / 400
  }

  /** Days in the months of year `y` before month `m` (Python's `_days_before_month`). */
  function DaysBeforeMonth(y: int, m: int): int
    requires 1 <= m <= 12
  {
    [0, 31, 59, 90, 120, 151, 181, 212, 243, 273, 304, 334][m - 1]
    + (if m > 2 && IsLeap(y) then 1 else 0)
  }

  /** `date.toordinal()`. */
  function Ordinal(d: Date): int
    requires 1 <= d.month <= 12
  {
    DaysBeforeYear(d.year) + DaysBeforeMonth(d.year, d.month) + d.day
  }

  /** The calendar day after `d`. */
  function NextDay(d: Date): Date
    requires Valid(d)
  {
    if d.day < DaysInMonth(d.year, d.month) then Date(d.year, d.month, d.day + 1)
    else if d.month < 12 then Date(d.year, d.month + 1, 1)
    else Date(d.year + 1, 1, 1)
  }

  /** The calendar day before `d` (`d - timedelta(days=1)`). */
  function PrevDay(d: Date): Date
    requires Valid(d)
  {
    if d.day > 1 then Date(d.year, d.month, d.day - 1)
    else if d.month > 1 then Date(d.year, d.month - 1, DaysInMonth(d.year, d.month - 1))
    else Date(d.year - 1, 12, 31)
  }

  /** Stepping from `y - 1` to `y` adds one multiple of `k` exactly when `k` divides `y`. */
  lemma MultiplesStep4(y: int)
    ensures y / 4 - (y - 1) / 4 == if y % 4 == 0 then 1 else 0
  {
    var q := (y - 1) / 4;
    var r := (y - 1) - 4 * q;
    if r == 3 {
      assert y == 4 * (q + 1);
    } else {
      assert y == 4 * q + (r + 1) && 0 < r + 1 < 4;
    }
  }

  lemma MultiplesStep100(y: int)
    ensures y / 100 - (y - 1) / 100 == if y % 100 == 0 then 1 else 0
    ensures y % 100 == 0 ==> y % 4 == 0
  {
    var q := (y - 1) / 100;
    var r := (y - 1) - 100 * q;
    if r == 99 {
      assert y == 100 * (q + 1);
      assert y == 4 * (25 * q + 25);
    } else {
      assert y == 100 * q + (r + 1) && 0 < r + 1 < 100;
    }
  }

  lemma MultiplesStep400(y: int)
    ensures y / 400 - (y - 1) / 400 == if y % 400 == 0 then 1 else 0
    ensures y % 400 == 0 ==> y % 100 == 0
  {
    var q := (y - 1) / 400;
    var r := (y - 1) - 400 * q;
    if r == 399 {
      assert y == 400 * (q + 1);
      assert y == 100 * (4 * q + 4);
    } else {
      assert y == 400 * q + (r + 1) && 0 < r + 1 < 400;
    }
  }

  /** A year has 365 days, 366 when it is a leap year. */
  lemma YearLength(y: int)
    requires y >= 1
    ensures DaysBeforeYear(y + 1) - DaysBeforeYear(y) == if IsLeap(y) then 366 else 365
  {
    MultiplesStep4(y);
    MultiplesStep100(y);
    MultiplesStep400(y);
    var fours, hundreds, quads := y / 4 - (y - 1) / 4, y / 100 - (y - 1) / 100, y / 400 - (y - 1) / 400;
    assert DaysBeforeYear(y + 1) - DaysBeforeYear(y) == 365 + fours - hundreds + quads;
  }

  /** Ordinals count days: the next day has the next ordinal. */
  lemma OrdinalNext(d: Date)
    requires Valid(d) && d.year < 9999
    ensures Valid(NextDay(d)) && Ordinal(NextDay(d)) == Ordinal(d) + 1
  {
    if d.day == DaysInMonth(d.year, d.month) && d.month == 12 {
      YearLength(d.year);
    }
  }

  /** The previous day has the previous ordinal. */
  lemma OrdinalPrev(d: Date)
    requires Valid(d) && (d.year > 1 || d.month > 1 || d.day > 1)
    ensures Valid(PrevDay(d)) && Ordinal(PrevDay(d)) == Ordinal(d) - 1
  {
    if d.day == 1 && d.month == 1 {
      YearLength(d.year - 1);
    }
  }

  /** `a < b` on two `datetime` values at midnight: by year, then month, then day. */
  predicate Before(a: Date, b: Date) {
    a.year < b.year || (a.year == b.year && (a.month < b.month || (a.month == b.month && a.day < b.day)))
  }

  lemma DaysBeforeMonthNext(y: int, m: int)
    requires 1 <= m < 12
    ensures DaysBeforeMonth(y, m + 1) == DaysBeforeMonth(y, m) + DaysInMonth(y, m)
  {
  }

  lemma {:induction false} DaysBeforeMonthMono(y: int, m1: int, m2: int)
    requires 1 <= m1 <= m2 <= 12
    ensures DaysBeforeMonth(y, m1) <= DaysBeforeMonth(y, m2)
    decreases m2 - m1
  {
    if m1 < m2 {
      DaysBeforeMonthNext(y, m1);
      DaysBeforeMonthMono(y, m1 + 1, m2);
    }
  }

  lemma {:induction false} DaysBeforeYearMono(y1: int, y2: int)
    requires 1 <= y1 <= y2
    ensures DaysBeforeYear(y1) <= DaysBeforeYear(y2)
    decreases y2 - y1
  {
    if y1 < y2 {
      YearLength(y1);
      DaysBeforeYearMono(y1 + 1, y2);
    }
  }

  /** A date's ordinal lies within its year. */
  lemma OrdinalWithinYear(d: Date)
    requires Valid(d)
    ensures DaysBeforeYear(d.year) < Ordinal(d) <= DaysBeforeYear(d.year + 1)
  {
    YearLength(d.year);
    if d.month < 12 {
      DaysBeforeMonthNext(d.year, d.month);
      DaysBeforeMonthMono(d.year, d.month + 1, 12);
    }
  }

  lemma BeforeHasSmallerOrdinal(a: Date, b: Date)
    requires Valid(a) && Valid(b) && Before(a, b)
    ensures Ordinal(a) < Ordinal(b)
  {
    if a.year < b.year {
      OrdinalWithinYear(a);
      OrdinalWithinYear(b);
      DaysBeforeYearMono(a.year + 1, b.year);
    } else if a.month < b.month {
      DaysBeforeMonthNext(a.year, a.month);
      DaysBeforeMonthMono(a.year, a.month + 1, b.month);
    }
  }

  /** Comparing two real dates is comparing their ordinals. */
  lemma BeforeIsOrdinalOrder(a: Date, b: Date)
    requires Valid(a) && Valid(b)
    ensures Before(a, b) <==> Ordinal(a) < Ordinal(b)
  {
    if Before(a, b) {
      BeforeHasSmallerOrdinal(a, b);
    } else if Before(b, a) {
      BeforeHasSmallerOrdinal(b, a);
    }
  }

  /** The `%m` field of `strptime`: `1[0-2]|0[1-9]|[1-9]`. */
  function ParseMonthField(t: string): (r: Option<int>)
    ensures r.Some? ==> 1 <= r.value <= 12
  {
    if |t| == 1 && '1' <= t[0] <= '9' then Some(DigitValue(t[0]))
    else if |t| == 2 && t[0] == '0' && '1' <= t[1] <= '9' then Some(DigitValue(t[1]))
    else if |t| == 2 && t[0] == '1' && '0' <= t[1] <= '2' then Some(10 + DigitValue(t[1]))
    else None
  }

  /** The `%d` field of `strptime`: `3[01]|[12]\d|0[1-9]|[1-9]| [1-9]`. */
  function ParseDayField(t: string): (r: Option<int>)
    ensures r.Some? ==> 1 <= r.value <= 31
  {
    if |t| == 2 && t[0] == '3' && '0' <= t[1] <= '1' then Some(30 + DigitValue(t[1]))
    else if |t| == 2 && '1' <= t[0] <= '2' && IsDigit(t[1]) then Some(10 * DigitValue(t[0]) + DigitValue(t[1]))
    else if |t| == 2 && (t[0] == '0' || t[0] == ' ') && '1' <= t[1] <= '9' then Some(DigitValue(t[1]))
    else if |t| == 1 && '1' <= t[0] <= '9' then Some(DigitValue(t[0]))
    else None
  }

  /** The `%y` field: two digits, 00..68 in the 2000s and 69..99 in the 1900s. */
  function ParseShortYearField(t: string): (r: Option<int>)
    ensures r.Some? ==> 1969 <= r.value <= 2068
  {
    if |t| == 2 && IsDigit(t[0]) && IsDigit(t[1]) then
      var n := 10 * DigitValue(t[0]) + DigitValue(t[1]);
      Some(if n <= 68 then 2000 + n else 1900 + n)
    else None
  }

  /** The `%Y` field: exactly four digits. */
  function ParseLongYearField(t: string): (r: Option<int>)
    ensures r.Some? ==> 0 <= r.value <= 9999
  {
    if |t| == 4 && IsDigit(t[0]) && IsDigit(t[1]) && IsDigit(t[2]) && IsDigit(t[3]) then
      Some(1000 * DigitValue(t[0]) + 100 * DigitValue(t[1]) + 10 * DigitValue(t[2]) + DigitValue(t[3]))
    else None
  }

  /** The date `datetime(y, m, d)` builds, or None where it raises ValueError. */
  function MakeDate(y: int, m: int, d: int): (r: Option<Date>)
    requires 1 <= m <= 12
    ensures r.Some? <==> Valid(Date(y, m, d))
    ensures r.Some? ==> r.value == Date(y, m, d)
  {
    if 1 <= y <= 9999 && 1 <= d <= DaysInMonth(y, m) then Some(Date(y, m, d)) else None
  }

  /** `datetime.strptime(s, '%m/%d/%y')`, None where it raises ValueError. */
  function ParseMDY(s: string): (r: Option<Date>)
    ensures r.Some? ==> Valid(r.value)
  {
    var parts := Split(s, "/");
    if |parts| != 3 then None
    else
      match (ParseMonthField(parts[0]), ParseDayField(parts[1]), ParseShortYearField(parts[2]))
      case (Some(m), Some(d), Some(y)) => MakeDate(y, m, d)
      case _ => None
  }

  /** `datetime.strptime(s, '%Y-%m-%d')`, None where it raises ValueError. */
  function ParseISO(s: string): (r: Option<Date>)
    ensures r.Some? ==> Valid(r.value)
  {
    var parts := Split(s, "-");
    if |parts| != 3 then None
    else
      match (ParseLongYearField(parts[0]), ParseMonthField(parts[1]), ParseDayField(parts[2]))
      case (Some(y), Some(m), Some(d)) => MakeDate(y, m, d)
      case _ => None
  }

  /** `d.strftime('%m/%d/%y')`. */
  function FormatMDY(d: Date): string
    requires Valid(d)
  {
    TwoDigits(d.month) + "/" + TwoDigits(d.day) + "/" + TwoDigits(d.year % 100)
  }

  /** The three two-digit fields of a formatted date, as split at the slashes. */
  lemma FormatMDYFields(d: Date)
    requires Valid(d)
    ensures Split(FormatMDY(d), "/") == [TwoDigits(d.month), TwoDigits(d.day), TwoDigits(d.year % 100)]
  {
    var mm, dd, yy := TwoDigits(d.month), TwoDigits(d.day), TwoDigits(d.year % 100);
    assert '/' !in mm && '/' !in dd && '/' !in yy;
    var rest := dd + ['/'] + yy;
    assert FormatMDY(d) == mm + ['/'] + rest;
    SplitCharNone(yy, '/');
    SplitCharCons(dd, '/', yy);
    assert Split(rest, "/") == [dd, yy];
    SplitCharCons(mm, '/', rest);
    assert Split(FormatMDY(d), "/") == [mm] + [dd, yy];
  }

  lemma MonthFieldRoundTrip(m: int)
    requires 1 <= m <= 12
    ensures ParseMonthField(TwoDigits(m)) == Some(m)
  {
    var t := TwoDigits(m);
    assert DigitValue(t[0]) * 10 + DigitValue(t[1]) == m;
    if m < 10 {
      assert DigitValue(t[0]) == 0 && t[0] == '0';
    } else {
      assert DigitValue(t[0]) == 1 && t[0] == '1';
    }
  }

  lemma DayFieldRoundTrip(d: int)
    requires 1 <= d <= 31
    ensures ParseDayField(TwoDigits(d)) == Some(d)
  {
    var t := TwoDigits(d);
    assert DigitValue(t[0]) * 10 + DigitValue(t[1]) == d;
    if d < 10 {
      assert t[0] == '0';
    } else if d < 30 {
      assert '1' <= t[0] <= '2';
    } else {
      assert t[0] == '3';
    }
  }

  /** `%y` reads back the two digits of year `y` as the year in 1969..2068 with the same last
      two digits. */
  lemma ShortYearFieldRoundTrip(y: int)
    requires 1969 <= y <= 2099
    ensures ParseShortYearField(TwoDigits(y % 100)) == Some(if y <= 2068 then y else y - 100)
  {
    var t := TwoDigits(y % 100);
    assert 10 * DigitValue(t[0]) + DigitValue(t[1]) == y % 100;
  }

  /** Formatting a date as MM/DD/YY and parsing it back gives the same date for every year
      the two-digit year can name unambiguously, 1969 to 2068 (2000 to 2068 among them). */
  lemma FormatParseRoundTrip(d: Date)
    requires Valid(d) && 1969 <= d.year <= 2068
    ensures ParseMDY(FormatMDY(d)) == Some(d)
  {
    FormatMDYFields(d);
    MonthFieldRoundTrip(d.month);
    DayFieldRoundTrip(d.day);
    ShortYearFieldRoundTrip(d.year);
  }

  /** Outside that window the century is lost: a date in 2069..2099 comes back 100 years early. */
  lemma FormatParseCenturyLost(d: Date)
    requires Valid(d) && 2069 <= d.year <= 2099
    ensures ParseMDY(FormatMDY(d)) == Some(Date(d.year - 100, d.month, d.day))
  {
    FormatMDYFields(d);
    MonthFieldRoundTrip(d.month);
    DayFieldRoundTrip(d.day);
    ShortYearFieldRoundTrip(d.year);
    LeapCenturyEarlier(d.year);
    assert DaysInMonth(d.year - 100, d.month) == DaysInMonth(d.year, d.month);
  }

  /** 2069..2099 and the years a century earlier have the same leap years. */
  lemma LeapCenturyEarlier(y: int)
    requires 2069 <= y <= 2099
    ensures IsLeap(y - 100) == IsLeap(y)
  {
    assert y % 100 != 0 && (y - 100) % 100 != 0;
    assert (y - 100) % 4 == y % 4;
  }
}
