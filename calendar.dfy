/** Calendar dates as Python's `datetime.date` handles them: the proleptic
    Gregorian calendar over years 1 to 9999, day ordinals, stepping back by
    days (with the overflow below 0001-01-01), comparison, `isoformat` and
    `strptime(s, "%Y-%m-%d")`. */
module Calendar {
  import opened Base

  datatype Date = Date(year: int, month: int, day: int)

  /** `date.min.year` and `date.max.year`. */
  const MinYear: int := 1
  const MaxYear: int := 9999

  predicate IsLeapYear(y: int) {
    y % 4 == 0 && (y % 100 != 0 || y % 400 == 0)
  }

  function DaysInMonth(y: int, m: int): (n: int)
    requires 1 <= m <= 12
    ensures 28 <= n <= 31
    ensures n == 29 <==> m == 2 && IsLeapYear(y)
  {
    if m == 2 then (if IsLeapYear(y) then 29 else 28)
    else if m == 4 || m == 6 || m == 9 || m == 11 then 30
    else 31
  }

  function DaysInYear(y: int): int {
    if IsLeapYear(y) then 366 else 365
  }

  /** The dates a `datetime.date` can hold. */
  predicate Valid(d: Date) {
    MinYear <= d.year <= MaxYear && 1 <= d.month <= 12 && 1 <= d.day <= DaysInMonth(d.year, d.month)
  }

  /** Days in the years before year `y`. */
  function DaysBeforeYear(y: int): int
    requires y >= 1
  {
    var p := y - 1;
    p * 365 + p / 4 - p / 100 + p / 400
  }

  /** Days in the months of year `y` before month `m`. */
  function DaysBeforeMonth(y: int, m: int): int
    requires 1 <= m <= 12
  {
    var common := match m
      case 1 => 0 case 2 => 31 case 3 => 59 case 4 => 90
      case 5 => 120 case 6 => 151 case 7 => 181 case 8 => 212
      case 9 => 243 case 10 => 273 case 11 => 304 case _ => 334;
    common + (if m > 2 && IsLeapYear(y) then 1 else 0)
  }

  /** `date.toordinal()`: 0001-01-01 is day 1 and every later day adds one. */
  function Ordinal(d: Date): int
    requires Valid(d)
  {
    DaysBeforeYear(d.year) + DaysBeforeMonth(d.year, d.month) + d.day
  }

  lemma MonthStep(y: int, m: int)
    requires 1 <= m < 12
    ensures DaysBeforeMonth(y, m + 1) == DaysBeforeMonth(y, m) + DaysInMonth(y, m)
  {
  }

  lemma YearEnd(y: int)
    ensures DaysBeforeMonth(y, 12) + DaysInMonth(y, 12) == DaysInYear(y)
  {
  }

  lemma YearStep(y: int)
    requires y >= 1
    ensures DaysBeforeYear(y + 1) == DaysBeforeYear(y) + DaysInYear(y)
  {
    var p := y - 1;
    assert y / 4 == p / 4 + (if y % 4 == 0 then 1 else 0);
    assert y / 100 == p / 100 + (if y % 100 == 0 then 1 else 0);
    assert y / 400 == p / 400 + (if y % 400 == 0 then 1 else 0);
  }

  /** Every valid date has a positive ordinal, and only 0001-01-01 has ordinal 1. */
  lemma OrdinalPositive(d: Date)
    requires Valid(d)
    ensures Ordinal(d) >= 1
    ensures Ordinal(d) == 1 <==> d == Date(1, 1, 1)
  {
    var p := d.year - 1;
    assert p / 4 >= p / 100;
    if d.year > 1 {
      assert DaysBeforeYear(d.year) >= 365;
    }
  }

  // ---------------------------------------------------------------------------
  // Stepping back by days: `d - timedelta(days=n)`

  /** The day before `d`; `None` where Python raises `OverflowError` (before `date.min`). */
  function PrevDay(d: Date): (r: Option<Date>)
    requires Valid(d)
    ensures r.None? <==> d == Date(1, 1, 1)
    ensures r.Some? ==> Valid(r.value) && Ordinal(r.value) == Ordinal(d) - 1
  {
    if d.day > 1 then Some(Date(d.year, d.month, d.day - 1))
    else if d.month > 1 then
      MonthStep(d.year, d.month - 1);
      Some(Date(d.year, d.month - 1, DaysInMonth(d.year, d.month - 1)))
    else if d.year > 1 then
      YearStep(d.year - 1);
      YearEnd(d.year - 1);
      Some(Date(d.year - 1, 12, 31))
    else None
  }

  /** `d - timedelta(days=n)`; `None` where Python raises `OverflowError`. */
  function MinusDays(d: Date, n: nat): (r: Option<Date>)
    requires Valid(d)
    ensures r.Some? ==> Valid(r.value) && Ordinal(r.value) == Ordinal(d) - n
    ensures r.None? <==> Ordinal(d) <= n
    decreases n
  {
    if n == 0 then
      OrdinalPositive(d);
      Some(d)
    else if d == Date(1, 1, 1) then
      assert Ordinal(d) == 1;
      None
    else
      MinusDays(PrevDay(d).value, n - 1)
  }

  // ---------------------------------------------------------------------------
  // Comparison

  /** `a < b` on `datetime.date`: lexicographic on (year, month, day). */
  predicate Before(a: Date, b: Date) {
    a.year < b.year || (a.year == b.year && (a.month < b.month || (a.month == b.month && a.day < b.day)))
  }

  lemma {:induction false} MonthsMonotone(y: int, m1: int, m2: int)
    requires 1 <= m1 < m2 <= 12
    ensures DaysBeforeMonth(y, m1) + DaysInMonth(y, m1) <= DaysBeforeMonth(y, m2)
    decreases m2
  {
    if m1 < m2 - 1 {
      MonthsMonotone(y, m1, m2 - 1);
    }
    MonthStep(y, m2 - 1);
  }

  lemma {:induction false} YearsMonotone(y1: int, y2: int)
    requires 1 <= y1 < y2
    ensures DaysBeforeYear(y1) + DaysInYear(y1) <= DaysBeforeYear(y2)
    decreases y2
  {
    if y1 < y2 - 1 {
      YearsMonotone(y1, y2 - 1);
    }
    YearStep(y2 - 1);
  }

  /** Every day of year `y` lies inside the year's block of ordinals. */
  lemma WithinYear(d: Date)
    requires Valid(d)
    ensures DaysBeforeYear(d.year) < Ordinal(d) <= DaysBeforeYear(d.year) + DaysInYear(d.year)
  {
    if d.month < 12 {
      MonthsMonotone(d.year, d.month, 12);
    }
    YearEnd(d.year);
  }

  /** Python's date comparison is ordinal comparison. */
  lemma {:induction false} BeforeIffOrdinal(a: Date, b: Date)
    requires Valid(a) && Valid(b)
    ensures Before(a, b) <==> Ordinal(a) < Ordinal(b)
  {
    WithinYear(a);
    WithinYear(b);
    if a.year < b.year {
      YearsMonotone(a.year, b.year);
    } else if b.year < a.year {
      YearsMonotone(b.year, a.year);
    } else if a.month < b.month {
      MonthsMonotone(a.year, a.month, b.month);
    } else if b.month < a.month {
      MonthsMonotone(a.year, b.month, a.month);
    }
  }

  /** Distinct dates have distinct ordinals. */
  lemma OrdinalInjective(a: Date, b: Date)
    requires Valid(a) && Valid(b) && Ordinal(a) == Ordinal(b)
    ensures a == b
  {
    BeforeIffOrdinal(a, b);
    BeforeIffOrdinal(b, a);
  }

  /** Stepping back k days from `e` lands on `s` exactly when `s` is k ordinals before `e`. */
  lemma MinusDaysTo(e: Date, s: Date, k: nat)
    requires Valid(e) && Valid(s)
    ensures MinusDays(e, k) == Some(s) <==> Ordinal(s) <= Ordinal(e) && k == Ordinal(e) - Ordinal(s)
  {
    OrdinalPositive(s);
    var r := MinusDays(e, k);
    if Ordinal(s) <= Ordinal(e) && k == Ordinal(e) - Ordinal(s) {
      OrdinalInjective(r.value, s);
    }
  }

  // ---------------------------------------------------------------------------
  // isoformat and strptime

  /** `date.isoformat()`: YYYY-MM-DD with zero padding. */
  function IsoFormat(d: Date): (s: string)
    requires Valid(d)
    ensures |s| == 10 && s[4] == '-' && s[7] == '-'
  {
    Padded(d.year, 4) + "-" + Padded(d.month, 2) + "-" + Padded(d.day, 2)
  }

  /** What the `%m` directive of `strptime` matches at the start of `t`: the
      first alternative of `1[0-2]|0[1-9]|[1-9]` that fits, as (value, length). */
  function MatchMonth(t: string): (r: Option<(nat, nat)>)
    ensures r.Some? ==> 1 <= r.value.0 <= 12 && 1 <= r.value.1 <= 2 && r.value.1 <= |t|
  {
    if |t| >= 2 && t[0] == '1' && '0' <= t[1] <= '2' then Some((10 + DigitOf(t[1]), 2))
    else if |t| >= 2 && t[0] == '0' && '1' <= t[1] <= '9' then Some((DigitOf(t[1]), 2))
    else if |t| >= 1 && '1' <= t[0] <= '9' then Some((DigitOf(t[0]), 1))
    else None
  }

  /** What the `%d` directive matches at the start of `t`: the first alternative
      of `3[01]|[12]\d|0[1-9]|[1-9]| [1-9]` that fits, as (value, length). */
  function MatchDay(t: string): (r: Option<(nat, nat)>)
    ensures r.Some? ==> 1 <= r.value.0 <= 31 && 1 <= r.value.1 <= 2 && r.value.1 <= |t|
  {
    if |t| >= 2 && t[0] == '3' && '0' <= t[1] <= '1' then Some((30 + DigitOf(t[1]), 2))
    else if |t| >= 2 && '1' <= t[0] <= '2' && IsDigit(t[1]) then Some((10 * DigitOf(t[0]) + DigitOf(t[1]), 2))
    else if |t| >= 2 && t[0] == '0' && '1' <= t[1] <= '9' then Some((DigitOf(t[1]), 2))
    else if |t| >= 1 && '1' <= t[0] <= '9' then Some((DigitOf(t[0]), 1))
    else if |t| >= 2 && t[0] == ' ' && '1' <= t[1] <= '9' then Some((DigitOf(t[1]), 2))
    else None
  }

  /** `datetime.strptime(s, "%Y-%m-%d").date()`, with `None` where it raises:
      no match, unconverted trailing text, or a day or year the calendar lacks. */
  function ParseDate(s: string): (r: Option<Date>)
    ensures r.Some? ==> Valid(r.value)
    ensures r.Some? ==> |s| >= 5 && AllDigits(s[..4]) && s[4] == '-' && r.value.year == DigitsValue(s[..4])
  {
    if |s| < 5 || !AllDigits(s[..4]) || s[4] != '-' then None
    else
      var year := DigitsValue(s[..4]);
      var rest := s[5..];
      match MatchMonth(rest)
      case None => None
      case Some((month, ml)) =>
        if |rest| <= ml || rest[ml] != '-' then None
        else
          var tail := rest[ml + 1..];
          match MatchDay(tail)
          case None => None
          case Some((day, dl)) =>
            if dl != |tail| then None
            else if Valid(Date(year, month, day)) then Some(Date(year, month, day))
            else None
  }

  lemma TwoDigits(s: string)
    requires |s| == 2 && AllDigits(s)
    ensures DigitsValue(s) == 10 * DigitOf(s[0]) + DigitOf(s[1])
  {
    var head := s[..1];
    assert head[..0] == [] && head[0] == s[0];
    assert DigitsValue(head) == DigitOf(s[0]);
    assert s[..|s| - 1] == head;
  }

  /** A two-digit month field is matched whole by `%m`, whatever follows it. */
  lemma MonthField(m: string, t: string)
    requires |m| == 2 && AllDigits(m) && 1 <= DigitsValue(m) <= 12
    ensures MatchMonth(m + t) == Some((DigitsValue(m), 2))
  {
    TwoDigits(m);
    assert (m + t)[..2] == m;
  }

  /** A two-digit day field is matched whole by `%d`. */
  lemma DayField(dd: string)
    requires |dd| == 2 && AllDigits(dd) && 1 <= DigitsValue(dd) <= 31
    ensures MatchDay(dd) == Some((DigitsValue(dd), 2))
  {
    TwoDigits(dd);
  }

  /** `strptime` reads back every date `isoformat` writes. */
  lemma IsoFormatRoundTrip(d: Date)
    requires Valid(d)
    ensures ParseDate(IsoFormat(d)) == Some(d)
  {
    var y, m, dd := Padded(d.year, 4), Padded(d.month, 2), Padded(d.day, 2);
    var s := IsoFormat(d);
    assert s == y + "-" + m + "-" + dd;
    assert s[..4] == y;
    var rest := s[5..];
    assert rest == m + ("-" + dd);
    MonthField(m, "-" + dd);
    assert rest[3..] == dd;
    DayField(dd);
  }

  /** The fields of a ten-character string `strptime` accepts with a digit
      where the day's tens go. */
  lemma CanonicalFields(s: string, d: Date)
    requires ParseDate(s) == Some(d) && |s| == 10 && IsDigit(s[8])
    ensures s[4] == '-' && s[7] == '-' && AllDigits(s[..4]) && AllDigits(s[5..7]) && AllDigits(s[8..])
    ensures d.year == DigitsValue(s[..4]) && d.month == DigitsValue(s[5..7]) && d.day == DigitsValue(s[8..])
  {
    var rest := s[5..];
    var (month, ml) := MatchMonth(rest).value;
    var tail := rest[ml + 1..];
    var (day, dl) := MatchDay(tail).value;
    assert ml == 2 && dl == 2;
    assert rest[..2] == s[5..7] && tail == s[8..];
    TwoDigits(s[5..7]);
    TwoDigits(s[8..]);
  }

  /** A ten-character string `strptime` accepts with a digit where the day's
      tens go is exactly the `isoformat` of the date it reads. */
  lemma CanonicalParseIsIsoFormat(s: string, d: Date)
    requires ParseDate(s) == Some(d) && |s| == 10 && IsDigit(s[8])
    ensures s == IsoFormat(d)
  {
    CanonicalFields(s, d);
    PaddedDigits(s[..4]);
    PaddedDigits(s[5..7]);
    PaddedDigits(s[8..]);
    assert s == s[..4] + "-" + s[5..7] + "-" + s[8..];
  }
}
