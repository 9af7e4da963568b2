/**
 * UTC calendar arithmetic on ECMAScript time values (milliseconds since
 * 1970-01-01T00:00:00Z), following section 15.9.1 of ECMA-262 5.1:
 * Day, DayFromYear, YearFromTime, MonthFromTime, DateFromTime, MakeDay and
 * TimeClip, and the getUTC* accessors and Date.UTC built on them.
 * A time value is an Option<int>: None stands for NaN (an invalid Date).
 */
module Calendar {
  import opened Wrappers
  import opened Numbers

  const MsPerDay: int := 86400000
  const SecondsPerDay: int := 86400
  /** The largest magnitude a time value may have (section 15.9.1.1). */
  const MaxTime: int := 8640000000000000

  /** TimeClip (section 15.9.1.14): out-of-range times become NaN. */
  function TimeClip(t: int): (r: Option<int>)
    ensures r.Some? <==> -MaxTime <= t <= MaxTime
    ensures r.Some? ==> r.value == t
  {
    if -MaxTime <= t <= MaxTime then Some(t) else None
  }

  /** Day(t) = floor(t / msPerDay); Dafny's division by a positive divisor floors. */
  function Day(t: int): int {
    t / MsPerDay
  }

  predicate IsLeap(y: int) {
    y % 4 == 0 && (y % 100 != 0 || y % 400 == 0)
  }

  function DaysInYear(y: int): int {
    if IsLeap(y) then 366 else 365
  }

  /**
   * DayFromYear (section 15.9.1.3): the day number of January 1st of year y,
   * in the closed form the standard gives; DayFromYearNext proves that each
   * year starts where the previous one ends.
   */
  function DayFromYear(y: int): int {
    365 * (y - 1970) + (y - 1969) / 4 - (y - 1901) / 100 + (y - 1601) / 400
  }

  /** floor((y - 1968) / n) - floor((y - 1969) / n) is 1 when n divides y and 0 otherwise. */
  lemma FloorStep(y: int, n: int)
    requires n == 4 || n == 100 || n == 400
    ensures (y - 1968) / n - (y - 1969) / n == (if y % 4 == 0 then 1 else 0) || n != 4
    ensures (y - 1900) / n - (y - 1901) / n == (if y % 100 == 0 then 1 else 0) || n != 100
    ensures (y - 1600) / n - (y - 1601) / n == (if y % 400 == 0 then 1 else 0) || n != 400
  {
  }

  /** A multiple of 100 * m is a multiple of 100, and a multiple of 4 * m is a multiple of 4. */
  lemma MultipleOf(y: int, k: int, n: int)
    requires n == 4 || n == 100
    requires y == n * k
    ensures y % n == 0
  {
  }

  /** Every fourth-centennial year is centennial, and every centennial year is a fourth year. */
  lemma LeapDivisibility(y: int)
    ensures y % 400 == 0 ==> y % 100 == 0
    ensures y % 100 == 0 ==> y % 4 == 0
  {
    if y % 400 == 0 {
      MultipleOf(y, 4 * (y / 400), 100);
    }
    if y % 100 == 0 {
      MultipleOf(y, 25 * (y / 100), 4);
    }
  }

  /** A year starts where the previous one ends: January 1st 1970 is day 0 and year y has DaysInYear(y) days. */
  lemma DayFromYearNext(y: int)
    ensures DayFromYear(1970) == 0
    ensures DayFromYear(y + 1) == DayFromYear(y) + DaysInYear(y)
  {
    FloorStep(y, 4);
    FloorStep(y, 100);
    FloorStep(y, 400);
    LeapDivisibility(y);
  }

  lemma {:induction false} DayFromYearMonotone(a: int, b: int)
    requires a <= b
    ensures DayFromYear(a) + 365 * (b - a) <= DayFromYear(b)
    decreases b - a
  {
    if a < b {
      DayFromYearMonotone(a, b - 1);
      DayFromYearNext(b - 1);
    }
  }

  /**
   * Year 1970 + n starts within a day and a half of n average Gregorian
   * years (365.2425 days) after 1970.
   */
  lemma DayFromYearNear(n: int)
    ensures 146097 * n - 506 <= 400 * DayFromYear(1970 + n) <= 146097 * n + 589
  {
  }

  /** The year estimated from the average year length is off by at most one. */
  lemma YearEstimate(z: int)
    ensures var y := 1970 + (400 * z) / 146097;
            DayFromYear(y - 1) <= z < DayFromYear(y + 2)
  {
    var n := (400 * z) / 146097;
    DayFromYearNear(n - 1);
    DayFromYearNear(n + 2);
  }

  /**
   * YearFromTime (section 15.9.1.3), on day numbers: the year whose days
   * include z, found from the estimate z / 365.2425 and a correction of one
   * year either way.
   */
  function YearFromDay(z: int): (r: int)
    ensures DayFromYear(r) <= z < DayFromYear(r + 1)
  {
    YearEstimate(z);
    var y := 1970 + (400 * z) / 146097;
    if DayFromYear(y + 1) <= z then y + 1
    else if DayFromYear(y) <= z then y
    else y - 1
  }

  /** Days from 1970 on fall in years from 1970 on. */
  lemma YearFromDayAfterEpoch(z: int)
    ensures z >= 0 ==> YearFromDay(z) >= 1970
  {
    var r := YearFromDay(z);
    DayFromYearNext(1969);
    if r < 1970 {
      DayFromYearMonotone(r + 1, 1970);
    }
  }

  /** The only year whose days include z. */
  lemma YearUnique(z: int, y: int)
    requires DayFromYear(y) <= z < DayFromYear(y + 1)
    ensures YearFromDay(z) == y
  {
    var r := YearFromDay(z);
    if r < y {
      DayFromYearMonotone(r + 1, y);
    } else if y < r {
      DayFromYearMonotone(y + 1, r);
    }
  }

  /**
   * Number of days of the year before month m (0-based) starts: 0, 31, 59,
   * 90, ... 334, 365, one more from March on in a leap year (section 15.9.1.4).
   */
  function MonthStart(m: int, y: int): int
    requires 0 <= m <= 12
  {
    // (367 * m + 5) / 12 gives 0, 31, 61, 92, ...; from March on, February's
    // shortfall of two days (one in a leap year) is taken off.
    (367 * m + 5) / 12 - (if m < 2 then 0 else if IsLeap(y) then 1 else 2)
  }

  function DaysInMonth(y: int, m: int): (n: int)
    requires 0 <= m <= 11
    ensures 28 <= n <= 31
  {
    MonthStart(m + 1, y) - MonthStart(m, y)
  }

  /**
   * The month (0-based) holding day d of a year, compared against the first
   * day of each month in turn as section 15.9.1.4 lists them.
   */
  function MonthInYear(d: int, y: int): (m: int)
    requires 0 <= d < MonthStart(12, y)
    ensures 0 <= m <= 11
    ensures MonthStart(m, y) <= d < MonthStart(m + 1, y)
  {
    if d < MonthStart(1, y) then 0
    else if d < MonthStart(2, y) then 1
    else if d < MonthStart(3, y) then 2
    else if d < MonthStart(4, y) then 3
    else if d < MonthStart(5, y) then 4
    else if d < MonthStart(6, y) then 5
    else if d < MonthStart(7, y) then 6
    else if d < MonthStart(8, y) then 7
    else if d < MonthStart(9, y) then 8
    else if d < MonthStart(10, y) then 9
    else if d < MonthStart(11, y) then 10
    else 11
  }

  /** The broken-down UTC date: getUTCFullYear, getUTCMonth (0-based) and getUTCDate. */
  datatype CivilDate = CivilDate(year: int, month: int, date: int)

  /** The month of a broken-down date as a single count, 12 * year + month. */
  function MonthIndex(c: CivilDate): int {
    12 * c.year + c.month
  }

  predicate ValidCivil(c: CivilDate) {
    0 <= c.month <= 11 && 1 <= c.date <= DaysInMonth(c.year, c.month)
  }

  /** Months are also counted as a single number 12 * year + month; January 1970 is month 23640. */
  const EpochMonth: int := 12 * 1970

  /**
   * The day number of the first day of month k (k = 12 * year + month):
   * DayFromYear of year floor(k / 12) plus the days before month k modulo 12.
   */
  function MonthDay(k: int): int {
    DayFromYear(k / 12) + MonthStart(k % 12, k / 12)
  }

  /**
   * MakeDay (section 15.9.1.12): the day number of the given year, month and
   * date, where a month outside 0..11 carries into the year; MakeDayFormula
   * proves it equal to the standard's DayFromYear(ym) + day-in-year form.
   */
  function MakeDay(year: int, month: int, date: int): int {
    MonthDay(12 * year + month) + date - 1
  }

  /** Month counting starts at January 1970, and the first day of month k + 1 follows the last day of month k. */
  lemma NextMonthStart(k: int)
    ensures MonthDay(EpochMonth) == 0
    ensures MonthDay(k + 1) == MonthDay(k) + DaysInMonth(k / 12, k % 12)
  {
    var y := k / 12;
    DayFromYearNext(y);
    if k % 12 == 11 {
      assert (k + 1) / 12 == y + 1 && (k + 1) % 12 == 0;
    } else {
      assert (k + 1) / 12 == y && (k + 1) % 12 == k % 12 + 1;
    }
  }

  /** MakeDay in the form of section 15.9.1.12, with ym = year + floor(month / 12) and mn = month modulo 12. */
  lemma MakeDayFormula(year: int, month: int, date: int)
    ensures var ym := year + month / 12;
            MakeDay(year, month, date) == DayFromYear(ym) + MonthStart(month % 12, ym) + date - 1
  {
    assert (12 * year + month) / 12 == year + month / 12;
    assert (12 * year + month) % 12 == month % 12;
  }

  lemma MakeDayInYear(year: int, month: int, date: int)
    requires 0 <= month <= 11
    ensures MakeDay(year, month, date) == DayFromYear(year) + MonthStart(month, year) + date - 1
  {
    MakeDayFormula(year, month, date);
    assert month / 12 == 0 && month % 12 == month;
  }

  /** DayWithinYear (section 15.9.1.4): the 0-based day of its year of day z. */
  function DayWithinYear(z: int): (d: int)
    ensures 0 <= d < MonthStart(12, YearFromDay(z))
  {
    DayFromYearNext(YearFromDay(z));
    z - DayFromYear(YearFromDay(z))
  }

  /** MonthFromTime (section 15.9.1.4), on day numbers: 0 for January ... 11 for December. */
  function MonthFromDay(z: int): (m: int)
    ensures 0 <= m <= 11
    ensures MonthStart(m, YearFromDay(z)) <= DayWithinYear(z) < MonthStart(m + 1, YearFromDay(z))
  {
    MonthInYear(DayWithinYear(z), YearFromDay(z))
  }

  /** DateFromTime (section 15.9.1.5), on day numbers: the 1-based day of the month. */
  function DateFromDay(z: int): (d: int)
    ensures 1 <= d <= DaysInMonth(YearFromDay(z), MonthFromDay(z))
  {
    DayWithinYear(z) - MonthStart(MonthFromDay(z), YearFromDay(z)) + 1
  }

  /** The broken-down date of day z; putting it back through MakeDay gives z. */
  function CivilFromDay(z: int): (c: CivilDate)
    ensures ValidCivil(c)
    ensures MakeDay(c.year, c.month, c.date) == z
    ensures z >= 0 ==> c.year >= 1970
  {
    YearFromDayAfterEpoch(z);
    MakeDayInYear(YearFromDay(z), MonthFromDay(z), DateFromDay(z));
    CivilDate(YearFromDay(z), MonthFromDay(z), DateFromDay(z))
  }

  lemma MonthStartMonotone(a: int, b: int, y: int)
    requires 0 <= a < b <= 12
    ensures MonthStart(a, y) + 28 * (b - a) <= MonthStart(b, y)
  {
  }

  lemma MonthInYearUnique(d: int, y: int, m: int)
    requires 0 <= m <= 11 && MonthStart(m, y) <= d < MonthStart(m + 1, y)
    ensures MonthInYear(d, y) == m
  {
    var r := MonthInYear(d, y);
    if r < m {
      MonthStartMonotone(r + 1, m, y);
    } else if m < r {
      MonthStartMonotone(m + 1, r, y);
    }
  }

  /** MakeDay and CivilFromDay are inverse on valid dates. */
  lemma CivilOfMakeDay(c: CivilDate)
    requires ValidCivil(c)
    ensures CivilFromDay(MakeDay(c.year, c.month, c.date)) == c
  {
    var z := MakeDay(c.year, c.month, c.date);
    var y := c.year;
    var d := MonthStart(c.month, y) + c.date - 1;
    assert z == DayFromYear(c.year) + d by {
      MakeDayInYear(c.year, c.month, c.date);
    }
    assert 0 <= d < MonthStart(12, y) by {
      if c.month < 11 {
        MonthStartMonotone(c.month + 1, 12, y);
      }
    }
    assert YearFromDay(z) == c.year by {
      DayFromYearNext(c.year);
      YearUnique(z, c.year);
    }
    assert DayWithinYear(z) == d;
    assert MonthFromDay(z) == c.month by {
      MonthInYearUnique(d, y, c.month);
    }
    assert DateFromDay(z) == c.date;
  }

  /**
   * The month arguments -1 and 12 that Date.UTC(y, m - 1, 12) and
   * Date.UTC(y, m + 1, 12) pass in January and December roll over into
   * the neighbouring years: month -1 is December of the year before, and
   * month 12 is January of the year after.
   */
  lemma {:induction false} MakeDayRollsOver(year: int, date: int)
    ensures MakeDay(year, -1, date) == DayFromYear(year - 1) + MonthStart(11, year - 1) + date - 1
    ensures MakeDay(year, 12, date) == DayFromYear(year + 1) + date - 1
    ensures MakeDay(year, -1, date) == MakeDay(year - 1, 11, date)
    ensures MakeDay(year, 12, date) == MakeDay(year + 1, 0, date)
  {
    MakeDayFormula(year, -1, date);
    MakeDayFormula(year, 12, date);
    MakeDayInYear(year - 1, 11, date);
    MakeDayInYear(year + 1, 0, date);
    assert -1 / 12 == -1 && -1 % 12 == 11;
  }

  /**
   * Date.UTC (section 15.9.4.3) at midnight: a year 0..99 is read as
   * 1900 + year. The result is a midnight, and for any other year the
   * getUTC* accessors give back the date it was built from.
   */
  function DateUtc(year: int, month: int, date: int): (r: Option<int>)
    ensures r.Some? ==> -MaxTime <= r.value <= MaxTime && r.value % MsPerDay == 0
    ensures r.Some? && ValidCivil(CivilDate(year, month, date)) && !(0 <= year <= 99)
            ==> UtcDate(r.value) == CivilDate(year, month, date)
  {
    var yr := if 0 <= year <= 99 then 1900 + year else year;
    var z := MakeDay(yr, month, date);
    DayOfMidnight(z, 0);
    assert ValidCivil(CivilDate(year, month, date)) && !(0 <= year <= 99) ==> CivilFromDay(z) == CivilDate(year, month, date) by {
      if ValidCivil(CivilDate(year, month, date)) && !(0 <= year <= 99) {
        CivilOfMakeDay(CivilDate(year, month, date));
      }
    }
    TimeClip(z * MsPerDay)
  }

  /** The UTC date of a valid time value. */
  function UtcDate(t: int): (c: CivilDate)
    ensures ValidCivil(c)
    ensures MakeDay(c.year, c.month, c.date) == Day(t)
    ensures t >= 0 ==> c.year >= 1970
  {
    CivilFromDay(Day(t))
  }

  /** A valid time value lies in its day, whose midnight is a valid time value too. */
  lemma DayBounds(t: int)
    requires -MaxTime <= t <= MaxTime
    ensures Day(t) * MsPerDay <= t < Day(t) * MsPerDay + MsPerDay
    ensures -MaxTime <= Day(t) * MsPerDay
  {
    var q := t / MsPerDay;
    assert t == q * MsPerDay + t % MsPerDay;
    assert -MaxTime == -100000000 * MsPerDay;
  }

  /** Every millisecond of day z belongs to day z. */
  lemma DayOfMidnight(z: int, r: int)
    requires 0 <= r < MsPerDay
    ensures Day(z * MsPerDay + r) == z
  {
  }

  /** Date.UTC of the getUTC* fields of a valid time value (outside the years 0..99) is its midnight. */
  lemma MidnightOfDate(t: int)
    requires -MaxTime <= t <= MaxTime
    requires !(0 <= UtcDate(t).year <= 99)
    ensures DateUtc(UtcDate(t).year, UtcDate(t).month, UtcDate(t).date) == Some(Day(t) * MsPerDay)
  {
    var c := UtcDate(t);
    assert MakeDay(c.year, c.month, c.date) == Day(t);
    DayBounds(t);
  }

  /** String(n).padStart(2, "0") for a non-negative n. */
  function Pad2(n: nat): (s: string)
    ensures n <= 99 ==> |s| == 2
  {
    if n < 10 then "0" + NatText(n)
    else
      assert n <= 99 ==> |NatText(n / 10)| == 1;
      NatText(n)
  }

  /** `${year}-${month}-${day}` of a broken-down date, month 1-based, month and day padded. */
  function FormatCivil(c: CivilDate): string
    requires ValidCivil(c)
  {
    IntText(c.year) + "-" + Pad2(c.month + 1) + "-" + Pad2(c.date)
  }

  /**
   * formatDateYYYYMMDD of a Date built from a time value; an invalid Date
   * writes every part as "NaN". For a valid one, parseInt reads the UTC
   * year from the whole text, and the month (1-based) and the day from the
   * two-digit fields after the dashes.
   */
  function FormatDateYYYYMMDD(t: Option<int>): (s: string)
    ensures t.None? ==> s == "NaN-NaN-NaN"
    ensures t.Some? ==> FieldsReadBack(s, UtcDate(t.value))
  {
    match t
    case None => "NaN-NaN-NaN"
    case Some(ms) =>
      FormatCivilFields(UtcDate(ms));
      FormatCivil(UtcDate(ms))
  }

  /**
   * s is `${year}-${month}-${day}` of c: the text before the last six
   * characters is String(year), parseInt reads the year from the whole
   * text, and the 1-based month and the day from the two-digit fields
   * (zero-padded, no white space) after the last two dashes.
   */
  predicate FieldsReadBack(s: string, c: CivilDate) {
    && |s| >= 7 && s[|s| - 6] == '-' && s[|s| - 3] == '-'
    && s[..|s| - 6] == IntText(c.year)
    && IsDigit(s[|s| - 5]) && IsDigit(s[|s| - 4]) && IsDigit(s[|s| - 2]) && IsDigit(s[|s| - 1])
    && ParseInt(s) == Some(c.year)
    && ParseInt(s[|s| - 5..|s| - 3]) == Some(c.month + 1)
    && ParseInt(s[|s| - 2..]) == Some(c.date)
  }

  /** parseInt reads back a padded two-digit field. */
  lemma ParsePad2(n: nat)
    requires n <= 99
    ensures ParseInt(Pad2(n)) == Some(n)
  {
    var s := Pad2(n);
    Pad2Value(n);
    TrimStartNoSpace(s);
    DigitRunPrefix(s, []);
    assert s + [] == s && s[..2] == s;
  }

  /** The three fields of `${year}-${month}-${day}`, read back with parseInt. */
  lemma FormatCivilFields(c: CivilDate)
    requires ValidCivil(c)
    ensures FieldsReadBack(FormatCivil(c), c)
  {
    hide FieldsReadBack, ParseInt, Pad2, IntText, TrimStart, DaysInMonth;
    FieldsOfParts(c.year, c.month + 1, c.date);
    assert CivilDate(c.year, c.month + 1 - 1, c.date) == c;
  }

  /** The fields of `${y}-${mm}-${dd}` with mm and dd padded to two digits. */
  lemma FieldsOfParts(y: int, m: nat, d: nat)
    requires 1 <= m <= 12 && d <= 99
    ensures FieldsReadBack(IntText(y) + "-" + Pad2(m) + "-" + Pad2(d), CivilDate(y, m - 1, d))
  {
    hide ParseInt, Pad2, IntText, NatText, TrimStart, DigitRun, DigitsValue, IsJsSpace, OpensWithNumber, OpensWithMinus;
    var yy, mm, dd := IntText(y), Pad2(m), Pad2(d);
    DateShape(yy, mm, dd);
    var s := yy + "-" + mm + "-" + dd;
    ParseIntPrefix(y, s[|yy|..]);
    ParsePad2(m);
    ParsePad2(d);
    Pad2Value(m);
    Pad2Value(d);
  }

  /** Where the dashes and the two-digit fields of `${y}-${mm}-${dd}` sit. */
  lemma DateShape(yy: string, mm: string, dd: string)
    requires |mm| == 2 && |dd| == 2
    ensures var s := yy + "-" + mm + "-" + dd;
            && |s| == |yy| + 6 && s == yy + s[|yy|..] && s[|yy|] == '-'
            && s[|s| - 6] == '-' && s[|s| - 3] == '-'
            && s[|s| - 5..|s| - 3] == mm && s[|s| - 2..] == dd
            && s[..|s| - 6] == yy
  {
  }

  /** Reads an ISO 8601 extended calendar date YYYY-MM-DD back into a broken-down date. */
  function ParseYYYYMMDD(s: string): Option<CivilDate> {
    if |s| == 10 && s[4] == '-' && s[7] == '-'
       && (forall i :: 0 <= i < 10 && i != 4 && i != 7 ==> IsDigit(s[i]))
    then Some(CivilDate(DigitsValue(s[..4]), DigitsValue(s[5..7]) - 1, DigitsValue(s[8..])))
    else None
  }

  lemma NatTextFourDigits(n: nat)
    requires 1000 <= n <= 9999
    ensures |NatText(n)| == 4
  {
    assert |NatText(n / 1000)| == 1;
    assert |NatText(n / 100)| == 2 by { assert (n / 100) / 10 == n / 1000; }
    assert |NatText(n / 10)| == 3 by { assert (n / 10) / 10 == n / 100; }
  }

  lemma Pad2Value(n: nat)
    requires n <= 99
    ensures DigitsValue(Pad2(n)) == n
    ensures forall i :: 0 <= i < 2 ==> IsDigit(Pad2(n)[i])
  {
    NatTextValue(n);
    if n < 10 {
      var s := Pad2(n);
      assert s[..1] == "0";
    }
  }

  lemma {:induction false} FormatCivilRoundTrip(c: CivilDate)
    requires ValidCivil(c) && 1000 <= c.year <= 9999
    ensures |FormatCivil(c)| == 10
    ensures ParseYYYYMMDD(FormatCivil(c)) == Some(c)
  {
    var y := NatText(c.year);
    var mm := Pad2(c.month + 1);
    var dd := Pad2(c.date);
    NatTextFourDigits(c.year);
    NatTextValue(c.year);
    Pad2Value(c.month + 1);
    Pad2Value(c.date);
    var s := FormatCivil(c);
    assert s == y + "-" + mm + "-" + dd;
    assert s[..4] == y;
    assert s[5..7] == mm;
    assert s[8..] == dd;
  }

  /**
   * For a year with four digits, formatDateYYYYMMDD writes exactly ten
   * characters in the ISO 8601 extended form YYYY-MM-DD, and reading them
   * back gives the UTC date of the time value.
   */
  lemma FormatDateRoundTrip(t: int)
    requires 1000 <= UtcDate(t).year <= 9999
    ensures |FormatDateYYYYMMDD(Some(t))| == 10
    ensures ParseYYYYMMDD(FormatDateYYYYMMDD(Some(t))) == Some(UtcDate(t))
  {
    FormatCivilRoundTrip(UtcDate(t));
  }

  /**
   * Before year 1000 the year is not padded: the text is nine characters
   * long, so it is not an ISO 8601 calendar date (which needs four year digits).
   */
  lemma FormatDateShortYear(c: CivilDate)
    requires ValidCivil(c) && 100 <= c.year <= 999
    ensures |FormatCivil(c)| == 9
  {
    assert |NatText(c.year / 10)| == 2 by {
      assert |NatText(c.year / 100)| == 1;
      assert (c.year / 10) / 10 == c.year / 100;
    }
  }
}
