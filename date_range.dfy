/**
 * The competition window of the snapshot route
 * (app/api/admin/snapshot/route.ts): the rolling window anchored on the
 * 12th of the month, the 28-day window derived from a start, and the order
 * in which query parameters, environment variables and the clock are
 * consulted. All bounds are Unix seconds; None stands for NaN.
 */
module DateRange {
  import opened Wrappers
  import opened Numbers
  import opened Calendar

  /** The fixed length of a window derived from its start alone. */
  const LeaderboardDurationDays: int := 28

  /** dateToUnixTimestamp: Math.floor(ms / 1000) of a Date; an invalid Date gives NaN. */
  function UnixSeconds(t: Option<int>): (r: Option<int>)
    ensures r.Some? <==> t.Some?
    ensures t.Some? ==> r.value * 1000 <= t.value < r.value * 1000 + 1000
  {
    match t
    case None => None
    case Some(ms) => Some(ms / 1000)
  }

  /**
   * end.setUTCHours(23, 59, 59, 999): the last millisecond of the Date's UTC
   * day, which is NaN only when that millisecond is out of the time range.
   */
  function SetEndOfDay(t: Option<int>): (r: Option<int>)
    ensures r.Some? ==> && t.Some? && Day(r.value) == Day(t.value) && t.value <= r.value
                        && r.value % MsPerDay == MsPerDay - 1
    ensures t.Some? && -MaxTime <= t.value && t.value + MsPerDay <= MaxTime ==> r.Some?
  {
    match t
    case None => None
    case Some(ms) =>
      DayOfMidnight(Day(ms), MsPerDay - 1);
      assert ms == Day(ms) * MsPerDay + ms % MsPerDay;
      TimeClip(Day(ms) * MsPerDay + MsPerDay - 1)
  }

  datatype RollingRange = RollingRange(startAt: string, endAt: string, from: Option<int>, to: Option<int>)

  /** The anchor of computeRolling12thRangeUTC: the 12th of now's UTC month, at 00:00 UTC. */
  function CurrentMonth12th(nowMs: int): Option<int> {
    DateUtc(UtcDate(nowMs).year, UtcDate(nowMs).month, 12)
  }

  /** now >= currentMonth12th; a comparison with NaN is false. */
  predicate ReachedAnchor(nowMs: int) {
    CurrentMonth12th(nowMs).Some? && nowMs >= CurrentMonth12th(nowMs).value
  }

  /** The start Date of the rolling window. */
  function RollingStart(nowMs: int): Option<int> {
    if ReachedAnchor(nowMs) then CurrentMonth12th(nowMs)
    else DateUtc(UtcDate(nowMs).year, UtcDate(nowMs).month - 1, 12)
  }

  /** The end Date of the rolling window, after end.setUTCHours(23, 59, 59, 999). */
  function RollingEnd(nowMs: int): Option<int> {
    SetEndOfDay(
      if ReachedAnchor(nowMs) then DateUtc(UtcDate(nowMs).year, UtcDate(nowMs).month + 1, 12)
      else CurrentMonth12th(nowMs))
  }

  /**
   * computeRolling12thRangeUTC: if now is at or after the 12th of its month
   * (00:00 UTC) the window runs from that 12th to the end of the 12th of the
   * next month; otherwise from the 12th of the previous month to the end of
   * this month's 12th.
   */
  function Rolling12th(nowMs: int): (r: RollingRange)
    ensures r.from.Some? ==> r.startAt == FormatDateYYYYMMDD(Some(r.from.value * 1000))
    ensures r.to.Some? ==> r.endAt == FormatDateYYYYMMDD(Some(r.to.value * 1000))
    ensures r.from.None? ==> r.startAt == "NaN-NaN-NaN"
    ensures r.to.None? ==> r.endAt == "NaN-NaN-NaN"
  {
    var start, end := RollingStart(nowMs), RollingEnd(nowMs);
    SameDateInSeconds(start);
    SameDateInSeconds(end);
    RollingRange(FormatDateYYYYMMDD(start), FormatDateYYYYMMDD(end), UnixSeconds(start), UnixSeconds(end))
  }

  /** A Date and the Date of its Unix second fall on the same UTC day, so they format alike. */
  lemma SameDateInSeconds(t: Option<int>)
    ensures t.Some? ==> FormatDateYYYYMMDD(Some(UnixSeconds(t).value * 1000)) == FormatDateYYYYMMDD(t)
  {
    hide FieldsReadBack;
    if t.Some? {
      var ms := t.value;
      var q := ms / 1000;
      var a, b := q / SecondsPerDay, q % SecondsPerDay;
      assert ms == MsPerDay * a + (1000 * b + ms % 1000);
      assert q * 1000 == MsPerDay * a + 1000 * b;
      assert Day(ms) == a && Day(q * 1000) == a;
    }
  }

  /** Months counted from year 0: 12 * getUTCFullYear() + getUTCMonth(). */
  function MonthCount(ms: int): int {
    MonthIndex(UtcDate(ms))
  }

  /** The day number of the 12th of month k (months counted as in MonthCount). */
  function Twelfth(k: int): int {
    MonthDay(k) + 11
  }

  /**
   * The month whose 12th opens the window around now: this month once its
   * 12th has begun, the previous month before.
   */
  function WindowMonth(nowMs: int): int {
    if nowMs >= Twelfth(MonthCount(nowMs)) * MsPerDay then MonthCount(nowMs) else MonthCount(nowMs) - 1
  }

  /** First second of the 12th of month k. */
  function WindowFrom(k: int): int {
    Twelfth(k) * SecondsPerDay
  }

  /** Last second of the 12th of month k + 1. */
  function WindowTo(k: int): int {
    Twelfth(k + 1) * SecondsPerDay + SecondsPerDay - 1
  }

  /**
   * Clock readings for which the source's Date arithmetic stays inside the
   * time range: from 1970 on, and at least 64 days before the end of time.
   */
  predicate Ordinary(ms: int) {
    0 <= ms && ms + 64 * MsPerDay <= MaxTime
  }

  /** A valid date lies between the first days of its month and of the next. */
  lemma MonthOfDay(z: int, c: CivilDate)
    requires ValidCivil(c) && MakeDay(c.year, c.month, c.date) == z
    ensures MonthDay(MonthIndex(c)) <= z < MonthDay(MonthIndex(c) + 1)
  {
    var k := MonthIndex(c);
    NextMonthStart(k);
    assert k / 12 == c.year && k % 12 == c.month;
  }

  /** The month count of a time value is the month its day falls in. */
  lemma MonthOfNow(nowMs: int)
    ensures MonthDay(MonthCount(nowMs)) <= Day(nowMs) < MonthDay(MonthCount(nowMs) + 1)
  {
    hide UtcDate, MonthDay, MakeDay, ValidCivil;
    MonthOfDay(Day(nowMs), UtcDate(nowMs));
  }

  /** Months are 28 to 31 days long. */
  lemma MonthLength(k: int)
    ensures MonthDay(k) + 28 <= MonthDay(k + 1) <= MonthDay(k) + 31
    ensures MonthDay(k - 1) + 28 <= MonthDay(k) <= MonthDay(k - 1) + 31
  {
    NextMonthStart(k);
    NextMonthStart(k - 1);
    assert k - 1 + 1 == k;
  }

  /** The 12ths of the months before, of and after the month of day z, seen from z. */
  lemma TwelfthsNear(z: int, k: int)
    requires MonthDay(k) <= z < MonthDay(k + 1)
    ensures z - 51 <= Twelfth(k - 1) <= z + 42
    ensures z - 51 <= Twelfth(k) <= z + 42
    ensures z - 51 <= Twelfth(k + 1) <= z + 42
    ensures Twelfth(k) <= z ==> z < Twelfth(k + 1)
    ensures z < Twelfth(k) ==> Twelfth(k - 1) <= z
  {
    MonthLength(k);
  }

  /** Date.UTC(y, m, 12) outside the years 0..99 is midnight of the 12th of month 12 * y + m. */
  lemma TwelfthUtc(y: int, m: int, k: int)
    requires !(0 <= y <= 99) && k == 12 * y + m
    ensures DateUtc(y, m, 12) == TimeClip(Twelfth(k) * MsPerDay)
  {
  }

  /** A time value is at or after midnight of day z exactly when its day is z or later. */
  lemma AfterMidnight(t: int, z: int)
    ensures t >= z * MsPerDay <==> Day(t) >= z
  {
  }

  /** Midnight of a day within 51 days before and 42 days after an ordinary time is a valid time. */
  lemma NearbyMidnight(nowMs: int, z: int)
    requires Ordinary(nowMs)
    requires Day(nowMs) - 51 <= z <= Day(nowMs) + 42
    ensures -MaxTime <= z * MsPerDay && z * MsPerDay + MsPerDay <= MaxTime
  {
    DayBounds(nowMs);
  }

  /** The three Date.UTC values the rolling window is built from. */
  lemma RollingAnchors(nowMs: int)
    requires Ordinary(nowMs)
    ensures var c, k := UtcDate(nowMs), MonthCount(nowMs);
            && CurrentMonth12th(nowMs) == Some(Twelfth(k) * MsPerDay)
            && DateUtc(c.year, c.month - 1, 12) == Some(Twelfth(k - 1) * MsPerDay)
            && DateUtc(c.year, c.month + 1, 12) == Some(Twelfth(k + 1) * MsPerDay)
            && Twelfth(k + 1) * MsPerDay + MsPerDay <= MaxTime
  {
    hide UtcDate, DateUtc, MonthDay, Twelfth;
    var c, k, z := UtcDate(nowMs), MonthCount(nowMs), Day(nowMs);
    MonthOfNow(nowMs);
    TwelfthsNear(z, k);
    TwelfthUtc(c.year, c.month, k);
    TwelfthUtc(c.year, c.month - 1, k - 1);
    TwelfthUtc(c.year, c.month + 1, k + 1);
    NearbyMidnight(nowMs, Twelfth(k));
    NearbyMidnight(nowMs, Twelfth(k - 1));
    NearbyMidnight(nowMs, Twelfth(k + 1));
  }

  /** Date.UTC at midnight of the 12th of month k, then end.setUTCHours(23, 59, 59, 999). */
  lemma EndOfTwelfth(k: int)
    requires Twelfth(k) * MsPerDay + MsPerDay <= MaxTime
    requires -MaxTime <= Twelfth(k) * MsPerDay
    ensures SetEndOfDay(Some(Twelfth(k) * MsPerDay)) == Some(Twelfth(k) * MsPerDay + MsPerDay - 1)
  {
    DayOfMidnight(Twelfth(k), 0);
  }

  /** The anchor is reached exactly when now's day is the 12th of its month or later. */
  lemma ReachedAnchorDay(nowMs: int)
    requires Ordinary(nowMs)
    ensures ReachedAnchor(nowMs) <==> Twelfth(MonthCount(nowMs)) <= Day(nowMs)
    ensures WindowMonth(nowMs) == if ReachedAnchor(nowMs) then MonthCount(nowMs) else MonthCount(nowMs) - 1
  {
    hide UtcDate, DateUtc, MonthDay, Twelfth, Day;
    RollingAnchors(nowMs);
    AfterMidnight(nowMs, Twelfth(MonthCount(nowMs)));
  }

  /** The start Date of the rolling window. */
  lemma RollingStartDate(nowMs: int)
    requires Ordinary(nowMs)
    ensures RollingStart(nowMs) == Some(Twelfth(WindowMonth(nowMs)) * MsPerDay)
  {
    hide UtcDate, DateUtc, MonthDay, Twelfth, Day, ReachedAnchor, CurrentMonth12th, MonthCount;
    RollingAnchors(nowMs);
    ReachedAnchorDay(nowMs);
  }

  /** The end Date of the rolling window. */
  lemma RollingEndDate(nowMs: int)
    requires Ordinary(nowMs)
    ensures RollingEnd(nowMs) == Some(Twelfth(WindowMonth(nowMs) + 1) * MsPerDay + MsPerDay - 1)
  {
    hide UtcDate, DateUtc, MonthDay, Twelfth, SetEndOfDay, Day, ReachedAnchor, CurrentMonth12th, MonthCount;
    var k := MonthCount(nowMs);
    RollingAnchors(nowMs);
    ReachedAnchorDay(nowMs);
    MonthOfNow(nowMs);
    TwelfthsNear(Day(nowMs), k);
    NearbyMidnight(nowMs, Twelfth(k));
    if ReachedAnchor(nowMs) {
      NearbyMidnight(nowMs, Twelfth(k + 1));
      EndOfTwelfth(k + 1);
    } else {
      EndOfTwelfth(k);
      assert k - 1 + 1 == k;
    }
  }

  /** The twelfth of month k is a valid date, at day MakeDay(k / 12, k % 12, 12). */
  lemma TwelfthIsMakeDay(k: int)
    ensures ValidCivil(CivilDate(k / 12, k % 12, 12))
    ensures Twelfth(k) == MakeDay(k / 12, k % 12, 12)
  {
    hide MonthDay, DaysInMonth, MonthStart;
    assert 12 * (k / 12) + k % 12 == k;
  }

  /** The 12th of month k really is the 12th of month k % 12 of year k / 12. */
  lemma TwelfthOfMonth(k: int)
    ensures UtcDate(Twelfth(k) * MsPerDay) == CivilDate(k / 12, k % 12, 12)
  {
    hide CivilFromDay, MakeDay, MonthDay, Twelfth, ValidCivil, Day;
    DayOfMidnight(Twelfth(k), 0);
    TwelfthIsMakeDay(k);
    CivilOfMakeDay(CivilDate(k / 12, k % 12, 12));
  }

  /** Whole days in milliseconds, and their last millisecond, in Unix seconds. */
  lemma UnixSecondsOfDay(z: int)
    ensures (z * MsPerDay) / 1000 == z * SecondsPerDay
    ensures (z * MsPerDay + MsPerDay - 1) / 1000 == z * SecondsPerDay + SecondsPerDay - 1
  {
  }

  /** now lies between the first and last millisecond of its window. */
  lemma WindowHoldsNow(nowMs: int)
    requires Ordinary(nowMs)
    ensures Twelfth(WindowMonth(nowMs)) <= Day(nowMs) <= Twelfth(WindowMonth(nowMs) + 1)
  {
    hide UtcDate, DateUtc, MonthDay, Twelfth, Day, ReachedAnchor, CurrentMonth12th, MonthCount, WindowMonth;
    var k := MonthCount(nowMs);
    ReachedAnchorDay(nowMs);
    MonthOfNow(nowMs);
    TwelfthsNear(Day(nowMs), k);
    assert k - 1 + 1 == k;
  }

  /** The window's bounds in Unix seconds hold now in Unix seconds. */
  lemma SecondsWithinWindow(nowMs: int, k: int)
    requires 0 <= nowMs
    requires Twelfth(k) <= Day(nowMs) <= Twelfth(k + 1)
    ensures WindowFrom(k) <= nowMs / 1000 <= WindowTo(k)
  {
    DayBounds(0);
    var z := Day(nowMs);
    assert z * MsPerDay <= nowMs < z * MsPerDay + MsPerDay;
    UnixSecondsOfDay(z);
    UnixSecondsOfDay(Twelfth(k));
    UnixSecondsOfDay(Twelfth(k + 1));
  }

  /**
   * Shape of the rolling window: it starts on the 12th of month k at
   * 00:00:00 UTC and ends at 23:59:59 UTC on the 12th of month k + 1, where
   * k is the current month when now has reached this month's 12th and the
   * previous month otherwise (December rolls into January of the next year
   * and January back into December through the month count). The window
   * contains now.
   */
  lemma RollingShape(nowMs: int)
    requires Ordinary(nowMs)
    ensures Rolling12th(nowMs).from == Some(WindowFrom(WindowMonth(nowMs)))
    ensures Rolling12th(nowMs).to == Some(WindowTo(WindowMonth(nowMs)))
    ensures WindowFrom(WindowMonth(nowMs)) <= nowMs / 1000 <= WindowTo(WindowMonth(nowMs))
  {
    hide UtcDate, DateUtc, MonthDay, Twelfth, Day, RollingStart, RollingEnd, WindowMonth, FormatDateYYYYMMDD, FieldsReadBack;
    var k := WindowMonth(nowMs);
    RollingStartDate(nowMs);
    RollingEndDate(nowMs);
    UnixSecondsOfDay(Twelfth(k));
    UnixSecondsOfDay(Twelfth(k + 1));
    WindowHoldsNow(nowMs);
    SecondsWithinWindow(nowMs, k);
  }

  /** At exactly 00:00:00.000 UTC on the 12th the current month's window is taken, starting at now. */
  lemma RollingStartsOnTheTwelfth(nowMs: int)
    requires Ordinary(nowMs)
    requires nowMs == Twelfth(MonthCount(nowMs)) * MsPerDay
    ensures Rolling12th(nowMs).from == Some(nowMs / 1000)
  {
    hide UtcDate, DateUtc, MonthDay, Twelfth, Day, RollingStart, RollingEnd, ReachedAnchor, CurrentMonth12th, FormatDateYYYYMMDD;
    var k := MonthCount(nowMs);
    ReachedAnchorDay(nowMs);
    AfterMidnight(nowMs, Twelfth(k));
    assert WindowMonth(nowMs) == k;
    RollingShape(nowMs);
    UnixSecondsOfDay(Twelfth(k));
  }

  /**
   * Consecutive rolling windows share a whole day: the window of month k
   * ends at the last second of the 12th of month k + 1, where the next
   * window begins at its first second.
   */
  lemma RollingWindowsOverlapOneDay(k: int)
    ensures WindowTo(k) - WindowFrom(k + 1) == SecondsPerDay - 1
  {
  }

  /** startAt of the rolling window is written as the 12th of its month. */
  lemma RollingStartAtIsTwelfth(nowMs: int)
    requires Ordinary(nowMs)
    ensures var s := Rolling12th(nowMs).startAt; |s| >= 3 && s[|s| - 3..] == "-12"
  {
    hide UtcDate, DateUtc, MonthDay, Twelfth, Day, RollingStart, RollingEnd, WindowMonth, IntText, FieldsReadBack;
    var k := WindowMonth(nowMs);
    RollingStartDate(nowMs);
    TwelfthOfMonth(k);
    assert Rolling12th(nowMs).startAt == FormatCivil(CivilDate(k / 12, k % 12, 12));
    assert Pad2(12) == "12";
  }

  /**
   * The end derived from a start: start of the start's UTC day + 28 days
   * - 1 ms, in seconds. Whatever the start, such an end is the last second
   * of a UTC day.
   */
  function DerivedEnd(from: Option<int>): (r: Option<int>)
    ensures r.Some? ==> from.Some? && r.value % SecondsPerDay == SecondsPerDay - 1
  {
    match from
    case None => None
    case Some(f) =>
      match TimeClip(f * 1000)
      case None => None
      case Some(ms) =>
        var c := UtcDate(ms);
        match DateUtc(c.year, c.month, c.date)
        case None => None
        case Some(startOfDay) =>
          LastSecondOfLastDay(startOfDay);
          UnixSeconds(TimeClip(startOfDay + LeaderboardDurationDays * MsPerDay - 1))
  }

  /** 28 days after a midnight, less a millisecond, is the last second of a day. */
  lemma LastSecondOfLastDay(sod: int)
    requires sod % MsPerDay == 0
    ensures ((sod + LeaderboardDurationDays * MsPerDay - 1) / 1000) % SecondsPerDay == SecondsPerDay - 1
  {
    var z := sod / MsPerDay + 27;
    assert sod + LeaderboardDurationDays * MsPerDay - 1 == z * MsPerDay + MsPerDay - 1;
    UnixSecondsOfDay(z);
  }

  lemma DayOfSeconds(f: int)
    ensures Day(f * 1000) == f / SecondsPerDay
  {
    var q := f / SecondsPerDay;
    var r := f % SecondsPerDay;
    assert f == q * SecondsPerDay + r;
    assert f * 1000 == q * MsPerDay + r * 1000;
  }

  /** The end derived from a start whose Date.UTC midnight is the time value sod. */
  lemma DerivedEndFrom(f: int, sod: int)
    requires -MaxTime <= f * 1000 <= MaxTime
    requires DateUtc(UtcDate(f * 1000).year, UtcDate(f * 1000).month, UtcDate(f * 1000).date) == Some(sod)
    requires -MaxTime <= sod + LeaderboardDurationDays * MsPerDay - 1 <= MaxTime
    ensures DerivedEnd(Some(f)) == Some((sod + LeaderboardDurationDays * MsPerDay - 1) / 1000)
  {
    hide UtcDate, DateUtc;
  }

  /**
   * With a start and no end, the end is the last second of the 28th day
   * counted from the start's UTC day, whatever the start's time of day.
   */
  lemma DerivedEndIsTwentyEightDays(f: int)
    requires -MaxTime <= f * 1000 && f * 1000 + LeaderboardDurationDays * MsPerDay <= MaxTime
    requires !(0 <= UtcDate(f * 1000).year <= 99)
    ensures DerivedEnd(Some(f)) == Some((f / SecondsPerDay) * SecondsPerDay + LeaderboardDurationDays * SecondsPerDay - 1)
  {
    hide UtcDate, DateUtc, DerivedEnd;
    var ms := f * 1000;
    var q := f / SecondsPerDay;
    DayOfSeconds(f);
    MidnightOfDate(ms);
    var sod := Day(ms) * MsPerDay;
    DerivedEndFrom(f, sod);
    UnixSecondsOfDay(q + 27);
    assert sod + LeaderboardDurationDays * MsPerDay - 1 == (q + 27) * MsPerDay + MsPerDay - 1;
  }

  /** The first day of a month lies in its year. */
  lemma MonthDayInYear(y: int, m: int)
    requires 0 <= m <= 11
    ensures DayFromYear(y) <= MonthDay(12 * y + m) < DayFromYear(y + 1)
  {
    MakeDayInYear(y, m, 1);
    DayFromYearNext(y);
    if m < 11 {
      MonthStartMonotone(m, 11, y);
    }
  }

  /** A date of the years 1900..1999 lies before day 11000 (in 2000). */
  lemma TwentiethCentury(y: int, m: int, d: int)
    requires 1900 <= y <= 1999 && 0 <= m <= 11 && 1 <= d <= 31
    ensures MakeDay(y, m, d) < 11000
  {
    MonthDayInYear(y, m);
    DayFromYearMonotone(y + 1, 2000);
  }

  /** Reading year y as 1900 + y moves a date more than 1899 years of 365 days on. */
  lemma CenturyShift(c: CivilDate)
    requires ValidCivil(c)
    ensures MakeDay(1900 + c.year, c.month, c.date) >= MakeDay(c.year, c.month, c.date) + 1899 * 365
  {
    MonthDayInYear(c.year, c.month);
    MonthDayInYear(1900 + c.year, c.month);
    DayFromYearMonotone(c.year + 1, 1900 + c.year);
  }

  /**
   * A start in the years 0..99 is moved 1900 years on before the window is
   * measured, because Date.UTC reads those years as 1900 + year: the
   * derived end lies more than 1800 years after the start.
   */
  lemma DerivedEndTwoDigitYear(f: int)
    requires -MaxTime <= f * 1000 <= MaxTime
    requires 0 <= UtcDate(f * 1000).year <= 99
    ensures DerivedEnd(Some(f)).Some?
    ensures DerivedEnd(Some(f)).value > f + 1800 * 365 * SecondsPerDay
  {
    hide MakeDay, UtcDate, DerivedEnd, CivilFromDay, DaysInMonth, MonthDay;
    var ms := f * 1000;
    var c := UtcDate(ms);
    DayOfSeconds(f);
    var shifted := MakeDay(1900 + c.year, c.month, c.date);
    assert shifted < 11000 by { TwentiethCentury(1900 + c.year, c.month, c.date); }
    assert shifted >= Day(ms) + 1899 * 365 by { CenturyShift(c); }
    DerivedEndFrom(f, shifted * MsPerDay);
  }

  /** The environment variables the route reads. */
  datatype Env = Env(
    bitfortuneFrom: Option<string>,
    nextPublicBitfortuneFrom: Option<string>,
    bitfortuneEndAt: Option<string>,
    bitfortuneTo: Option<string>,
    nextPublicBitfortuneTo: Option<string>)

  /** A missing value and the empty string are falsy. */
  predicate Truthy(s: Option<string>) {
    s.Some? && s.value != ""
  }

  /**
   * JavaScript's a || b, for the case where both operands are strings or
   * undefined (environment variables and query parameters); the general
   * operator over JSON values is `ClientLeaderboard.Or`.
   */
  function Or(a: Option<string>, b: Option<string>): Option<string> {
    if Truthy(a) then a else b
  }

  function FromEnv(env: Env): Option<string> {
    Or(env.bitfortuneFrom, env.nextPublicBitfortuneFrom)
  }

  function ToEnv(env: Env): Option<string> {
    Or(Or(env.bitfortuneEndAt, env.bitfortuneTo), env.nextPublicBitfortuneTo)
  }

  datatype Range = Range(from: Option<int>, to: Option<int>)

  /** A start given as text with an optional end: parse both, or derive the end. */
  function StartAndEnd(fromText: string, toText: Option<string>): Range {
    var from := ParseInt(fromText);
    Range(from, if Truthy(toText) then ParseInt(toText.value) else DerivedEnd(from))
  }

  /** The window of GET: URL parameters, else environment variables, else the rolling 12th. */
  function ResolveRange(fromParam: Option<string>, toParam: Option<string>, env: Env, nowMs: int): (r: Range)
    ensures !Truthy(fromParam) && !Truthy(FromEnv(env)) && Ordinary(nowMs) ==>
              && r.from.Some? && r.to.Some? && r.from.value <= nowMs / 1000 <= r.to.value
              && r.to.value % SecondsPerDay == SecondsPerDay - 1
    ensures (|| (Truthy(fromParam) && !Truthy(toParam))
             || (!Truthy(fromParam) && Truthy(FromEnv(env)) && !Truthy(ToEnv(env))))
            ==> (r.to.Some? ==> r.to.value % SecondsPerDay == SecondsPerDay - 1)
  {
    RollingBounds(nowMs);
    if Truthy(fromParam) then StartAndEnd(fromParam.value, toParam)
    else if Truthy(FromEnv(env)) then StartAndEnd(FromEnv(env).value, ToEnv(env))
    else
      var r := Rolling12th(nowMs);
      Range(r.from, r.to)
  }

  /** The rolling window holds now and ends on the last second of a day. */
  lemma RollingBounds(nowMs: int)
    ensures Ordinary(nowMs) ==>
              var r := Rolling12th(nowMs);
              && r.from.Some? && r.to.Some? && r.from.value <= nowMs / 1000 <= r.to.value
              && r.to.value % SecondsPerDay == SecondsPerDay - 1
  {
    hide UtcDate, DateUtc, MonthDay, Twelfth, Day, RollingStart, RollingEnd, WindowMonth, FormatDateYYYYMMDD, FieldsReadBack, Rolling12th;
    if Ordinary(nowMs) {
      RollingShape(nowMs);
    }
  }

  /** A from parameter decides the window alone: environment and clock are not consulted. */
  lemma FromParamWins(fromParam: Option<string>, toParam: Option<string>, env1: Env, env2: Env, now1: int, now2: int)
    requires Truthy(fromParam)
    ensures ResolveRange(fromParam, toParam, env1, now1) == ResolveRange(fromParam, toParam, env2, now2)
    ensures ResolveRange(fromParam, toParam, env1, now1).from == ParseInt(fromParam.value)
  {
  }

  /** Without a from parameter, a configured start beats the clock, and a to parameter is ignored. */
  lemma EnvBeatsRolling(fromParam: Option<string>, to1: Option<string>, to2: Option<string>, env: Env, now1: int, now2: int)
    requires !Truthy(fromParam) && Truthy(FromEnv(env))
    ensures ResolveRange(fromParam, to1, env, now1) == ResolveRange(fromParam, to2, env, now2)
    ensures ResolveRange(fromParam, to1, env, now1).from == ParseInt(FromEnv(env).value)
  {
  }

  /** With neither a from parameter nor a configured start, the rolling window is used, whatever to says. */
  lemma RollingFallback(fromParam: Option<string>, toParam: Option<string>, env: Env, nowMs: int)
    requires !Truthy(fromParam) && !Truthy(FromEnv(env))
    ensures ResolveRange(fromParam, toParam, env, nowMs)
            == Range(Rolling12th(nowMs).from, Rolling12th(nowMs).to)
  {
  }

  /** An explicit pair of bounds written as integers is used verbatim. */
  lemma ExplicitBoundsVerbatim(a: int, b: int, env: Env, nowMs: int)
    ensures ResolveRange(Some(IntText(a)), Some(IntText(b)), env, nowMs) == Range(Some(a), Some(b))
  {
    ParseIntText(a);
    ParseIntText(b);
  }

  /** A start with no end (from the URL) gets the 28-day end. */
  lemma FromParamDerivedEnd(f: int, toParam: Option<string>, env: Env, nowMs: int)
    requires !Truthy(toParam)
    requires -MaxTime <= f * 1000 && f * 1000 + LeaderboardDurationDays * MsPerDay <= MaxTime
    requires !(0 <= UtcDate(f * 1000).year <= 99)
    ensures ResolveRange(Some(IntText(f)), toParam, env, nowMs)
            == Range(Some(f), Some((f / SecondsPerDay) * SecondsPerDay + LeaderboardDurationDays * SecondsPerDay - 1))
  {
    ParseIntText(f);
    DerivedEndIsTwentyEightDays(f);
  }

  /** The URL branch and the environment branch treat a start and an optional end identically. */
  lemma UrlAndEnvAgree(fromText: string, toText: Option<string>, nowMs: int)
    requires fromText != ""
    ensures ResolveRange(Some(fromText), toText, Env(None, None, None, None, None), nowMs)
            == ResolveRange(None, None, Env(Some(fromText), None, toText, None, None), nowMs)
  {
  }
}
