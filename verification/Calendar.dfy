/** `format_utc` of `src/bg_ledger.rs`: epoch seconds to a UTC date and time with the
    civil-from-days computation, against day-by-day counting in the Gregorian calendar (leap
    rule of RFC 3339, Appendix C; field layout of RFC 3339, section 5.6).
 */
module Calendar {
  datatype Date = Date(year: int, month: int, day: int)

  datatype Stamp = Stamp(date: Date, hour: int, minute: int, second: int)

  // ---------------------------------------------------------------- the calendar rule

  predicate IsLeap(year: int) {
    year % 4 == 0 && (year % 100 != 0 || year % 400 == 0)
  }

  function MonthLength(year: int, month: int): int {
    if month == 2 then (if IsLeap(year) then 29 else 28)
    else if month == 4 || month == 6 || month == 9 || month == 11 then 30 else 31
  }

  predicate RealDate(d: Date) {
    1 <= d.month <= 12 && 1 <= d.day <= MonthLength(d.year, d.month)
  }

  function NextDay(d: Date): Date {
    if d.day < MonthLength(d.year, d.month) then d.(day := d.day + 1)
    else if d.month < 12 then Date(d.year, d.month + 1, 1)
    else Date(d.year + 1, 1, 1)
  }

  /** The date `n` days after 1970-01-01, counted one day at a time. */
  function CountDays(n: nat): Date {
    if n == 0 then Date(1970, 1, 1) else NextDay(CountDays(n - 1))
  }

  // ---------------------------------------------------------------- the computation

  /** Day of the 400-year era to year of the era (years start on March 1st). */
  function YearOfEra(doe: int): int {
    (doe - doe / 1460 + doe / 36524 - doe / 146096) / 365
  }

  function YearStart(yoe: int): int {
    365 * yoe + yoe / 4 - yoe / 100
  }

  /** Month and day of day `doy` of the year that starts on March 1st of year `y`. */
  function FromDayOfYear(y: int, doy: int): Date {
    var mp := (5 * doy + 2) / 153;
    var m := if mp < 10 then mp + 3 else mp - 9;
    Date(if m <= 2 then y + 1 else y, m, doy - (153 * mp + 2) / 5 + 1)
  }

  /** The date part of `format_utc`; `days` is never negative there, so the era is a plain quotient. */
  function CivilFromDays(days: nat): Date {
    var z := days + 719468;
    var era := z / 146097;
    var doe := z - era * 146097;
    var yoe := YearOfEra(doe);
    FromDayOfYear(yoe + era * 400, doe - YearStart(yoe))
  }

  function FormatUtc(epochSecs: nat): Stamp {
    var sod := epochSecs % 86400;
    Stamp(CivilFromDays(epochSecs / 86400), sod / 3600, (sod % 3600) / 60, sod % 60)
  }

  // ---------------------------------------------------------------- years

  /** Year length in days when years start on March 1st: year `y` ends in February of `y + 1`. */
  function YearLength(yoe: int): int {
    if IsLeap(yoe + 1) then 366 else 365
  }

  /** `yoe` is the year of the era that contains day `doe`. */
  predicate InYear(doe: int, yoe: int) {
    0 <= yoe < 400 && YearStart(yoe) <= doe < YearStart(yoe) + YearLength(yoe)
  }

  lemma {:induction false} YearStartParts(c: int, q: int, s: int)
    requires 0 <= c < 4 && 0 <= q < 25 && 0 <= s < 4
    ensures YearStart(100 * c + 4 * q + s) == 36524 * c + 1461 * q + 365 * s
  {
    var y := 100 * c + 4 * q + s;
    assert y / 4 == 25 * c + q;
    assert y / 100 == c;
  }

  /** The division trick: century `c`, four-year cycle `q`, year `s`, day `t` are recovered. */
  lemma {:induction false} YearOfEraParts(c: int, q: int, s: int, t: int)
    requires 0 <= c < 4 && 0 <= q < 25 && 0 <= s < 4
    requires 0 <= t < YearLength(100 * c + 4 * q + s)
    ensures YearOfEra(36524 * c + 1461 * q + 365 * s + t) == 100 * c + 4 * q + s
  {
    var v := 365 * s + t;
    var doe := 36524 * c + 1461 * q + v;
    var carry := (24 * c + q + v) / 1460;
    assert doe / 1460 == 25 * c + q + carry;
    if doe == 146096 {
      assert doe / 36524 == 4 && doe / 146096 == 1;
    } else {
      assert doe / 36524 == c && doe / 146096 == 0;
    }
  }

  lemma {:induction false} YearOfEraIsRight(doe: int)
    requires 0 <= doe < 146097
    ensures InYear(doe, YearOfEra(doe))
  {
    var c := if doe == 146096 then 3 else doe / 36524;
    var w := doe - 36524 * c;
    var q := if w == 36524 then 24 else w / 1461;
    var v := w - 1461 * q;
    var s := if v == 1460 then 3 else v / 365;
    var t := v - 365 * s;
    YearStartParts(c, q, s);
    YearOfEraParts(c, q, s, t);
  }

  /** The year containing a day is unique. */
  lemma {:induction false} YearUnique(doe: int, y1: int, y2: int)
    requires InYear(doe, y1) && InYear(doe, y2)
    ensures y1 == y2
  {
    if y1 < y2 {
      YearsAscend(y1, y2);
    } else if y2 < y1 {
      YearsAscend(y2, y1);
    }
  }

  lemma {:induction false} YearsAscend(y1: int, y2: int)
    requires 0 <= y1 < y2 < 400
    ensures YearStart(y1) + YearLength(y1) <= YearStart(y2)
    decreases y2 - y1
  {
    YearFollows(y1);
    if y1 + 1 < y2 {
      YearsAscend(y1 + 1, y2);
    }
  }

  lemma {:induction false} YearFollows(y: int)
    requires 0 <= y < 399
    ensures YearStart(y + 1) == YearStart(y) + YearLength(y)
  {
    var n := y + 1;
    assert n / 4 == y / 4 + if n % 4 == 0 then 1 else 0;
    assert n / 100 == y / 100 + if n % 100 == 0 then 1 else 0;
    assert n % 400 != 0;
  }

  // ---------------------------------------------------------------- months

  /** First day of the `mp`-th month after March. */
  function MonthStart(mp: int): int {
    (153 * mp + 2) / 5
  }

  /** The table hidden in the constants 153 and 5: month lengths from March to January. */
  lemma {:induction false} MonthTable(y: int, mp: int)
    requires 0 <= mp < 12
    ensures mp < 11 ==>
              MonthStart(mp + 1) - MonthStart(mp) ==
              MonthLength(if mp < 10 then y else y + 1, if mp < 10 then mp + 3 else mp - 9)
    ensures mp == 11 ==> MonthStart(mp) == 337 && MonthStart(mp + 1) >= 366
  {
  }

  lemma {:induction false} NextDayOfYear(y: int, doy: int)
    requires 0 <= doy && doy + 1 < (if IsLeap(y + 1) then 366 else 365)
    ensures FromDayOfYear(y, doy + 1) == NextDay(FromDayOfYear(y, doy))
    ensures RealDate(FromDayOfYear(y, doy))
  {
    var mp := (5 * doy + 2) / 153;
    MonthTable(y, mp);
    if doy + 1 < MonthStart(mp + 1) {
    } else {
      MonthTable(y, mp + 1);
    }
  }

  lemma {:induction false} LastDayOfYear(y: int)
    ensures var last := if IsLeap(y + 1) then 365 else 364;
      FromDayOfYear(y + 1, 0) == NextDay(FromDayOfYear(y, last)) && RealDate(FromDayOfYear(y, last))
  {
  }

  lemma {:induction false} By4(n: int, k: int)
    ensures (n + 4 * k) % 4 == n % 4
  {
  }

  lemma {:induction false} By100(n: int, k: int)
    ensures (n + 100 * k) % 100 == n % 100
  {
  }

  lemma {:induction false} By400(n: int, k: int)
    ensures (n + 400 * k) % 400 == n % 400
  {
  }

  lemma {:induction false} LeapRepeats(year: int, era: int)
    ensures IsLeap(year + 400 * era) == IsLeap(year)
  {
    var n := year + 400 * era;
    assert n % 4 == year % 4 by { By4(year, 100 * era); }
    assert n % 100 == year % 100 by { By100(year, 4 * era); }
    assert n % 400 == year % 400 by { By400(year, era); }
  }

  // ---------------------------------------------------------------- the two agree

  /** The date of day `doe` of an era, when `yoe` is the year it falls in. */
  lemma {:induction false} CivilInYear(days: nat, era: int, doe: int, yoe: int)
    requires days + 719468 == era * 146097 + doe && 0 <= doe < 146097 && InYear(doe, yoe)
    ensures CivilFromDays(days) == FromDayOfYear(yoe + 400 * era, doe - YearStart(yoe))
    ensures IsLeap(yoe + 400 * era + 1) == IsLeap(yoe + 1)
  {
    hide YearOfEra, IsLeap, FromDayOfYear, YearStart;
    YearOfEraIsRight(doe);
    YearUnique(doe, yoe, YearOfEra(doe));
    LeapRepeats(yoe + 1, era);
    var z := days + 719468;
    assert z / 146097 == era;
  }

  /** The next day within a year. */
  lemma {:induction false} StepInYear(days: nat, era: int, doe: int, yoe: int)
    requires days + 719468 == era * 146097 + doe && 0 <= doe && doe + 1 < 146097
    requires InYear(doe, yoe) && InYear(doe + 1, yoe)
    ensures CivilFromDays(days + 1) == NextDay(CivilFromDays(days)) && RealDate(CivilFromDays(days))
  {
    hide CivilFromDays, FromDayOfYear, NextDay, RealDate, IsLeap;
    CivilInYear(days, era, doe, yoe);
    CivilInYear(days + 1, era, doe + 1, yoe);
    NextDayOfYear(yoe + 400 * era, doe - YearStart(yoe));
  }

  /** From the last day of a year to the first of the next, in the same era or the next one. */
  lemma {:induction false} StepOverYear(days: nat, era: int, doe: int, yoe: int, era': int, doe': int, yoe': int)
    requires days + 719468 == era * 146097 + doe && days + 1 + 719468 == era' * 146097 + doe'
    requires 0 <= doe < 146097 && 0 <= doe' < 146097 && InYear(doe, yoe) && InYear(doe', yoe')
    requires doe + 1 == YearStart(yoe) + YearLength(yoe) && doe' == YearStart(yoe')
    requires yoe' + 400 * era' == yoe + 400 * era + 1
    ensures CivilFromDays(days + 1) == NextDay(CivilFromDays(days)) && RealDate(CivilFromDays(days))
  {
    hide CivilFromDays, FromDayOfYear, NextDay, RealDate, IsLeap;
    CivilInYear(days, era, doe, yoe);
    CivilInYear(days + 1, era', doe', yoe');
    LastDayOfYear(yoe + 400 * era);
  }

  lemma {:induction false} CivilStep(days: nat)
    ensures CivilFromDays(days + 1) == NextDay(CivilFromDays(days))
    ensures RealDate(CivilFromDays(days))
  {
    hide CivilFromDays, NextDay, RealDate, YearOfEra, IsLeap;
    var z := days + 719468;
    var era, doe := z / 146097, z % 146097;
    YearOfEraIsRight(doe);
    var yoe := YearOfEra(doe);
    YearStartBounds(yoe);
    YearStartBounds(0);
    if doe + 1 < YearStart(yoe) + YearLength(yoe) {
      StepInYear(days, era, doe, yoe);
    } else if yoe < 399 {
      YearFollows(yoe);
      YearStartBounds(yoe + 1);
      StepOverYear(days, era, doe, yoe, era, doe + 1, yoe + 1);
    } else {
      StepOverYear(days, era, doe, yoe, era + 1, 0, 0);
    }
  }

  lemma {:induction false} YearStartBounds(y: int)
    requires 0 <= y < 400
    ensures YearStart(0) == 0 && YearStart(y) + YearLength(y) <= 146097
    ensures y == 399 ==> YearStart(y) + YearLength(y) == 146097
  {
    if y < 399 {
      YearsAscend(y, 399);
    }
  }

  lemma {:induction false} CivilStart()
    ensures CivilFromDays(0) == Date(1970, 1, 1)
  {
    hide CivilFromDays;
    CivilInYear(0, 4, 135080, 369);
  }

  /** For every day count, the closed form gives the date reached by counting days. */
  lemma {:induction false} CivilCountsDays(days: nat)
    ensures CivilFromDays(days) == CountDays(days) && RealDate(CountDays(days))
  {
    hide CivilFromDays, NextDay, RealDate;
    CivilStep(days);
    CivilStart();
    if days > 0 {
      CivilCountsDays(days - 1);
      CivilStep(days - 1);
    }
  }

  // ---------------------------------------------------------------- order

  /** Dates in calendar order. */
  predicate Before(a: Date, b: Date) {
    a.year < b.year || (a.year == b.year && (a.month < b.month || (a.month == b.month && a.day < b.day)))
  }

  /** The day number that a stamp's time of day extends. */
  function SecondOfDay(s: Stamp): int {
    3600 * s.hour + 60 * s.minute + s.second
  }

  predicate Earlier(a: Stamp, b: Stamp) {
    Before(a.date, b.date) || (a.date == b.date && SecondOfDay(a) < SecondOfDay(b))
  }

  lemma {:induction false} DaysAscend(a: nat, b: nat)
    requires a < b
    ensures Before(CountDays(a), CountDays(b))
    decreases b - a
  {
    hide CivilFromDays, IsLeap;
    CivilCountsDays(b - 1);
    if a < b - 1 {
      DaysAscend(a, b - 1);
    }
  }

  /** The whole function: the date is the counted one, every field is in range, and the
      seconds of the day are the ones left over. */
  lemma {:induction false} FormatIsRight(t: nat)
    ensures var s := FormatUtc(t);
      && s.date == CountDays(t / 86400) && RealDate(s.date)
      && 0 <= s.hour < 24 && 0 <= s.minute < 60 && 0 <= s.second < 60
      && SecondOfDay(s) == t % 86400
  {
    hide CivilFromDays, CountDays, RealDate;
    CivilCountsDays(t / 86400);
    var sod := t % 86400;
    assert sod == 3600 * (sod / 3600) + sod % 3600;
    assert (sod % 3600) % 60 == sod % 60;
  }

  /** Later seconds give later stamps; so two different seconds never share a stamp. */
  lemma {:induction false} FormatAscends(t1: nat, t2: nat)
    requires t1 < t2
    ensures Earlier(FormatUtc(t1), FormatUtc(t2)) && FormatUtc(t1) != FormatUtc(t2)
  {
    hide FormatUtc, CountDays;
    FormatIsRight(t1);
    FormatIsRight(t2);
    if t1 / 86400 < t2 / 86400 {
      DaysAscend(t1 / 86400, t2 / 86400);
    }
  }
}
