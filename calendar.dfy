/** Time as the application sees it: instants in milliseconds since
    1970-01-01T00:00 local time (the model fixes the zone offset at zero),
    day numbers, weekdays and the proleptic Gregorian calendar.
    This stands in for the JavaScript `Date` object and the date-fns helpers
    (`startOfMonth`, `endOfMonth`, `startOfWeek`, `endOfWeek`, `subDays`,
    `isSameDay`) that the application calls. */
module Calendar {

  /** Milliseconds since the epoch (a JavaScript time value). */
  type Instant = int

  /** Days since the epoch; day 0 is Thursday 1970-01-01. */
  type Day = int

  const DayMs: int := 86_400_000

  /** The calendar day an instant falls on (`isSameDay` compares these). */
  function DayOf(t: Instant): (d: Day)
    ensures Midnight(d) <= t < Midnight(d) + DayMs
  {
    t / DayMs
  }

  /** Local midnight at the start of a day. */
  function Midnight(d: Day): (t: Instant)
  {
    d * DayMs
  }

  lemma DayOfMidnight(d: Day)
    ensures DayOf(Midnight(d)) == d
  {
  }

  /** The last millisecond of a day, as `endOfDay`/`endOfMonth` return it. */
  function EndOfDay(d: Day): (t: Instant)
    ensures DayOf(t) == d
  {
    Midnight(d) + DayMs - 1
  }

  /** `subDays(t, n)`: the same time of day, n days earlier. */
  function SubDays(t: Instant, n: int): (r: Instant)
    ensures DayOf(r) == DayOf(t) - n
    ensures r - Midnight(DayOf(r)) == t - Midnight(DayOf(t))
  {
    t - n * DayMs
  }

  /** `getDay()`: 0 is Sunday, 6 is Saturday. */
  function Weekday(d: Day): (w: int)
    ensures 0 <= w < 7
  {
    (d + 4) % 7
  }

  lemma WeekdayNext(d: Day)
    ensures Weekday(d + 1) == if Weekday(d) == 6 then 0 else Weekday(d) + 1
  {
  }

  /** Euclidean division of `a` by `b` is `q` when `a` lies in the
      `q`-th stretch of `b` numbers. */
  lemma DivBetween(a: int, b: int, q: int)
    requires 0 < b && q * b <= a < q * b + b
    ensures a / b == q && a % b == a - q * b
  {
    var q', r' := a / b, a % b;
    assert a == q' * b + r' && 0 <= r' < b;
    if q' > q {
      assert q' * b >= (q + 1) * b by { MulMonotone(q + 1, q', b); }
    } else if q' < q {
      assert (q' + 1) * b <= q * b by { MulMonotone(q' + 1, q, b); }
    }
  }

  lemma MulMonotone(x: int, y: int, b: int)
    requires x <= y && 0 < b
    ensures x * b <= y * b
  {
    assert y * b - x * b == (y - x) * b;
  }

  /** A civil date: year, month 1..12 and day of month 1..31. */
  datatype Civil = Civil(year: int, month: int, day: int)

  /** The civil date of a day number (H. Hinnant's `civil_from_days`). */
  function CivilFromDays(d: Day): (c: Civil)
    ensures 1 <= c.month <= 12 && 1 <= c.day <= 31
  {
    var z := d + 719468;
    var era := z / 146097;
    var doe := z % 146097;
    var yoe := (doe - doe / 1460 + doe / 36524 - doe / 146096) / 365;
    var doy := doe - (365 * yoe + yoe / 4 - yoe / 100);
    var mp := (5 * doy + 2) / 153;
    var dd := doy - (153 * mp + 2) / 5 + 1;
    var m := if mp < 10 then mp + 3 else mp - 9;
    Civil(yoe + era * 400 + (if m <= 2 then 1 else 0), m, dd)
  }

  /** The day number of a civil date (H. Hinnant's `days_from_civil`);
      a day of month past the month's end runs on into the next month. */
  function DaysFromCivil(year: int, month: int, day: int): (d: Day)
    requires 1 <= month <= 12
  {
    var y := if month <= 2 then year - 1 else year;
    var era := y / 400;
    var yoe := y % 400;
    var doy := (153 * (if month > 2 then month - 3 else month + 9) + 2) / 5 + day - 1;
    var doe := yoe * 365 + yoe / 4 - yoe / 100 + doy;
    era * 146097 + doe - 719468
  }

  /** `getMonth()`: 0 is January. */
  function MonthOf(d: Day): (m: int)
    ensures 0 <= m < 12
  {
    CivilFromDays(d).month - 1
  }

  /** `getFullYear()`. */
  function YearOf(d: Day): int
  {
    CivilFromDays(d).year
  }

  /** `getDate()`: the day of the month, 1..31. */
  function DayOfMonth(d: Day): (n: int)
    ensures 1 <= n <= 31
  {
    CivilFromDays(d).day
  }

  predicate IsLeapYear(y: int)
  {
    y % 4 == 0 && (y % 100 != 0 || y % 400 == 0)
  }

  function DaysInMonth(y: int, month: int): (n: int)
    requires 1 <= month <= 12
    ensures 28 <= n <= 31
  {
    if month == 2 then (if IsLeapYear(y) then 29 else 28)
    else if month == 4 || month == 6 || month == 9 || month == 11 then 30
    else 31
  }

  /** `new Date(year, monthIndex, day)` at local midnight, as a day number:
      a month index outside 0..11 moves the year and a day past the month's
      end runs on into the following month, as JavaScript does. */
  function JsDate(year: int, monthIndex: int, day: int): Day
  {
    DaysFromCivil(year + monthIndex / 12, monthIndex % 12 + 1, 1) + day - 1
  }

  /** `date.setMonth(monthIndex)`: keeps the year and the day of the month. */
  function SetMonth(d: Day, monthIndex: int): Day
  {
    JsDate(YearOf(d), monthIndex, DayOfMonth(d))
  }

  /** The first day of the month that contains `d` (`startOfMonth`). */
  function StartOfMonth(d: Day): (s: Day)
    ensures d - 30 <= s <= d
  {
    d - (DayOfMonth(d) - 1)
  }

  /** The last day of the month that contains `d` (`endOfMonth`). */
  function EndOfMonth(d: Day): (e: Day)
    ensures StartOfMonth(d) + 27 <= e <= StartOfMonth(d) + 30
  {
    var c := CivilFromDays(d);
    StartOfMonth(d) + DaysInMonth(c.year, c.month) - 1
  }

  /** The Sunday that starts the week containing `d`
      (`startOfWeek` with `weekStartsOn: 0`). */
  function StartOfWeek(d: Day): (s: Day)
    ensures Weekday(s) == 0 && d - 6 <= s <= d
  {
    d - Weekday(d)
  }

  /** The Saturday that ends the week containing `d` (`endOfWeek`). */
  function EndOfWeek(d: Day): (e: Day)
    ensures Weekday(e) == 6 && e == StartOfWeek(d) + 6
  {
    StartOfWeek(d) + 6
  }
}
