/**
 * Dates as the Gantt chart and its forms use them: a JavaScript `Date` is an
 * integer count of milliseconds, read here on the local clock (a fixed zone
 * offset already added, no daylight-saving jumps), so that a calendar day is
 * exactly `DAY` milliseconds and day 0 is Thursday 1 January 1970.
 */
module Dates {

  const DAY: int := 86400000

  /** `Math.floor((a - b) / DAY)`: whole days from `b` to `a`, rounded down. */
  function DifferenceInDays(a: int, b: int): (d: int)
    ensures d * DAY <= a - b < (d + 1) * DAY
  {
    (a - b) / DAY
  }

  /** date-fns `addDays(t, n)`. */
  function AddDays(t: int, n: int): int {
    t + n * DAY
  }

  /** The quotient of a floor division is the one whole count that brackets the dividend. */
  lemma FloorDivUnique(x: int, q: int)
    requires q * DAY <= x < (q + 1) * DAY
    ensures x / DAY == q
  {
  }

  /** Adding `k` days and measuring back gives `k`; in particular a date is 0 days from itself. */
  lemma DifferenceOfAddDays(t: int, k: int)
    ensures DifferenceInDays(AddDays(t, k), t) == k
    ensures DifferenceInDays(t, t) == 0
  {
    FloorDivUnique(k * DAY, k);
  }

  /** Moving the reference date by `k` days moves every difference by `-k`. */
  lemma DifferenceShift(a: int, b: int, k: int)
    ensures DifferenceInDays(a, AddDays(b, k)) == DifferenceInDays(a, b) - k
  {
    var d := DifferenceInDays(a, b);
    FloorDivUnique(a - AddDays(b, k), d - k);
  }

  /** The day number of a timestamp: days since 1 January 1970, rounded down. */
  function DayNumber(t: int): int {
    t / DAY
  }

  /** `date.getDay()`: 0 is Sunday, 6 is Saturday. */
  function DayOfWeek(t: int): (w: int)
    ensures 0 <= w < 7
  {
    (DayNumber(t) + 4) % 7
  }

  /** date-fns `isSameDay`: both instants fall on one calendar day. */
  predicate IsSameDay(a: int, b: int) {
    DayNumber(a) == DayNumber(b)
  }

  /** `n` days later is `n` places further round the week. */
  lemma DayOfWeekAddDays(t: int, n: int)
    ensures DayOfWeek(AddDays(t, n)) == (DayOfWeek(t) + n) % 7
  {
    assert DayNumber(AddDays(t, n)) == DayNumber(t) + n by {
      DifferenceOfAddDays(t, n);
    }
  }

  /** date-fns `startOfWeek(t)` with weeks starting on Sunday: midnight of the last Sunday at or before `t`. */
  function StartOfWeek(t: int): (s: int)
    ensures s % DAY == 0 && DayOfWeek(s) == 0
    ensures s <= t < s + 7 * DAY
  {
    var s := (DayNumber(t) - DayOfWeek(t)) * DAY;
    assert DayNumber(s) == DayNumber(t) - DayOfWeek(t);
    s
  }

  /**
   * Days from 1 January 1970 to the proleptic Gregorian date `y`-`m`-`d`
   * (`m` in 1..12; a day past the month's end runs on into the next one).
   */
  function DaysFromCivil(y: int, m: int, d: int): int
    requires 1 <= m <= 12
  {
    var y1 := if m <= 2 then y - 1 else y;
    var era := y1 / 400;
    var yoe := y1 - era * 400;
    var mp := if m > 2 then m - 3 else m + 9;
    var doy := (153 * mp + 2) / 5 + d - 1;
    var doe := yoe * 365 + yoe / 4 - yoe / 100 + doy;
    era * 146097 + doe - 719468
  }

  /**
   * `new Date(year, monthIndex, day)` on the local clock: a month index
   * outside 0..11 carries into the year, a day outside the month carries into
   * the neighbouring months, and a year 0..99 means 1900..1999.
   */
  function LocalDate(year: int, monthIndex: int, day: int): (t: int)
    ensures t % DAY == 0
  {
    var y := if 0 <= year <= 99 then 1900 + year else year;
    var days := DaysFromCivil(y + monthIndex / 12, monthIndex % 12 + 1, 1) + (day - 1);
    assert (days * DAY) / DAY == days;
    days * DAY
  }

  /** One more day of the month is one more day on the timeline. */
  lemma NextLocalDate(year: int, monthIndex: int, day: int)
    ensures LocalDate(year, monthIndex, day + 1) == AddDays(LocalDate(year, monthIndex, day), 1)
  {
  }

  /** The epoch was a Thursday, and 20 April 2025 (the sample project's first day) a Sunday. */
  lemma CalendarAnchors()
    ensures LocalDate(1970, 0, 1) == 0 && DayOfWeek(0) == 4
    ensures DayOfWeek(LocalDate(2025, 3, 20)) == 0
    ensures StartOfWeek(LocalDate(2025, 3, 23)) == LocalDate(2025, 3, 20)
  {
    assert DaysFromCivil(1970, 1, 1) == 0;
    assert DaysFromCivil(2025, 4, 1) == 20179;
    assert LocalDate(2025, 3, 20) == 20198 * DAY;
    FloorDivUnique(20198 * DAY, 20198);
    assert LocalDate(2025, 3, 23) == 20201 * DAY;
    FloorDivUnique(20201 * DAY, 20201);
  }

  // ---------------------------------------------------------------------------
  // `<input type="date">` values

  predicate IsDigit(c: char) {
    '0' <= c <= '9'
  }

  function Digit(c: char): int {
    (c as int) - ('0' as int)
  }

  /** A date input's value: empty, or `yyyy-mm-dd` naming a real month and a day 1..31. */
  predicate IsDateInput(s: string) {
    s == [] ||
    (|s| == 10 && s[4] == '-' && s[7] == '-'
     && IsDigit(s[0]) && IsDigit(s[1]) && IsDigit(s[2]) && IsDigit(s[3])
     && IsDigit(s[5]) && IsDigit(s[6]) && IsDigit(s[8]) && IsDigit(s[9])
     && 1 <= InputMonth(s) <= 12 && 1 <= InputDay(s) <= 31)
  }

  function InputYear(s: string): int
    requires |s| == 10
  {
    Digit(s[0]) * 1000 + Digit(s[1]) * 100 + Digit(s[2]) * 10 + Digit(s[3])
  }

  function InputMonth(s: string): int
    requires |s| == 10
  {
    Digit(s[5]) * 10 + Digit(s[6])
  }

  function InputDay(s: string): int
    requires |s| == 10
  {
    Digit(s[8]) * 10 + Digit(s[9])
  }

  /** `new Date(s)` for a non-empty date input: midnight at the start of that day. */
  function ParseDateInput(s: string): (t: int)
    requires IsDateInput(s) && s != []
    ensures t % DAY == 0
  {
    var days := DaysFromCivil(InputYear(s), InputMonth(s), InputDay(s));
    assert (days * DAY) / DAY == days;
    days * DAY
  }

  /** From year 100 on, a date input names the same day as `new Date(year, month - 1, day)`. */
  lemma ParseDateInputIsLocalDate(s: string)
    requires IsDateInput(s) && s != [] && InputYear(s) >= 100
    ensures ParseDateInput(s) == LocalDate(InputYear(s), InputMonth(s) - 1, InputDay(s))
  {
    var y, m, d := InputYear(s), InputMonth(s), InputDay(s);
    assert (m - 1) / 12 == 0 && (m - 1) % 12 == m - 1;
    assert DaysFromCivil(y, m, d) == DaysFromCivil(y, m, 1) + (d - 1);
  }
}
