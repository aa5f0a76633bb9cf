/** Dates without JavaScript's `Date`: a timestamp is a whole number of hours
    on the browser's local clock, a day is a whole number of days, both counted
    from 1970-01-01 00:00.  The civil date (year, month, day of month) of a day
    is computed with the Gregorian leap-year rule, and the English weekday name
    with 1970-01-01 being a Thursday. */
module Calendar {

  /** Whole hours since 1970-01-01 00:00, local time. */
  type Timestamp = int

  /** Whole days since 1970-01-01.  A day column of a schedule grid is the
      local midnight that starts the day. */
  type Day = int

  function DayOf(t: Timestamp): Day
  {
    t / 24
  }

  /** `getHours()`. */
  function HourOf(t: Timestamp): (h: int)
    ensures 0 <= h < 24
  {
    t % 24
  }

  function StartOfDay(d: Day): Timestamp
  {
    d * 24
  }

  predicate IsLeapYear(y: int)
  {
    y % 4 == 0 && (y % 100 != 0 || y % 400 == 0)
  }

  /** Days in civil month `m` (1 = January) of year `y`. */
  function DaysInMonth(y: int, m: int): int
    requires 1 <= m <= 12
  {
    if m == 2 then (if IsLeapYear(y) then 29 else 28)
    else if m == 4 || m == 6 || m == 9 || m == 11 then 30
    else 31
  }

  /** The calendar fields `getFullYear()`, `getMonth()` and `getDate()` read.
      `month` counts from 1 here where `getMonth()` counts from 0; only
      equality of the fields is ever used, which the offset does not affect. */
  datatype Date = Date(year: int, month: int, day: int)

  predicate ValidDate(date: Date)
  {
    1 <= date.month <= 12 && 1 <= date.day <= DaysInMonth(date.year, date.month)
  }

  // The computation walks "shifted" years, each running from 1 March of `y`
  // to the end of February of `y + 1`, so that the leap day is the last day.

  /** Length of month `k` (0 = March, ..., 11 = February) of shifted year `y`. */
  function ShiftedMonthLength(y: int, k: int): int
    requires 0 <= k < 12
  {
    if k < 10 then DaysInMonth(y, k + 3) else DaysInMonth(y + 1, k - 9)
  }

  function ShiftedYearLength(y: int): int
  {
    if IsLeapYear(y + 1) then 366 else 365
  }

  /** Days of shifted year `y` that come before its month `k`. */
  function MonthOffset(y: int, k: int): int
    requires 0 <= k <= 12
  {
    if k == 0 then 0 else MonthOffset(y, k - 1) + ShiftedMonthLength(y, k - 1)
  }

  lemma MonthOffsetsFillYear(y: int)
    ensures MonthOffset(y, 12) == ShiftedYearLength(y)
  {
    assert MonthOffset(y, 1) == 31;
    assert MonthOffset(y, 2) == 61;
    assert MonthOffset(y, 3) == 92;
    assert MonthOffset(y, 4) == 122;
    assert MonthOffset(y, 5) == 153;
    assert MonthOffset(y, 6) == 184;
    assert MonthOffset(y, 7) == 214;
    assert MonthOffset(y, 8) == 245;
    assert MonthOffset(y, 9) == 275;
    assert MonthOffset(y, 10) == 306;
    assert MonthOffset(y, 11) == 337;
  }

  /** The day on which shifted year `y` begins (1 March of `y`); 1 March 1970 is day 59. */
  function ShiftedYearStart(y: int): Day
    decreases if y < 1970 then 1970 - y else y - 1970
  {
    if y == 1970 then 59
    else if y > 1970 then ShiftedYearStart(y - 1) + ShiftedYearLength(y - 1)
    else ShiftedYearStart(y + 1) - ShiftedYearLength(y)
  }

  lemma NextShiftedYearStart(y: int)
    ensures ShiftedYearStart(y + 1) == ShiftedYearStart(y) + ShiftedYearLength(y)
  {
  }

  /** The shifted year holding day `d`, searched from year `y`, and the
      position of `d` within it. */
  function FindShiftedYear(d: Day, y: int): (r: (int, int))
    ensures 0 <= r.1 < ShiftedYearLength(r.0)
    ensures ShiftedYearStart(r.0) + r.1 == d
    decreases (if d < ShiftedYearStart(y) then ShiftedYearStart(y) - d else 0),
              (if d < ShiftedYearStart(y) then 0 else d - ShiftedYearStart(y))
  {
    NextShiftedYearStart(y - 1);
    NextShiftedYearStart(y);
    if d < ShiftedYearStart(y) then FindShiftedYear(d, y - 1)
    else if d < ShiftedYearStart(y) + ShiftedYearLength(y) then (y, d - ShiftedYearStart(y))
    else FindShiftedYear(d, y + 1)
  }

  /** The month of shifted year `y` holding position `o` of month `k` onwards,
      and the position within that month. */
  function FindShiftedMonth(y: int, k: int, o: int): (r: (int, int))
    requires 0 <= k < 12 && 0 <= o
    requires MonthOffset(y, k) + o < ShiftedYearLength(y)
    ensures k <= r.0 < 12 && 0 <= r.1 < ShiftedMonthLength(y, r.0)
    ensures MonthOffset(y, r.0) + r.1 == MonthOffset(y, k) + o
    decreases 12 - k
  {
    if o < ShiftedMonthLength(y, k) then (k, o)
    else
      MonthOffsetsFillYear(y);
      assert k < 11;
      FindShiftedMonth(y, k + 1, o - ShiftedMonthLength(y, k))
  }

  /** The civil date of day `d`: always a valid Gregorian date. */
  function CivilFromDays(d: Day): (r: Date)
    ensures ValidDate(r)
  {
    var (y, o) := FindShiftedYear(d, 1970);
    var (k, dd) := FindShiftedMonth(y, 0, o);
    if k < 10 then Date(y, k + 3, dd + 1) else Date(y + 1, k - 9, dd + 1)
  }

  /** The day a valid civil date falls on. */
  function DaysFromCivil(date: Date): Day
    requires ValidDate(date)
  {
    var y := if date.month <= 2 then date.year - 1 else date.year;
    var k := if date.month <= 2 then date.month + 9 else date.month - 3;
    ShiftedYearStart(y) + MonthOffset(y, k) + date.day - 1
  }

  /** Converting a day to its civil date and back gives the same day. */
  lemma CivilRoundTrip(d: Day)
    ensures DaysFromCivil(CivilFromDays(d)) == d
  {
  }

  /** Two different days never share a civil date. */
  lemma CivilInjective(d1: Day, d2: Day)
    requires CivilFromDays(d1) == CivilFromDays(d2)
    ensures d1 == d2
  {
    CivilRoundTrip(d1);
    CivilRoundTrip(d2);
  }

  /** The year, month, day of month and hour of a timestamp together
      determine the timestamp. */
  lemma FieldsDetermineTimestamp(t1: Timestamp, t2: Timestamp)
    requires CivilFromDays(DayOf(t1)) == CivilFromDays(DayOf(t2))
    requires HourOf(t1) == HourOf(t2)
    ensures t1 == t2
  {
    CivilInjective(DayOf(t1), DayOf(t2));
  }

  /** The seven names `toLocaleString("en-US", { weekday: "long" })` produces,
      Sunday first: the order of every weekday table of the pages. */
  const WeekdayNames: seq<string> :=
    ["Sunday", "Monday", "Tuesday", "Wednesday", "Thursday", "Friday", "Saturday"]

  lemma WeekdayNamesDistinct()
    ensures |WeekdayNames| == 7
    ensures forall i, j :: 0 <= i < j < 7 ==> WeekdayNames[i] != WeekdayNames[j]
  {
  }

  /** Position of day `d` in a Sunday-first week; day 0 (1970-01-01) is a Thursday. */
  function WeekdayIndex(d: Day): (w: int)
    ensures 0 <= w < 7
  {
    (d + 4) % 7
  }

  /** `day.toLocaleString("en-US", { weekday: "long" })`. */
  function WeekdayName(d: Day): (name: string)
    ensures name in WeekdayNames
  {
    WeekdayNames[WeekdayIndex(d)]
  }

  /** A day has the `i`-th weekday name exactly when it is the `i`-th day of its week. */
  lemma WeekdayNameIndex(d: Day, i: int)
    requires 0 <= i < 7
    ensures WeekdayName(d) == WeekdayNames[i] <==> WeekdayIndex(d) == i
  {
    WeekdayNamesDistinct();
  }

  /** 1970-01-01, the origin of both counts, is a Thursday. */
  lemma EpochIsThursday()
    ensures CivilFromDays(0) == Date(1970, 1, 1)
    ensures WeekdayName(0) == "Thursday"
  {
    assert FindShiftedYear(0, 1969) == (1969, 306);
    assert FindShiftedMonth(1969, 10, 0) == (10, 0);
    assert MonthOffset(1969, 10) == 306;
  }

  /** `addDays(d, n)`. */
  function AddDays(d: Day, n: int): Day
  {
    d + n
  }

  /** Whole weeks do not change the weekday. */
  lemma {:induction false} WeekdayAfterWeeks(d: Day, n: int)
    ensures WeekdayIndex(AddDays(d, 7 * n)) == WeekdayIndex(d)
    decreases if n < 0 then -n else n
  {
    if n > 0 {
      WeekdayAfterWeeks(d, n - 1);
      assert AddDays(d, 7 * n) == AddDays(d, 7 * (n - 1)) + 7;
    } else if n < 0 {
      WeekdayAfterWeeks(d, n + 1);
      assert AddDays(d, 7 * n) == AddDays(d, 7 * (n + 1)) - 7;
    }
  }

  /** `startOfWeek(d)` with date-fns' default week start, Sunday. */
  function StartOfWeek(d: Day): (s: Day)
    ensures s <= d < s + 7
    ensures WeekdayIndex(s) == 0
  {
    d - WeekdayIndex(d)
  }

  /** The day `endOfWeek(d)` falls on: the Saturday of the week holding `d`. */
  function EndOfWeek(d: Day): (e: Day)
    ensures d <= e < d + 7
    ensures WeekdayIndex(e) == 6
  {
    StartOfWeek(d) + 6
  }

  /** `eachDayOfInterval({ start, end: endOfWeek(start) })`: the consecutive
      days from `start` to the Saturday after it. */
  function WeekDays(start: Day): (days: seq<Day>)
    ensures |days| == 7 - WeekdayIndex(start)
    ensures forall i :: 0 <= i < |days| ==> days[i] == AddDays(start, i)
    ensures days[|days| - 1] == EndOfWeek(start)
  {
    seq(7 - WeekdayIndex(start), i => AddDays(start, i))
  }

  /** A week that starts on a Sunday shows seven days, named Sunday to Saturday. */
  lemma WeekDaysOfSundayStart(start: Day)
    requires WeekdayIndex(start) == 0
    ensures |WeekDays(start)| == 7
    ensures forall i :: 0 <= i < 7 ==> WeekdayName(WeekDays(start)[i]) == WeekdayNames[i]
  {
  }
}
