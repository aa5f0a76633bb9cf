/** The teacher's own weekly schedule: a grid of hour rows in a chosen range
    by the seven days of the displayed week.  A cell shows the first lesson
    that lands in it; failing that, "free" when a weekly working-time slot has
    the cell's weekday name and hour; otherwise nothing. */
module TeacherSchedule {
  import opened Base
  import opened Text
  import opened Calendar
  import opened Domain
  import opened LessonCells
  import Lists

  /** `allHours`: the labels `"00:00"` to `"23:00"` of both hour selectors. */
  const AllHours: seq<string> := seq(24, i requires 0 <= i => HourLabel(i))

  /** The selector labels are the 24 whole hours, each written `HH:00` and
      naming its own hour. */
  lemma AllHoursLabels()
    ensures |AllHours| == 24
    ensures forall i :: 0 <= i < 24 ==>
      |AllHours[i]| == 5 && AllHours[i][2..] == ":00" && ParseInt(AllHours[i]) == Some(i)
  {
    forall i | 0 <= i < 24
      ensures |AllHours[i]| == 5 && AllHours[i][2..] == ":00" && ParseInt(AllHours[i]) == Some(i)
    {
      Pad2Digits(i);
      ParseIntPadded(i, ":00");
    }
  }

  /** One row of the grid. */
  datatype HourRow = HourRow(hour: int, caption: string)

  /** `` `${pad(h)}:00 – ${pad(h + 1)}:00` ``. */
  function RowLabel(h: nat): string
  {
    HourLabel(h) + " – " + HourLabel(h + 1)
  }

  /** For the hours of a day the label is `HH:00 – HH:00` with two-digit
      hours: it starts with the row's own hour and ends with the next one. */
  lemma RowLabelShape(h: nat)
    requires h < 24
    ensures |RowLabel(h)| == 13
    ensures RowLabel(h)[..5] == AllHours[h] && RowLabel(h)[8..] == HourLabel(h + 1)
    ensures ParseInt(RowLabel(h)) == Some(h)
  {
    var caption, first, second := RowLabel(h), HourLabel(h), HourLabel(h + 1);
    assert caption == first + " – " + second;
    assert caption[..5] == first && caption[8..] == second;
    Pad2Digits(h);
    var rest := ":00 – " + second;
    assert caption == Pad2(h) + rest;
    ParseIntPadded(h, rest);
  }

  /** The rows for `[fromHour, toHour)`, as a value. */
  function HourRows(fromHour: nat, toHour: nat): (rows: seq<HourRow>)
    ensures |rows| == if fromHour < toHour then toHour - fromHour else 0
    ensures forall k :: 0 <= k < |rows| ==> rows[k].hour == fromHour + k && rows[k].caption == RowLabel(fromHour + k)
  {
    seq(if fromHour < toHour then toHour - fromHour else 0, k requires 0 <= k => HourRow(fromHour + k, RowLabel(fromHour + k)))
  }

  /** The `timeSlots` loop: one row per hour `h` with `fromHour <= h < toHour`,
      in increasing order, none when the range is empty. */
  method BuildTimeSlots(fromHour: nat, toHour: nat) returns (rows: seq<HourRow>)
    ensures |rows| == if fromHour < toHour then toHour - fromHour else 0
    ensures forall k :: 0 <= k < |rows| ==> rows[k].hour == fromHour + k && rows[k].caption == RowLabel(fromHour + k)
    ensures rows == HourRows(fromHour, toHour)
  {
    rows := [];
    var h := fromHour;
    while h < toHour
      invariant fromHour <= h
      invariant fromHour < toHour ==> h <= toHour
      invariant toHour <= fromHour ==> h == fromHour
      invariant |rows| == h - fromHour
      invariant forall k :: 0 <= k < |rows| ==> rows[k] == HourRow(fromHour + k, RowLabel(fromHour + k))
    {
      rows := rows + [HourRow(h, RowLabel(h))];
      h := h + 1;
    }
  }

  /** An hour is shown exactly when it lies in `[fromHour, toHour)`. */
  lemma HourRowsCover(fromHour: nat, toHour: nat, h: int)
    ensures (exists k :: 0 <= k < |HourRows(fromHour, toHour)| && HourRows(fromHour, toHour)[k].hour == h)
        <==> fromHour <= h < toHour
  {
    if fromHour <= h < toHour {
      assert HourRows(fromHour, toHour)[h - fromHour].hour == h;
    }
  }

  /** An `<option>` of an hour selector. */
  datatype HourOption = HourOption(value: int, caption: string, disabled: bool)

  /** The `fromHour` selector: values 0..23, those at or after `toHour` disabled. */
  function FromHourOptions(toHour: int): (options: seq<HourOption>)
    ensures |options| == 24
    ensures forall idx :: 0 <= idx < 24 ==>
      options[idx].value == idx && options[idx].caption == HourLabel(idx) && (options[idx].disabled <==> idx >= toHour)
  {
    seq(24, idx requires 0 <= idx < 24 => HourOption(idx, AllHours[idx], idx >= toHour))
  }

  /** The `toHour` selector: values 1..24, labelled with the hour before the
      value; those before `fromHour` disabled. */
  function ToHourOptions(fromHour: int): (options: seq<HourOption>)
    ensures |options| == 24
    ensures forall idx :: 0 <= idx < 24 ==>
      options[idx].value == idx + 1 && options[idx].caption == HourLabel(idx) && (options[idx].disabled <==> idx < fromHour)
  {
    seq(24, idx requires 0 <= idx < 24 => HourOption(idx + 1, AllHours[idx], idx < fromHour))
  }

  /** Every enabled option keeps `fromHour < toHour`, and every hour that
      keeps it is offered. */
  lemma SelectorsKeepRangeNonEmpty(fromHour: int, toHour: int)
    ensures forall o :: o in FromHourOptions(toHour) && !o.disabled ==> 0 <= o.value < toHour && o.value < 24
    ensures forall o :: o in ToHourOptions(fromHour) && !o.disabled ==> fromHour < o.value && 1 <= o.value <= 24
    ensures forall v :: 0 <= v < 24 && v < toHour ==> HourOption(v, AllHours[v], false) in FromHourOptions(toHour)
    ensures forall idx :: 0 <= idx < 24 && fromHour <= idx ==> HourOption(idx + 1, AllHours[idx], false) in ToHourOptions(fromHour)
  {
    forall v | 0 <= v < 24 && v < toHour
      ensures HourOption(v, AllHours[v], false) in FromHourOptions(toHour)
    {
      assert FromHourOptions(toHour)[v] == HourOption(v, AllHours[v], false);
    }
    forall idx | 0 <= idx < 24 && fromHour <= idx
      ensures HourOption(idx + 1, AllHours[idx], false) in ToHourOptions(fromHour)
    {
      assert ToHourOptions(fromHour)[idx] == HourOption(idx + 1, AllHours[idx], false);
    }
  }

  /** The slot hour `isFree` compares: `parseInt(slot.time.split(":")[0], 10)`. */
  function SlotHour(slot: TimeSlot): (h: Option<int>)
    ensures |slot.time| >= 3 && IsDigit(slot.time[0]) && IsDigit(slot.time[1]) && slot.time[2] == ':' ==>
      h == Some(DigitsValue(slot.time[..2]))
    ensures BeforeColon(slot.time) == [] ==> h.None?
  {
    TwoDigitHourField(slot.time);
    ParseInt(BeforeColon(slot.time))
  }

  /** A time starting with two digits and a colon has those two digits as
      its hour field. */
  lemma TwoDigitHourField(t: string)
    ensures |t| >= 3 && IsDigit(t[0]) && IsDigit(t[1]) && t[2] == ':' ==>
      BeforeColon(t) == t[..2] && AllDigits(t[..2])
  {
    if |t| >= 3 && IsDigit(t[0]) && IsDigit(t[1]) && t[2] == ':' {
      assert t == t[..2] + t[2..];
      BeforeColonAppend(t[..2], t[2..]);
      assert BeforeColon(t[..2]) == t[..2];
    }
  }

  /** The comparison inside `isFree`: same English weekday name, same hour.
      `isBusy` is not consulted. */
  predicate SlotCovers(slot: TimeSlot, day: Day, hour: int)
    ensures SlotCovers(slot, day, hour) ==> slot.dayOfWeek in WeekdayNames && BeforeColon(slot.time) != []
  {
    slot.dayOfWeek == WeekdayName(day) && SlotHour(slot) == Some(hour)
  }

  /** A slot recurs weekly: it covers an hour of a day exactly when it covers
      that hour of the same weekday any whole number of weeks away. */
  lemma SlotCoversEveryWeek(slot: TimeSlot, day: Day, hour: int, n: int)
    ensures SlotCovers(slot, day, hour) <==> SlotCovers(slot, AddDays(day, 7 * n), hour)
  {
    WeekdayAfterWeeks(day, n);
  }

  /** `isFree(day, hour)`. */
  function IsFree(slots: seq<TimeSlot>, day: Day, hour: int): (r: bool)
    ensures r <==> exists i :: 0 <= i < |slots| && slots[i].dayOfWeek == WeekdayName(day)
                                 && SlotHour(slots[i]) == Some(hour)
  {
    Lists.Any(slots, (s: TimeSlot) => SlotCovers(s, day, hour))
  }

  /** Minutes and seconds are ignored: a slot at `HH:<anything>` covers hour
      `HH` of every day with its weekday name. */
  lemma SlotHourIgnoresMinutes(slot: TimeSlot, h: nat, rest: string)
    requires h < 100 && rest != [] && rest[0] == ':'
    requires slot.time == Pad2(h) + rest
    ensures SlotHour(slot) == Some(h)
  {
    BeforeColonAppend(Pad2(h), rest);
    Pad2Digits(h);
    assert BeforeColon(Pad2(h)) == Pad2(h);
    ParseIntPadded(h, []);
    assert Pad2(h) + [] == Pad2(h);
  }

  /** `isBusy` never matters: flipping it on every slot changes no answer. */
  lemma IsFreeIgnoresBusy(slots: seq<TimeSlot>, flipped: seq<TimeSlot>, day: Day, hour: int)
    requires |flipped| == |slots|
    requires forall i :: 0 <= i < |slots| ==> flipped[i] == slots[i].(isBusy := !slots[i].isBusy)
    ensures IsFree(flipped, day, hour) == IsFree(slots, day, hour)
  {
    if IsFree(slots, day, hour) {
      var i :| 0 <= i < |slots| && SlotCovers(slots[i], day, hour);
      assert SlotCovers(flipped[i], day, hour);
    }
    if IsFree(flipped, day, hour) {
      var i :| 0 <= i < |flipped| && SlotCovers(flipped[i], day, hour);
      assert SlotCovers(slots[i], day, hour);
    }
  }

  /** What a cell shows. */
  datatype Cell = Booked(lesson: Lesson) | Free | Blank

  /** The cell rule: `lesson ? <button> : free ? "Свободен" : null` with
      `free = !lesson && isFree(day, hour)`. */
  function CellAt(lessons: seq<Lesson>, slots: seq<TimeSlot>, day: Day, hour: int): (c: Cell)
    ensures c.Booked? <==> exists i :: 0 <= i < |lessons| && LandsIn(lessons[i].lessonDate, day, hour)
    ensures c.Booked? ==> FindLesson(lessons, day, hour) == Some(c.lesson)
    ensures c.Free? <==> (forall i :: 0 <= i < |lessons| ==> !LandsIn(lessons[i].lessonDate, day, hour))
                         && exists j :: 0 <= j < |slots| && SlotCovers(slots[j], day, hour)
  {
    match FindLesson(lessons, day, hour)
    case Some(l) => Booked(l)
    case None => if IsFree(slots, day, hour) then Free else Blank
  }

  /** A lesson always hides the "free" marker, whatever the slots say. */
  lemma LessonSuppressesFree(lessons: seq<Lesson>, slots: seq<TimeSlot>, day: Day, hour: int, i: nat)
    requires i < |lessons| && LandsIn(lessons[i].lessonDate, day, hour)
    ensures CellAt(lessons, slots, day, hour).Booked?
    ensures CellAt(lessons, slots, day, hour) != Free
  {
  }

  /** No slots, no "free" cells: every cell of the grid is booked by a
      lesson landing in it, or blank. */
  lemma NoSlotsNoFreeCells(rows: seq<HourRow>, days: seq<Day>, lessons: seq<Lesson>)
    ensures forall r, c :: 0 <= r < |rows| && 0 <= c < |days| ==>
      Grid(rows, days, lessons, [])[r][c] != Free &&
      (Grid(rows, days, lessons, [])[r][c].Booked? <==>
         exists i :: 0 <= i < |lessons| && LandsIn(lessons[i].lessonDate, days[c], rows[r].hour))
  {
    var grid := Grid(rows, days, lessons, []);
    forall r, c | 0 <= r < |rows| && 0 <= c < |days|
      ensures grid[r][c] != Free
      ensures grid[r][c].Booked? <==> exists i :: 0 <= i < |lessons| && LandsIn(lessons[i].lessonDate, days[c], rows[r].hour)
    {
      var cell := CellAt(lessons, [], days[c], rows[r].hour);
      assert grid[r][c] == cell;
    }
  }

  /** The cells of one week: `grid[r][c]` is row `r` of `rows` on day `c` of `days`. */
  function Grid(rows: seq<HourRow>, days: seq<Day>, lessons: seq<Lesson>, slots: seq<TimeSlot>): (grid: seq<seq<Cell>>)
    ensures |grid| == |rows|
    ensures forall r :: 0 <= r < |rows| ==> |grid[r]| == |days|
    ensures forall r, c :: 0 <= r < |rows| && 0 <= c < |days| ==> grid[r][c] == CellAt(lessons, slots, days[c], rows[r].hour)
  {
    seq(|rows|, r requires 0 <= r < |rows| =>
      seq(|days|, c requires 0 <= c < |days| => CellAt(lessons, slots, days[c], rows[r].hour)))
  }

  /** The slot "Monday 14:00:00" covers hour 14 of Mondays and nothing else. */
  lemma MondayTwoPmSlot(slot: TimeSlot, day: Day, hour: int)
    requires slot.dayOfWeek == "Monday" && slot.time == "14:00:00"
    ensures SlotCovers(slot, day, hour) <==> WeekdayIndex(day) == 1 && hour == 14
  {
    var t := slot.time;
    assert IsDigit(t[0]) && IsDigit(t[1]) && t[2] == ':' && t[..2] == "14";
    assert DigitsValue("14") == 14;
    assert SlotHour(slot) == Some(14);
    WeekdayNameIndex(day, 1);
  }

  /** Within the Sunday-to-Saturday week around a Monday, that Monday is the
      only day named "Monday". */
  lemma OnlyMondayOfWeek(monday: Day, day: Day)
    requires WeekdayIndex(monday) == 1 && WeekdayIndex(day) == 1
    requires monday - 1 <= day <= monday + 5
    ensures day == monday
  {
    var q1 := (day + 4) / 7;
    var q2 := (monday + 4) / 7;
    assert day + 4 == 7 * q1 + 1;
    assert monday + 4 == 7 * q2 + 1;
    assert day - monday == 7 * (q1 - q2);
  }

  /** A worked week, one lesson whose corrected time is 13:00 on a Monday and
      one slot "Monday 14:00:00": the Monday 13:00 cell shows the lesson. */
  lemma WorkedWeekBooked(monday: Day, lesson: Lesson, slot: TimeSlot)
    requires Corrected(lesson.lessonDate) == StartOfDay(monday) + 13
    ensures CellAt([lesson], [slot], monday, 13) == Booked(lesson)
  {
    LandsInIff(lesson.lessonDate, monday, 13);
    FindLessonFirst([lesson], monday, 13, 0);
  }

  /** In the same week the Monday 14:00 cell is free. */
  lemma WorkedWeekFree(monday: Day, lesson: Lesson, slot: TimeSlot)
    requires WeekdayIndex(monday) == 1
    requires Corrected(lesson.lessonDate) == StartOfDay(monday) + 13
    requires slot.dayOfWeek == "Monday" && slot.time == "14:00:00"
    ensures CellAt([lesson], [slot], monday, 14) == Free
  {
    LandsInIff(lesson.lessonDate, monday, 14);
    assert !LandsIn([lesson][0].lessonDate, monday, 14);
    MondayTwoPmSlot(slot, monday, 14);
    assert SlotCovers([slot][0], monday, 14);
  }

  /** Every other cell of that Sunday-to-Saturday week is blank. */
  lemma WorkedWeekBlank(monday: Day, lesson: Lesson, slot: TimeSlot, day: Day, hour: int)
    requires WeekdayIndex(monday) == 1
    requires Corrected(lesson.lessonDate) == StartOfDay(monday) + 13
    requires slot.dayOfWeek == "Monday" && slot.time == "14:00:00"
    requires monday - 1 <= day <= monday + 5
    requires !(day == monday && (hour == 13 || hour == 14))
    ensures CellAt([lesson], [slot], day, hour) == Blank
  {
    LandsInIff(lesson.lessonDate, day, hour);
    assert !LandsIn([lesson][0].lessonDate, day, hour);
    MondayTwoPmSlot(slot, day, hour);
    if WeekdayIndex(day) == 1 {
      OnlyMondayOfWeek(monday, day);
    }
    assert !SlotCovers([slot][0], day, hour);
  }

  /** `getButtonStyleByStatus(status)`. */
  datatype ButtonStyle = ButtonStyle(backgroundColor: string, color: string)

  const Scheduled := "Запланирован"
  const Cancelled := "Отменён"
  const Rescheduled := "Перенесён"
  const DefaultBackground := "#6c757d"

  function StatusStyle(status: string): (style: ButtonStyle)
    ensures style.color == "white"
    ensures style.backgroundColor == DefaultBackground <==> status != Scheduled && status != Cancelled && status != Rescheduled
  {
    if status == Scheduled then ButtonStyle("#66CDAA", "white")
    else if status == Cancelled then ButtonStyle("#DC143C", "white")
    else if status == Rescheduled then ButtonStyle("#6495ed", "white")
    else ButtonStyle(DefaultBackground, "white")
  }

  /** The three known statuses get three different colours, none of them the
      grey every other status gets; the text is always white. */
  lemma StatusStylesDistinct(status: string)
    ensures StatusStyle(status).color == "white"
    ensures status !in {Scheduled, Cancelled, Rescheduled} <==> StatusStyle(status).backgroundColor == DefaultBackground
    ensures StatusStyle(Scheduled) != StatusStyle(Cancelled) && StatusStyle(Cancelled) != StatusStyle(Rescheduled)
         && StatusStyle(Scheduled) != StatusStyle(Rescheduled)
  {
  }

  /** The state of the page. */
  class TeacherSchedulePage {
    var teacherId: Option<Id>
    var currentWeekStart: Day
    var lessons: seq<Lesson>
    var freeSlots: seq<TimeSlot>
    var error: string
    var fromHour: int
    var toHour: int

    /** The selectors only offer hours that keep a non-empty range, and the
        displayed week always starts on a Sunday. */
    ghost predicate Valid()
      reads this
    {
      0 <= fromHour < toHour <= 24 && WeekdayIndex(currentWeekStart) == 0
    }

    constructor (today: Day)
      ensures Valid()
      ensures teacherId == None && currentWeekStart == StartOfWeek(today)
      ensures lessons == [] && freeSlots == [] && error == ""
      ensures fromHour == 8 && toHour == 20
    {
      teacherId := None;
      currentWeekStart := StartOfWeek(today);
      lessons := [];
      freeSlots := [];
      error := "";
      fromHour := 8;
      toHour := 20;
    }

    /** `/auth/me` answered. */
    method ProfileLoaded(id: Id)
      modifies this`teacherId
      ensures teacherId == Some(id)
    {
      teacherId := Some(id);
    }

    /** `/auth/me` failed. */
    method ProfileFailed()
      modifies this`error
      ensures error == "Не удалось загрузить профиль"
    {
      error := "Не удалось загрузить профиль";
    }

    /** The data effect: nothing is requested until the teacher is known;
      then lessons of the displayed week are requested, and the error cleared. */
    method RequestWeek() returns (request: Option<RangeRequest<Id>>)
      modifies this`error
      ensures !Present(teacherId) ==> request == None && error == old(error)
      ensures Present(teacherId) ==>
        error == "" && request == Some(RangeRequest(teacherId.value, currentWeekStart, EndOfWeek(currentWeekStart)))
    {
      if !Present(teacherId) {
        return None;
      }
      error := "";
      request := Some(RangeRequest(teacherId.value, currentWeekStart, EndOfWeek(currentWeekStart)));
    }

    /** Both fetches answered. */
    method WeekLoaded(fetchedLessons: seq<Lesson>, fetchedSlots: seq<TimeSlot>)
      modifies this`lessons, this`freeSlots
      ensures lessons == fetchedLessons && freeSlots == fetchedSlots
    {
      lessons := fetchedLessons;
      freeSlots := fetchedSlots;
    }

    /** Either fetch failed: the previous data stays. */
    method WeekFailed()
      modifies this`error
      ensures error == "Ошибка загрузки данных"
    {
      error := "Ошибка загрузки данных";
    }

    /** `handlePrevWeek`. */
    method PrevWeek()
      requires Valid()
      modifies this`currentWeekStart
      ensures Valid() && currentWeekStart == AddDays(old(currentWeekStart), -7)
    {
      WeekdayAfterWeeks(currentWeekStart, -1);
      currentWeekStart := AddDays(currentWeekStart, -7);
    }

    /** `handleNextWeek`. */
    method NextWeek()
      requires Valid()
      modifies this`currentWeekStart
      ensures Valid() && currentWeekStart == AddDays(old(currentWeekStart), 7)
    {
      WeekdayAfterWeeks(currentWeekStart, 1);
      currentWeekStart := AddDays(currentWeekStart, 7);
    }

    /** Choosing an enabled option of the `fromHour` selector. */
    method SelectFromHour(value: int)
      requires Valid()
      requires 0 <= value < 24 && HourOption(value, AllHours[value], false) in FromHourOptions(toHour)
      modifies this`fromHour
      ensures Valid() && fromHour == value
    {
      fromHour := value;
    }

    /** Choosing an enabled option of the `toHour` selector. */
    method SelectToHour(value: int)
      requires Valid()
      requires 1 <= value <= 24 && HourOption(value, AllHours[value - 1], false) in ToHourOptions(fromHour)
      modifies this`toHour
      ensures Valid() && toHour == value
    {
      toHour := value;
    }

    /** What the page draws: the hour rows, the days of the week, and the cells. */
    method Render() returns (rows: seq<HourRow>, days: seq<Day>, grid: seq<seq<Cell>>)
      requires Valid()
      ensures rows == HourRows(fromHour, toHour) && |rows| == toHour - fromHour
      ensures days == WeekDays(currentWeekStart) && |days| == 7
      ensures forall c :: 0 <= c < 7 ==> WeekdayName(days[c]) == WeekdayNames[c]
      ensures grid == Grid(rows, days, lessons, freeSlots)
    {
      rows := BuildTimeSlots(fromHour, toHour);
      days := WeekDays(currentWeekStart);
      WeekDaysOfSundayStart(currentWeekStart);
      grid := Grid(rows, days, lessons, freeSlots);
    }
  }

  /** Moving a Sunday-start week by `n` weeks, forward or back, shows another
      Sunday-to-Saturday week whose days are the old ones moved by `7 * n`,
      and moving back by `n` weeks shows the week we started from. */
  lemma AdvanceWeeks(start: Day, n: int)
    requires WeekdayIndex(start) == 0
    ensures WeekdayIndex(AddDays(start, 7 * n)) == 0
    ensures StartOfWeek(AddDays(start, 7 * n)) == AddDays(start, 7 * n)
    ensures |WeekDays(AddDays(start, 7 * n))| == 7
    ensures forall i :: 0 <= i < 7 ==> WeekDays(AddDays(start, 7 * n))[i] == AddDays(WeekDays(start)[i], 7 * n)
    ensures forall i :: 0 <= i < 7 ==> WeekdayName(WeekDays(AddDays(start, 7 * n))[i]) == WeekdayNames[i]
    ensures AddDays(AddDays(start, 7 * n), 7 * -n) == start
  {
    WeekdayAfterWeeks(start, n);
    WeekDaysOfSundayStart(AddDays(start, 7 * n));
  }
}
