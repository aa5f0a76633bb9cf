/** The manager's view of a chosen teacher's week: 24 hour rows by the days of
    the week, each cell naming the client of the first lesson that lands in
    it.  Unlike the teacher's own page there are no working-time slots, and
    the hour a row is matched against is the row's position, not the hour
    its label names. */
module Schedule {
  import opened Base
  import opened Text
  import opened Calendar
  import opened Domain
  import opened LessonCells
  import TeacherSchedule

  /** One row of `generateTimeSlots`: the labels of its first and next hour. */
  datatype SlotRow = SlotRow(start: string, end: string)

  /** The rows for `[startHour, endHour)`, as a value. */
  function SlotRows(startHour: nat, endHour: nat): (rows: seq<SlotRow>)
    ensures |rows| == if startHour < endHour then endHour - startHour else 0
    ensures forall k :: 0 <= k < |rows| ==>
      rows[k].start == HourLabel(startHour + k) && rows[k].end == HourLabel(startHour + k + 1)
  {
    seq(if startHour < endHour then endHour - startHour else 0,
        k requires 0 <= k => SlotRow(HourLabel(startHour + k), HourLabel(startHour + k + 1)))
  }

  /** `generateTimeSlots(startHour, endHour)`: a push loop over the hours. */
  method GenerateTimeSlots(startHour: nat, endHour: nat) returns (slots: seq<SlotRow>)
    ensures slots == SlotRows(startHour, endHour)
  {
    slots := [];
    var hour := startHour;
    while hour < endHour
      invariant startHour <= hour
      invariant startHour < endHour ==> hour <= endHour
      invariant endHour <= startHour ==> hour == startHour
      invariant |slots| == hour - startHour
      invariant forall k :: 0 <= k < |slots| ==>
        slots[k] == SlotRow(HourLabel(startHour + k), HourLabel(startHour + k + 1))
    {
      slots := slots + [SlotRow(HourLabel(hour), HourLabel(hour + 1))];
      hour := hour + 1;
    }
    var rows := SlotRows(startHour, endHour);
    assert |slots| == |rows|;
    assert forall k :: 0 <= k < |slots| ==> slots[k] == rows[k];
  }

  /** The page calls `generateTimeSlots()` with its defaults. */
  const DefaultStartHour: nat := 0
  const DefaultEndHour: nat := 24

  /** With the defaults there are 24 rows, and row `i` is labelled with hour
      `i`: matching row `i` against hour `i` agrees with the label. */
  lemma DefaultRowsMatchTheirIndex()
    ensures |SlotRows(DefaultStartHour, DefaultEndHour)| == 24
    ensures forall i :: 0 <= i < 24 ==>
      ParseInt(SlotRows(DefaultStartHour, DefaultEndHour)[i].start) == Some(i)
  {
    forall i | 0 <= i < 24
      ensures ParseInt(SlotRows(DefaultStartHour, DefaultEndHour)[i].start) == Some(i)
    {
      ParseIntPadded(i, ":00");
    }
  }

  /** The agreement depends on starting at 0: with any other first hour,
      row `i` names hour `startHour + i` but is matched against hour `i`. */
  lemma OtherStartMismatchesRows(startHour: nat, endHour: nat, i: nat)
    requires 0 < startHour && endHour < 100
    requires i < |SlotRows(startHour, endHour)|
    ensures ParseInt(SlotRows(startHour, endHour)[i].start) == Some(startHour + i)
    ensures ParseInt(SlotRows(startHour, endHour)[i].start) != Some(i)
  {
    var rows := SlotRows(startHour, endHour);
    assert rows[i].start == HourLabel(startHour + i);
    ParseIntPadded(startHour + i, ":00");
  }

  /** The body of `/users` as the page tells its shapes apart: an object with
      a `users` field (absent or null is `None`), a bare array, or anything
      else. */
  datatype UsersData = WithUsers(users: Option<seq<User>>) | UserArray(items: seq<User>) | Unexpected

  /** The teacher list: `data.users` when present, else `data` when it is an
      array, else empty. */
  function TeachersFrom(data: UsersData): (teachers: seq<User>)
    ensures data.WithUsers? && data.users.Some? ==> teachers == data.users.value
    ensures data.UserArray? ==> teachers == data.items
    ensures data.Unexpected? || data == WithUsers(None) ==> teachers == []
  {
    match data
    case WithUsers(Some(users)) => users
    case UserArray(items) => items
    case _ => []
  }

  /** What an occupied cell shows: `lesson.client?.fullName || lesson.clientId`. */
  datatype CellText = ClientName(name: string) | ClientIdText(id: Id)

  function CellTextOf(lesson: Lesson): (t: CellText)
    ensures t.ClientName? <==> lesson.client.Some? && lesson.client.value.fullName != ""
    ensures t.ClientName? ==> t.name == lesson.client.value.fullName
    ensures t.ClientIdText? ==> t.id == lesson.clientId
  {
    if lesson.client.Some? && lesson.client.value.fullName != "" then ClientName(lesson.client.value.fullName)
    else ClientIdText(lesson.clientId)
  }

  /** A cell: the text of `findLessonForSlot(day, hour)`, or nothing. */
  function LessonCellAt(lessons: seq<Lesson>, day: Day, hour: int): (cell: Option<CellText>)
    ensures cell.None? <==> forall i :: 0 <= i < |lessons| ==> !LandsIn(lessons[i].lessonDate, day, hour)
    ensures cell.Some? ==> exists i :: 0 <= i < |lessons| && LandsIn(lessons[i].lessonDate, day, hour)
                                        && cell.value == CellTextOf(lessons[i])
  {
    match FindLesson(lessons, day, hour)
    case Some(l) => Some(CellTextOf(l))
    case None => None
  }

  /** Both schedule pages place lessons alike: a cell of this page is
      occupied exactly when the teacher's page books the same cell, and it
      names the client of the lesson booked there. */
  lemma PagesPlaceLessonsAlike(lessons: seq<Lesson>, slots: seq<TimeSlot>, day: Day, hour: int)
    ensures LessonCellAt(lessons, day, hour).Some? <==> TeacherSchedule.CellAt(lessons, slots, day, hour).Booked?
    ensures TeacherSchedule.CellAt(lessons, slots, day, hour).Booked? ==>
      LessonCellAt(lessons, day, hour) == Some(CellTextOf(TeacherSchedule.CellAt(lessons, slots, day, hour).lesson))
  {
  }

  /** The table body: row `i` on day `c` shows the lesson of hour `i`. */
  function ScheduleGrid(rowCount: nat, days: seq<Day>, lessons: seq<Lesson>): (grid: seq<seq<Option<CellText>>>)
    ensures |grid| == rowCount
    ensures forall i :: 0 <= i < rowCount ==> |grid[i]| == |days|
    ensures forall i, c :: 0 <= i < rowCount && 0 <= c < |days| ==> grid[i][c] == LessonCellAt(lessons, days[c], i)
  {
    seq(rowCount, i requires 0 <= i < rowCount =>
      seq(|days|, c requires 0 <= c < |days| => LessonCellAt(lessons, days[c], i)))
  }

  /** The state of the page.  `selectedTeacherId` is the `<select>` value,
      with "" for "no teacher chosen" (the initial `null` behaves the same in
      every test the page makes); `error` is "" when there is none. */
  class SchedulePage {
    var teachers: seq<User>
    var selectedTeacherId: string
    var currentWeekStart: Day
    var lessons: seq<Lesson>
    var error: string

    /** The displayed week always starts on a Sunday. */
    ghost predicate Valid()
      reads this
    {
      WeekdayIndex(currentWeekStart) == 0
    }

    constructor (today: Day)
      ensures Valid()
      ensures teachers == [] && selectedTeacherId == "" && currentWeekStart == StartOfWeek(today)
      ensures lessons == [] && error == ""
    {
      teachers := [];
      selectedTeacherId := "";
      currentWeekStart := StartOfWeek(today);
      lessons := [];
      error := "";
    }

    /** `/users` answered. */
    method TeachersLoaded(data: UsersData)
      modifies this`teachers
      ensures teachers == TeachersFrom(data)
    {
      teachers := TeachersFrom(data);
    }

    /** `/users` failed. */
    method TeachersFailed()
      modifies this`error
      ensures error == "Ошибка загрузки преподавателей"
    {
      error := "Ошибка загрузки преподавателей";
    }

    /** `handleTeacherChange`. */
    method SelectTeacher(value: string)
      modifies this`selectedTeacherId
      ensures selectedTeacherId == value
    {
      selectedTeacherId := value;
    }

    /** The lessons effect: nothing is requested until a teacher is chosen. */
    method RequestLessons() returns (request: Option<RangeRequest<string>>)
      ensures selectedTeacherId == "" <==> request.None?
      ensures request.Some? ==>
        request.value == RangeRequest(selectedTeacherId, currentWeekStart, EndOfWeek(currentWeekStart))
    {
      if selectedTeacherId == "" {
        return None;
      }
      request := Some(RangeRequest(selectedTeacherId, currentWeekStart, EndOfWeek(currentWeekStart)));
    }

    /** `/lessons/range` answered. */
    method LessonsLoaded(fetched: seq<Lesson>)
      modifies this`lessons
      ensures lessons == fetched
    {
      lessons := fetched;
    }

    /** `/lessons/range` failed: the previous lessons stay. */
    method LessonsFailed()
      modifies this`error
      ensures error == "Ошибка загрузки расписания"
    {
      error := "Ошибка загрузки расписания";
    }

    /** `handlePrevWeek`. */
    method PrevWeek()
      requires Valid()
      modifies this`currentWeekStart
      ensures Valid() && currentWeekStart == AddDays(old(currentWeekStart), -7)
    {
      WeekdayAfterWeeks(currentWeekStart, -1);
      currentWeekStart := AddDays(currentWeekStart, -7);
    }

    /** `handleNextWeek`. */
    method NextWeek()
      requires Valid()
      modifies this`currentWeekStart
      ensures Valid() && currentWeekStart == AddDays(old(currentWeekStart), 7)
    {
      WeekdayAfterWeeks(currentWeekStart, 1);
      currentWeekStart := AddDays(currentWeekStart, 7);
    }

    /** What the page draws: the table only once a teacher is chosen; then
      24 rows, the seven days Sunday to Saturday, and in row `i` the lessons
      of hour `i`. */
    method Render() returns (shown: bool, rows: seq<SlotRow>, days: seq<Day>, grid: seq<seq<Option<CellText>>>)
      requires Valid()
      ensures shown <==> selectedTeacherId != ""
      ensures rows == SlotRows(DefaultStartHour, DefaultEndHour) && |rows| == 24
      ensures days == WeekDays(currentWeekStart) && |days| == 7
      ensures forall c :: 0 <= c < 7 ==> WeekdayName(days[c]) == WeekdayNames[c]
      ensures grid == ScheduleGrid(|rows|, days, lessons)
    {
      shown := selectedTeacherId != "";
      rows := GenerateTimeSlots(DefaultStartHour, DefaultEndHour);
      days := WeekDays(currentWeekStart);
      WeekDaysOfSundayStart(currentWeekStart);
      grid := ScheduleGrid(|rows|, days, lessons);
    }
  }
}
