/** Placing a lesson in a cell of a weekly grid: the lesson's timestamp is
    moved back by a fixed four hours and its local year, month, day of month
    and hour are compared with the cell's.  Both schedule pages place lessons
    this way; `findLesson` takes the first lesson, in response order, that
    lands in the cell. */
module LessonCells {
  import opened Base
  import opened Calendar
  import opened Domain
  import Lists

  /** The fixed time-zone correction, in hours, subtracted from every lesson date. */
  const CorrectionHours: int := 4

  /** `d = new Date(lessonDate); d.setHours(d.getHours() - 4)`: the corrected
      copy; the lesson itself keeps its date. */
  function Corrected(t: Timestamp): (c: Timestamp)
    ensures HourOf(t) >= CorrectionHours ==> DayOf(c) == DayOf(t) && HourOf(c) == HourOf(t) - CorrectionHours
    ensures HourOf(t) < CorrectionHours ==> DayOf(c) == DayOf(t) - 1 && HourOf(c) == HourOf(t) + 24 - CorrectionHours
  {
    t - CorrectionHours
  }

  /** The comparison inside `find`: the corrected timestamp has the cell's
      year, month, day of month and hour. */
  predicate LandsIn(t: Timestamp, day: Day, hour: int)
    ensures LandsIn(t, day, hour) ==> 0 <= hour < 24
  {
    var c := Corrected(t);
    var here := CivilFromDays(DayOf(c));
    var cell := CivilFromDays(day);
    here.year == cell.year && here.month == cell.month && here.day == cell.day && HourOf(c) == hour
  }

  /** Comparing the four calendar fields is the same as comparing absolute
      hours: a lesson lands in cell (day, hour) exactly when its corrected time
      is that hour of that day, and never for an hour outside 0..23. */
  lemma LandsInIff(t: Timestamp, day: Day, hour: int)
    ensures LandsIn(t, day, hour) <==> 0 <= hour < 24 && Corrected(t) == StartOfDay(day) + hour
  {
    var c := Corrected(t);
    if LandsIn(t, day, hour) {
      CivilInjective(DayOf(c), day);
    }
  }

  /** Each timestamp lands in exactly one cell. */
  lemma LandsInOneCell(t: Timestamp, day1: Day, hour1: int, day2: Day, hour2: int)
    requires LandsIn(t, day1, hour1) && LandsIn(t, day2, hour2)
    ensures day1 == day2 && hour1 == hour2
  {
    LandsInIff(t, day1, hour1);
    LandsInIff(t, day2, hour2);
  }

  /** Applying the correction a second time moves a lesson out of the cell it
      belongs to: the correction must be applied exactly once. */
  lemma CorrectingTwiceMisplaces(t: Timestamp, day: Day, hour: int)
    requires LandsIn(t, day, hour)
    ensures !LandsIn(Corrected(t), day, hour)
  {
    LandsInIff(t, day, hour);
    LandsInIff(Corrected(t), day, hour);
  }

  /** `findLesson(day, hour)` / `findLessonForSlot(day, hour)`. */
  function FindLesson(lessons: seq<Lesson>, day: Day, hour: int): (r: Option<Lesson>)
    ensures r.None? <==> forall i :: 0 <= i < |lessons| ==> !LandsIn(lessons[i].lessonDate, day, hour)
    ensures r.Some? ==>
      exists i :: 0 <= i < |lessons| && lessons[i] == r.value
        && LandsIn(lessons[i].lessonDate, day, hour)
        && (forall j :: 0 <= j < i ==> !LandsIn(lessons[j].lessonDate, day, hour))
  {
    var p := (l: Lesson) => LandsIn(l.lessonDate, day, hour);
    match Lists.FirstIndex(lessons, p)
    case None => None
    case Some(k) => Some(lessons[k])
  }

  /** The lesson a cell shows is determined by its position: the first one of
      the response whose corrected time is the cell's hour. */
  lemma FindLessonFirst(lessons: seq<Lesson>, day: Day, hour: int, i: nat)
    requires i < |lessons| && LandsIn(lessons[i].lessonDate, day, hour)
    requires forall j :: 0 <= j < i ==> !LandsIn(lessons[j].lessonDate, day, hour)
    ensures FindLesson(lessons, day, hour) == Some(lessons[i])
  {
    var r := FindLesson(lessons, day, hour);
    var k :| 0 <= k < |lessons| && lessons[k] == r.value
      && LandsIn(lessons[k].lessonDate, day, hour)
      && (forall j :: 0 <= j < k ==> !LandsIn(lessons[j].lessonDate, day, hour));
  }
}
