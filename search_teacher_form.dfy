/** The search form of a client's free teachers: a client, a weekday, a time
    and a number of lessons, sent with the weekday as a number. */
module SearchTeacherForm {
  import opened Base
  import opened Text
  import opened Calendar

  /** `dayOfWeekMap`. */
  const DayOfWeekMap: map<string, int> :=
    map["Sunday" := 0, "Monday" := 1, "Tuesday" := 2, "Wednesday" := 3,
        "Thursday" := 4, "Friday" := 5, "Saturday" := 6]

  /** `dayOfWeekMap[name]`; `None` is `undefined`. */
  function DayIndex(name: string): (r: Option<int>)
    ensures r.None? <==> name !in WeekdayNames
    ensures r.Some? ==> 0 <= r.value < 7 && WeekdayNames[r.value] == name
  {
    if name in DayOfWeekMap then Some(DayOfWeekMap[name]) else None
  }

  /** The table maps the seven weekday names, Sunday first, onto 0..6 and
      nothing else: weekday `i` maps to `i`, and whatever maps to `i` is
      weekday `i`. */
  lemma DayIndexBijection(name: string, i: int)
    ensures 0 <= i < 7 ==> DayIndex(WeekdayNames[i]) == Some(i)
    ensures DayIndex(name) == Some(i) ==> 0 <= i < 7 && WeekdayNames[i] == name
    ensures DayIndex(name).None? <==> name !in WeekdayNames
  {
  }

  /** The number sent for a day's name is that day's position in its
      Sunday-first week, the number `getDay()` gives. */
  lemma DayIndexOfWeekdayName(d: Day)
    ensures DayIndex(WeekdayName(d)) == Some(WeekdayIndex(d))
  {
    DayIndexBijection(WeekdayName(d), WeekdayIndex(d));
  }

  /** The object `handleSubmit` passes to `onSubmit`. */
  datatype SearchRequest = SearchRequest(clientId: string, dayOfWeek: Option<int>, time: string, number: NumberValue)

  /** `handleSubmit`'s payload. */
  function SearchPayload(clientId: string, dayOfWeek: string, time: string, number: string): (r: SearchRequest)
    ensures r.clientId == clientId && r.number == ToNumber(number)
    ensures r.dayOfWeek.Some? <==> dayOfWeek in WeekdayNames
    ensures r.dayOfWeek.Some? ==> 0 <= r.dayOfWeek.value < 7 && WeekdayNames[r.dayOfWeek.value] == dayOfWeek
    ensures |r.time| != 5 && BeforeColon(r.time) == BeforeColon(time)
    ensures r.time == NormalizeTime(time)
    ensures |time| == 5 ==> r.time == time + ":00"
    ensures |time| != 5 ==> r.time == time
  {
    DayIndexBijection(dayOfWeek, if DayIndex(dayOfWeek).Some? then DayIndex(dayOfWeek).value else 0);
    SearchRequest(clientId, DayIndex(dayOfWeek), NormalizeTime(time), ToNumber(number))
  }

  /** A lesson count typed as digits reaches the server as that number. */
  lemma SearchPayloadNumber(clientId: string, dayOfWeek: string, time: string, n: nat)
    ensures SearchPayload(clientId, dayOfWeek, time, NatToString(n)).number == Int(n)
  {
    ToNumberRoundTrip(n);
  }
}
