/** The teacher's working-time page: the teacher's own weekly slots, grouped
    by weekday, a form that adds a slot, and a delete button per slot. */
module ManageTimeSlots {
  import opened Base
  import opened Text
  import opened Calendar
  import opened Domain
  import Lists

  /** `loadSlots(userId)`: the slots of `/timeSlots` owned by `userId`. */
  function OwnedBy(all: seq<TimeSlot>, userId: Id): (mine: seq<TimeSlot>)
    ensures forall x {:trigger multiset(mine)[x]} :: multiset(mine)[x] == if x.userId == userId then multiset(all)[x] else 0
    ensures Lists.Subsequence(mine, all)
  {
    Lists.Filter(all, (ts: TimeSlot) => ts.userId == userId)
  }

  /** Only the owner's slots are kept, and all of them. */
  lemma OwnedByMembership(all: seq<TimeSlot>, userId: Id, ts: TimeSlot)
    ensures ts in OwnedBy(all, userId) <==> ts in all && ts.userId == userId
  {
    Lists.FilterMembership(all, (t: TimeSlot) => t.userId == userId, ts);
  }

  /** One weekday section of the page: a weekday name and its slots. */
  datatype DayGroup = DayGroup(value: string, slots: seq<TimeSlot>)

  /** `timeSlots.filter(ts => ts.dayOfWeek === name)`. */
  function OnDay(slots: seq<TimeSlot>, name: string): (r: seq<TimeSlot>)
    ensures forall x {:trigger multiset(r)[x]} :: multiset(r)[x] == if x.dayOfWeek == name then multiset(slots)[x] else 0
    ensures Lists.Subsequence(r, slots)
  {
    Lists.Filter(slots, (ts: TimeSlot) => ts.dayOfWeek == name)
  }

  /** `slotsByDay`: seven groups, Sunday first. */
  function SlotsByDay(slots: seq<TimeSlot>): (groups: seq<DayGroup>)
    ensures |groups| == 7
    ensures forall i :: 0 <= i < 7 ==> groups[i].value == WeekdayNames[i]
    ensures forall i :: 0 <= i < 7 ==> Lists.Subsequence(groups[i].slots, slots)
  {
    seq(7, i requires 0 <= i < 7 => DayGroup(WeekdayNames[i], OnDay(slots, WeekdayNames[i])))
  }

  /** Group `i` holds each slot named after weekday `i` as often as the list
      does, and nothing else; so a slot appears in the group of its own
      weekday and in no other, and a slot with any other day name appears in
      no group at all. */
  lemma SlotsByDayPartition(slots: seq<TimeSlot>, i: int, x: TimeSlot)
    requires 0 <= i < 7
    ensures multiset(SlotsByDay(slots)[i].slots)[x] == if x.dayOfWeek == WeekdayNames[i] then multiset(slots)[x] else 0
  {
    assert SlotsByDay(slots)[i].slots == OnDay(slots, WeekdayNames[i]);
  }

  /** A slot whose day is not one of the seven names is shown nowhere. */
  lemma UnknownDayInNoGroup(slots: seq<TimeSlot>, x: TimeSlot)
    requires x.dayOfWeek !in WeekdayNames
    ensures forall i :: 0 <= i < 7 ==> x !in SlotsByDay(slots)[i].slots
  {
    forall i | 0 <= i < 7
      ensures x !in SlotsByDay(slots)[i].slots
    {
      SlotsByDayPartition(slots, i, x);
    }
  }

  /** A slot with a known day is shown in that day's group, and only there. */
  lemma KnownDayInItsGroup(slots: seq<TimeSlot>, x: TimeSlot, i: int)
    requires x in slots && 0 <= i < 7 && x.dayOfWeek == WeekdayNames[i]
    ensures x in SlotsByDay(slots)[i].slots
    ensures forall j :: 0 <= j < 7 && j != i ==> x !in SlotsByDay(slots)[j].slots
  {
    WeekdayNamesDistinct();
    SlotsByDayPartition(slots, i, x);
    forall j | 0 <= j < 7 && j != i
      ensures x !in SlotsByDay(slots)[j].slots
    {
      SlotsByDayPartition(slots, j, x);
    }
  }

  /** The body of a `/timeSlots` creation request. */
  datatype NewSlot = NewSlot(dayOfWeek: string, time: string, isBusy: bool, userId: Id)

  /** `handleSubmit`'s body: the chosen day, the normalised time, always
      busy, owned by the current teacher; `None` when there is no teacher,
      and then nothing is sent. */
  function NewSlotRequest(teacherId: Option<Id>, dayOfWeek: string, time: string): (r: Option<NewSlot>)
    ensures r.None? <==> !Present(teacherId)
    ensures r.Some? ==> r.value.isBusy && r.value.userId == teacherId.value && r.value.dayOfWeek == dayOfWeek
    ensures r.Some? ==> |r.value.time| != 5 && BeforeColon(r.value.time) == BeforeColon(time)
    ensures r.Some? ==> r.value.time == NormalizeTime(time)
    ensures r.Some? && |time| == 5 ==> r.value.time == time + ":00"
    ensures r.Some? && |time| != 5 ==> r.value.time == time
  {
    if !Present(teacherId) then None
    else Some(NewSlot(dayOfWeek, NormalizeTime(time), true, teacherId.value))
  }

  /** `prev.filter(ts => ts.id !== slotId)`. */
  function WithoutSlot(slots: seq<TimeSlot>, slotId: Id): (r: seq<TimeSlot>)
    ensures forall x {:trigger multiset(r)[x]} :: multiset(r)[x] == if x.id != slotId then multiset(slots)[x] else 0
    ensures Lists.Subsequence(r, slots)
  {
    Lists.Filter(slots, (ts: TimeSlot) => ts.id != slotId)
  }

  /** After a delete no slot carries the id, and every other slot is still there. */
  lemma WithoutSlotMembership(slots: seq<TimeSlot>, slotId: Id, x: TimeSlot)
    ensures x in WithoutSlot(slots, slotId) <==> x in slots && x.id != slotId
  {
    Lists.FilterMembership(slots, (ts: TimeSlot) => ts.id != slotId, x);
  }

  /** Deleting an id that no slot carries leaves the list as it was. */
  lemma WithoutAbsentSlotUnchanged(slots: seq<TimeSlot>, slotId: Id)
    requires forall k :: 0 <= k < |slots| ==> slots[k].id != slotId
    ensures WithoutSlot(slots, slotId) == slots
  {
    Lists.FilterAllPass(slots, (ts: TimeSlot) => ts.id != slotId);
  }

  /** Deleting keeps the owner filter: the list stays the teacher's own. */
  lemma WithoutSlotKeepsOwner(slots: seq<TimeSlot>, userId: Id, slotId: Id, x: TimeSlot)
    requires forall k :: 0 <= k < |slots| ==> slots[k].userId == userId
    requires x in WithoutSlot(slots, slotId)
    ensures x.userId == userId
  {
    WithoutSlotMembership(slots, slotId, x);
  }

  /** `msg = err.response?.data?.message || fallback`. */
  function ServerMessageOr(message: string, fallback: string): (r: string)
    ensures message != "" ==> r == message
    ensures message == "" ==> r == fallback
  {
    OrElse(if message == "" then None else Some(message), fallback)
  }

  class ManageTimeSlotsPage {
    var teacherId: Option<Id>
    var timeSlots: seq<TimeSlot>
    var dayOfWeek: string
    var time: string
    var errorMessage: string
    var successMessage: string

    /** Every listed slot belongs to the current teacher. */
    ghost predicate Valid()
      reads this
    {
      teacherId.Some? ==> forall k :: 0 <= k < |timeSlots| ==> timeSlots[k].userId == teacherId.value
    }

    constructor ()
      ensures Valid()
      ensures teacherId == None && timeSlots == [] && dayOfWeek == "Monday" && time == "08:00"
      ensures errorMessage == "" && successMessage == ""
    {
      teacherId := None;
      timeSlots := [];
      dayOfWeek := "Monday";
      time := "08:00";
      errorMessage := "";
      successMessage := "";
    }

    /** `/auth/me` answered: remember the teacher; the slots still shown were
        loaded for nobody, so the list is taken to be the teacher's (the page
        loads it straight after). */
    method ProfileLoaded(id: Id)
      requires timeSlots == []
      modifies this`teacherId
      ensures Valid() && teacherId == Some(id)
    {
      teacherId := Some(id);
    }

    /** `/auth/me` failed. */
    method ProfileFailed()
      modifies this`errorMessage
      ensures errorMessage == "Не удалось загрузить профиль"
    {
      errorMessage := "Не удалось загрузить профиль";
    }

    /** `loadSlots(userId)` answered with `all`. */
    method SlotsLoaded(all: seq<TimeSlot>)
      requires teacherId.Some?
      modifies this`timeSlots
      ensures Valid() && timeSlots == OwnedBy(all, teacherId.value)
    {
      timeSlots := OwnedBy(all, teacherId.value);
      forall k | 0 <= k < |timeSlots|
        ensures timeSlots[k].userId == teacherId.value
      {
        OwnedByMembership(all, teacherId.value, timeSlots[k]);
      }
    }

    /** `loadSlots` failed. */
    method SlotsFailed()
      modifies this`errorMessage
      ensures errorMessage == "Ошибка загрузки тайм-слотов"
    {
      errorMessage := "Ошибка загрузки тайм-слотов";
    }

    /** `handleSubmit`: clear the messages; without a teacher show an error
        and send nothing; otherwise send the new slot and report the answer.
        The page then reloads the list, which `SlotsLoaded` models. */
    method Submit(response: Response<()>) returns (request: Option<NewSlot>)
      modifies this`errorMessage, this`successMessage
      ensures request == NewSlotRequest(teacherId, dayOfWeek, time)
      ensures request.None? ==> errorMessage == "Не найден текущий преподаватель" && successMessage == ""
      ensures request.Some? && response.Ok? ==> errorMessage == "" && successMessage == "Тайм-слот добавлен"
      ensures request.Some? && response.Failed? ==>
        errorMessage == ServerMessageOr(response.message, "Ошибка при добавлении") && successMessage == ""
    {
      errorMessage := "";
      successMessage := "";
      request := NewSlotRequest(teacherId, dayOfWeek, time);
      if request.None? {
        errorMessage := "Не найден текущий преподаватель";
        return;
      }
      match response
      case Ok(_) =>
        successMessage := "Тайм-слот добавлен";
      case Failed(message) =>
        errorMessage := ServerMessageOr(message, "Ошибка при добавлении");
    }

    /** `handleDelete(slotId)`: on success drop every slot with that id. */
    method Delete(slotId: Id, response: Response<()>)
      requires Valid()
      modifies this`timeSlots, this`errorMessage, this`successMessage
      ensures Valid()
      ensures response.Ok? ==>
        timeSlots == WithoutSlot(old(timeSlots), slotId) && successMessage == "Тайм-слот удалён" && errorMessage == ""
      ensures response.Failed? ==>
        timeSlots == old(timeSlots) && successMessage == ""
        && errorMessage == ServerMessageOr(response.message, "Ошибка при удалении")
    {
      errorMessage := "";
      successMessage := "";
      match response
      case Ok(_) =>
        successMessage := "Тайм-слот удалён";
        var before := timeSlots;
        timeSlots := WithoutSlot(timeSlots, slotId);
        if teacherId.Some? {
          forall k | 0 <= k < |timeSlots|
            ensures timeSlots[k].userId == teacherId.value
          {
            WithoutSlotKeepsOwner(before, teacherId.value, slotId, timeSlots[k]);
          }
        }
      case Failed(message) =>
        errorMessage := ServerMessageOr(message, "Ошибка при удалении");
    }
  }
}
