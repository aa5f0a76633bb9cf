/** The manager's form for a new client's schedule: an optional existing
    client or a name and age, a subject, a start date, a number of lessons and
    an ordered list of preferred weekly slots.  The form is validated, then
    turned into the body of either a free-teacher search or a schedule
    creation request. */
module NewClientSchedule {
  import opened Base
  import opened Text
  import opened Calendar
  import opened Domain
  import Lists

  /** `daysOfWeek`: the values of the weekday selector of a slot row. */
  const DaysOfWeek: seq<string> :=
    ["Sunday", "Monday", "Tuesday", "Wednesday", "Thursday", "Friday", "Saturday"]

  /** The selector lists the seven weekday names, Sunday first, each once. */
  lemma DaysOfWeekEachOnce()
    ensures DaysOfWeek == WeekdayNames
    ensures forall i, j :: 0 <= i < 7 && 0 <= j < 7 && DaysOfWeek[i] == DaysOfWeek[j] ==> i == j
  {
    WeekdayNamesDistinct();
  }

  /** One `{ dayOfWeek, time }` row of the slot list. */
  datatype SlotPreference = SlotPreference(dayOfWeek: string, time: string)

  /** The row a fresh form starts with and `addSlot` appends. */
  const DefaultSlot := SlotPreference("Monday", "10:00")

  /** `slots.map(s => ({ dayOfWeek: s.dayOfWeek, time: <normalised> }))`. */
  function NormalizeSlots(slots: seq<SlotPreference>): (r: seq<SlotPreference>)
    ensures |r| == |slots|
    ensures forall i :: 0 <= i < |r| ==>
      r[i].dayOfWeek == slots[i].dayOfWeek && |r[i].time| != 5 && BeforeColon(r[i].time) == BeforeColon(slots[i].time)
    ensures forall i :: 0 <= i < |r| ==> r[i] == SlotPreference(slots[i].dayOfWeek, NormalizeTime(slots[i].time))
  {
    seq(|slots|, i requires 0 <= i < |slots| => SlotPreference(slots[i].dayOfWeek, NormalizeTime(slots[i].time)))
  }

  /** Normalising a normalised list changes nothing. */
  lemma NormalizeSlotsIdempotent(slots: seq<SlotPreference>)
    ensures NormalizeSlots(NormalizeSlots(slots)) == NormalizeSlots(slots)
  {
    var once := NormalizeSlots(slots);
    forall i | 0 <= i < |once|
      ensures NormalizeSlots(once)[i] == once[i]
    {
      NormalizeTimeIdempotent(slots[i].time);
    }
  }

  /** The form fields the checks and the payload read; "" is an empty field
      or "no client chosen". */
  datatype Form = Form(
    selectedClientId: string,
    clientName: string,
    age: string,
    subjectId: string,
    startDate: string,
    numberLessons: string,
    slots: seq<SlotPreference>)

  const ClientMissing := "Введите ФИО и возраст или выберите клиента"
  const FieldsMissing := "Заполните все поля и слоты"

  /** `validateInput()`: `None` when the form may be sent, otherwise the
      message it shows.  A client is identified by choosing one or by giving
      both a name and an age; subject, start date and at least one slot are
      always required; the client check comes first. */
  function ValidateInput(f: Form): (r: Option<string>)
    ensures r == Some(ClientMissing) <==> f.selectedClientId == "" && (f.clientName == "" || f.age == "")
    ensures r == Some(FieldsMissing) <==>
      !(f.selectedClientId == "" && (f.clientName == "" || f.age == ""))
      && (f.subjectId == "" || f.startDate == "" || |f.slots| == 0)
    ensures r.None? || r == Some(ClientMissing) || r == Some(FieldsMissing)
  {
    if f.selectedClientId == "" && (f.clientName == "" || f.age == "") then Some(ClientMissing)
    else if f.subjectId == "" || f.startDate == "" || |f.slots| == 0 then Some(FieldsMissing)
    else None
  }

  /** The body of a schedule creation request.  `None` is JSON `null`. */
  datatype Payload = Payload(
    clientId: Option<string>,
    fullName: Option<string>,
    age: Option<NumberValue>,
    subjectId: string,
    slots: seq<SlotPreference>,
    startDate: string,
    number: NumberValue)

  /** `buildPayload()`: a chosen client is sent by id alone; otherwise the
      name and the age (as a number) are sent and the id is `null`. */
  function BuildPayload(f: Form): (p: Payload)
    ensures f.selectedClientId != "" ==> p.clientId == Some(f.selectedClientId) && p.fullName.None? && p.age.None?
    ensures f.selectedClientId == "" ==> p.clientId.None? && p.fullName == Some(f.clientName) && p.age == Some(ToNumber(f.age))
    ensures p.subjectId == f.subjectId && p.startDate == f.startDate && p.number == ToNumber(f.numberLessons)
    ensures p.slots == NormalizeSlots(f.slots)
  {
    var chosen := f.selectedClientId != "";
    Payload(
      if chosen then Some(f.selectedClientId) else None,
      if chosen then None else Some(f.clientName),
      if chosen then None else Some(ToNumber(f.age)),
      f.subjectId,
      NormalizeSlots(f.slots),
      f.startDate,
      ToNumber(f.numberLessons))
  }

  /** A form that passes validation yields a payload that names its client
      (by id, or by a non-empty name with an age), a subject and at least one
      slot, each slot keeping its weekday and carrying a normalised time. */
  lemma ValidFormPayload(f: Form)
    requires ValidateInput(f).None?
    ensures var p := BuildPayload(f);
      (p.clientId.Some? && p.clientId.value != "") || (p.fullName.Some? && p.fullName.value != "" && p.age.Some?)
    ensures BuildPayload(f).subjectId != "" && |BuildPayload(f).slots| == |f.slots| > 0
  {
    var p := BuildPayload(f);
    assert f.subjectId != "" && f.startDate != "" && |f.slots| > 0;
    assert p.subjectId == f.subjectId && p.slots == NormalizeSlots(f.slots);
    if f.selectedClientId != "" {
      assert p.clientId == Some(f.selectedClientId);
    } else {
      assert f.clientName != "" && p.fullName == Some(f.clientName) && p.age.Some?;
    }
  }

  /** An age typed as decimal digits reaches the server as that number. */
  lemma PayloadAge(f: Form, n: nat)
    requires f.selectedClientId == "" && f.age == NatToString(n)
    ensures BuildPayload(f).age == Some(Int(n))
  {
    ToNumberRoundTrip(n);
  }

  /** The state of the page that the form handlers change. */
  class NewClientSchedulePage {
    var selectedClientId: string
    var clientName: string
    var age: string
    var subjectId: string
    var startDate: string
    var numberLessons: string
    var slots: seq<SlotPreference>
    var teachers: seq<User>
    var selectedTeacher: string
    var error: string
    var success: string
    var createdTeacher: Option<User>

    /** The form as `validateInput` and `buildPayload` read it. */
    function CurrentForm(): Form
      reads this
    {
      Form(selectedClientId, clientName, age, subjectId, startDate, numberLessons, slots)
    }

    /** The initial state; `numberLessons` starts as the number 1, which
        `Number` reads like the text "1". */
    constructor ()
      ensures CurrentForm() == Form("", "", "", "", "", "1", [DefaultSlot])
      ensures teachers == [] && selectedTeacher == "" && error == "" && success == "" && createdTeacher == None
    {
      selectedClientId := "";
      clientName := "";
      age := "";
      subjectId := "";
      startDate := "";
      numberLessons := "1";
      slots := [DefaultSlot];
      teachers := [];
      selectedTeacher := "";
      error := "";
      success := "";
      createdTeacher := None;
    }

    /** `updateSlot(i, s)`: copy the list, overwrite position `i`. */
    method UpdateSlot(i: int, s: SlotPreference)
      requires 0 <= i < |slots|
      modifies this`slots
      ensures |slots| == |old(slots)| && slots[i] == s
      ensures forall j :: 0 <= j < |slots| && j != i ==> slots[j] == old(slots)[j]
    {
      slots := slots[i := s];
    }

    /** `removeSlot(i)`: drop position `i`, keep the rest in order. */
    method RemoveSlot(i: int)
      modifies this`slots
      ensures slots == Lists.WithoutIndex(old(slots), i)
      ensures 0 <= i < |old(slots)| ==> |slots| == |old(slots)| - 1
      ensures !(0 <= i < |old(slots)|) ==> slots == old(slots)
    {
      slots := Lists.WithoutIndex(slots, i);
    }

    /** `addSlot()`: append the default row. */
    method AddSlot()
      modifies this`slots
      ensures slots == old(slots) + [DefaultSlot]
    {
      slots := slots + [DefaultSlot];
    }

    /** `resetForm()`: the form fields, the slot list and the teacher choice
        go back to their initial values; messages and the created teacher
        stay. */
    method ResetForm()
      modifies this`selectedClientId, this`clientName, this`age, this`subjectId, this`startDate,
               this`numberLessons, this`slots, this`teachers, this`selectedTeacher
      ensures CurrentForm() == Form("", "", "", "", "", "1", [DefaultSlot])
      ensures teachers == [] && selectedTeacher == ""
    {
      clientName := "";
      age := "";
      subjectId := "";
      startDate := "";
      numberLessons := "1";
      slots := [DefaultSlot];
      teachers := [];
      selectedTeacher := "";
      selectedClientId := "";
    }

    /** `handleFindTeachers`: clear the messages, validate, send the
        normalised slots, and take the teachers of the answer; `response`
        stands for the server's answer to that request. */
    method FindTeachers(response: Response<seq<User>>) returns (request: Option<seq<SlotPreference>>)
      modifies this`error, this`success, this`createdTeacher, this`teachers
      ensures success == "" && createdTeacher == None
      ensures ValidateInput(old(CurrentForm())).Some? ==>
        request == None && error == ValidateInput(old(CurrentForm())).value && teachers == old(teachers)
      ensures ValidateInput(old(CurrentForm())).None? ==> request == Some(NormalizeSlots(old(slots)))
      ensures ValidateInput(old(CurrentForm())).None? && response.Ok? ==>
        teachers == response.value && error == (if response.value == [] then "Нет свободных преподавателей" else "")
      ensures ValidateInput(old(CurrentForm())).None? && response.Failed? ==>
        teachers == old(teachers) && error == "Ошибка при поиске преподавателей"
    {
      error := "";
      success := "";
      createdTeacher := None;
      var invalid := ValidateInput(CurrentForm());
      if invalid.Some? {
        error := invalid.value;
        return None;
      }
      request := Some(NormalizeSlots(slots));
      match response
      case Ok(data) =>
        teachers := if |data| > 0 then data else [];
        if |data| == 0 {
          error := "Нет свободных преподавателей";
        }
      case Failed(_) =>
        error := "Ошибка при поиске преподавателей";
    }

    /** The answer to a creation request: remember the teacher, announce it
        and reset the form. */
    method Created(teacher: User)
      modifies this`createdTeacher, this`success, this`selectedClientId, this`clientName, this`age,
               this`subjectId, this`startDate, this`numberLessons, this`slots, this`teachers, this`selectedTeacher
      ensures createdTeacher == Some(teacher)
      ensures success == "Расписание создано. Преподаватель: " + teacher.fullName
      ensures CurrentForm() == Form("", "", "", "", "", "1", [DefaultSlot])
      ensures teachers == [] && selectedTeacher == ""
    {
      createdTeacher := Some(teacher);
      success := "Расписание создано. Преподаватель: " + teacher.fullName;
      ResetForm();
    }

    /** `handleCreate`: a teacher must be chosen; the form is sent as it is,
        without validation, and without clearing earlier messages. */
    method Create(response: Response<User>) returns (request: Option<Payload>)
      modifies this`error, this`createdTeacher, this`success, this`selectedClientId, this`clientName, this`age,
               this`subjectId, this`startDate, this`numberLessons, this`slots, this`teachers, this`selectedTeacher
      ensures old(selectedTeacher) == "" ==>
        request == None && error == "Выберите преподавателя" && CurrentForm() == old(CurrentForm())
        && success == old(success) && createdTeacher == old(createdTeacher)
        && teachers == old(teachers) && selectedTeacher == old(selectedTeacher)
      ensures old(selectedTeacher) != "" ==> request == Some(BuildPayload(old(CurrentForm())))
      ensures old(selectedTeacher) != "" && response.Ok? ==>
        createdTeacher == Some(response.value)
        && success == "Расписание создано. Преподаватель: " + response.value.fullName
        && CurrentForm() == Form("", "", "", "", "", "1", [DefaultSlot])
        && teachers == [] && selectedTeacher == "" && error == old(error)
      ensures old(selectedTeacher) != "" && response.Failed? ==>
        error == "Ошибка при создании" && CurrentForm() == old(CurrentForm())
        && success == old(success) && createdTeacher == old(createdTeacher)
        && teachers == old(teachers) && selectedTeacher == old(selectedTeacher)
    {
      if selectedTeacher == "" {
        error := "Выберите преподавателя";
        return None;
      }
      request := Some(BuildPayload(CurrentForm()));
      match response
      case Ok(teacher) =>
        Created(teacher);
      case Failed(_) =>
        error := "Ошибка при создании";
    }

    /** `handleAutoSearch`: clear the messages, validate, and send the form
        to the automatic teacher choice. */
    method AutoSearch(response: Response<User>) returns (request: Option<Payload>)
      modifies this`error, this`createdTeacher, this`success, this`selectedClientId, this`clientName, this`age,
               this`subjectId, this`startDate, this`numberLessons, this`slots, this`teachers, this`selectedTeacher
      ensures ValidateInput(old(CurrentForm())).Some? ==>
        request == None && error == ValidateInput(old(CurrentForm())).value && success == ""
        && createdTeacher == None && CurrentForm() == old(CurrentForm())
        && teachers == old(teachers) && selectedTeacher == old(selectedTeacher)
      ensures ValidateInput(old(CurrentForm())).None? ==> request == Some(BuildPayload(old(CurrentForm())))
      ensures ValidateInput(old(CurrentForm())).None? && response.Ok? ==>
        createdTeacher == Some(response.value) && error == ""
        && success == "Расписание создано. Преподаватель: " + response.value.fullName
        && CurrentForm() == Form("", "", "", "", "", "1", [DefaultSlot])
        && teachers == [] && selectedTeacher == ""
      ensures ValidateInput(old(CurrentForm())).None? && response.Failed? ==>
        error == "Ошибка автоподбора" && success == "" && createdTeacher == None
        && CurrentForm() == old(CurrentForm())
        && teachers == old(teachers) && selectedTeacher == old(selectedTeacher)
    {
      error := "";
      success := "";
      createdTeacher := None;
      var invalid := ValidateInput(CurrentForm());
      if invalid.Some? {
        error := invalid.value;
        return None;
      }
      request := Some(BuildPayload(CurrentForm()));
      match response
      case Ok(teacher) =>
        Created(teacher);
      case Failed(_) =>
        error := "Ошибка автоподбора";
    }
  }
}
