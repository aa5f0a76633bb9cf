/** The manager's subject catalogue: create a subject, delete one after
    confirmation, and rename one in place, refusing a blank name. */
module CreateSubject {
  import opened Base
  import opened Text
  import opened Domain
  import Lists

  /** `subjects.map(s => s.id === id ? { ...s, name } : s)`. */
  function Rename(subjects: seq<Subject>, id: Id, name: string): (r: seq<Subject>)
    ensures |r| == |subjects|
    ensures forall i :: 0 <= i < |r| ==> r[i].id == subjects[i].id
    ensures forall i :: 0 <= i < |r| && subjects[i].id == id ==> r[i].name == name
    ensures forall i :: 0 <= i < |r| && subjects[i].id != id ==> r[i] == subjects[i]
  {
    seq(|subjects|, i requires 0 <= i < |subjects| =>
      if subjects[i].id == id then subjects[i].(name := name) else subjects[i])
  }

  /** Renaming twice to the same name is renaming once. */
  lemma RenameIdempotent(subjects: seq<Subject>, id: Id, name: string)
    ensures Rename(Rename(subjects, id, name), id, name) == Rename(subjects, id, name)
  {
  }

  /** Deleting a subject after renaming it leaves what deleting it at once
      leaves: a rename touches no other subject. */
  lemma {:induction false} RenameThenDelete(subjects: seq<Subject>, id: Id, name: string)
    ensures WithoutId(Rename(subjects, id, name), id) == WithoutId(subjects, id)
  {
    if subjects != [] {
      var renamed := Rename(subjects, id, name);
      assert renamed[1..] == Rename(subjects[1..], id, name);
      RenameThenDelete(subjects[1..], id, name);
      assert renamed == [renamed[0]] + renamed[1..];
      assert subjects == [subjects[0]] + subjects[1..];
      assert Lists.Filter(renamed, (s: Subject) => s.id != id)
          == (if renamed[0].id != id then [renamed[0]] else []) + Lists.Filter(renamed[1..], (s: Subject) => s.id != id);
      assert Lists.Filter(subjects, (s: Subject) => s.id != id)
          == (if subjects[0].id != id then [subjects[0]] else []) + Lists.Filter(subjects[1..], (s: Subject) => s.id != id);
    }
  }

  /** What a failed creation reports: the server's `message`, else the
      response body, else the error's own message, else a fixed text; "" is
      a missing or empty value. */
  datatype CreateError = CreateError(responseMessage: string, responseData: string, message: string)

  function CreateErrorMessage(e: CreateError): (r: string)
    ensures r != ""
    ensures e.responseMessage != "" ==> r == e.responseMessage
    ensures e.responseMessage == "" && e.responseData != "" ==> r == e.responseData
    ensures e.responseMessage == "" && e.responseData == "" && e.message != "" ==> r == e.message
    ensures e.responseMessage == "" && e.responseData == "" && e.message == "" ==> r == "Ошибка при создании предмета"
  {
    OrElse(if e.responseMessage != "" then Some(e.responseMessage)
           else if e.responseData != "" then Some(e.responseData)
           else if e.message != "" then Some(e.message)
           else None,
           "Ошибка при создании предмета")
  }

  /** The state of the page; `editingId == None` is "not editing". */
  class CreateSubjectPage {
    var name: string
    var subjects: seq<Subject>
    var editingId: Option<Id>
    var editName: string
    var errorMessage: string
    var successMessage: string

    constructor ()
      ensures name == "" && subjects == [] && editingId == None && editName == ""
      ensures errorMessage == "" && successMessage == ""
    {
      name := "";
      subjects := [];
      editingId := None;
      editName := "";
      errorMessage := "";
      successMessage := "";
    }

    /** `fetchSubjects` answered. */
    method SubjectsLoaded(data: seq<Subject>)
      modifies this`subjects
      ensures subjects == data
    {
      subjects := data;
    }

    /** `fetchSubjects` failed. */
    method SubjectsFailed()
      modifies this`errorMessage
      ensures errorMessage == "Не удалось загрузить список предметов"
    {
      errorMessage := "Не удалось загрузить список предметов";
    }

    /** `handleCreate`: clear the messages and send `name`; on success the
        created subject is appended and the name input cleared. */
    method HandleCreate(response: Result<Subject, CreateError>) returns (requestName: string)
      modifies this`subjects, this`name, this`errorMessage, this`successMessage
      ensures requestName == old(name)
      ensures response.Success? ==>
        subjects == old(subjects) + [response.value] && name == ""
        && successMessage == "Предмет успешно создан" && errorMessage == ""
      ensures response.Failure? ==>
        subjects == old(subjects) && name == old(name)
        && errorMessage == CreateErrorMessage(response.error) && successMessage == ""
    {
      requestName := name;
      errorMessage := "";
      successMessage := "";
      match response
      case Success(created) =>
        subjects := subjects + [created];
        successMessage := "Предмет успешно создан";
        name := "";
      case Failure(e) =>
        errorMessage := CreateErrorMessage(e);
    }

    /** `handleDelete(id)`: nothing without confirmation; on success every
        subject with that id is dropped. */
    method HandleDelete(id: Id, confirmed: bool, response: Response<()>) returns (sent: bool)
      modifies this`subjects, this`errorMessage
      ensures sent == confirmed
      ensures !confirmed || response.Failed? ==> subjects == old(subjects)
      ensures confirmed && response.Ok? ==> subjects == WithoutId(old(subjects), id)
      ensures errorMessage == if confirmed && response.Failed? then "Ошибка при удалении" else old(errorMessage)
    {
      if !confirmed {
        return false;
      }
      sent := true;
      match response
      case Ok(_) =>
        subjects := WithoutId(subjects, id);
      case Failed(_) =>
        errorMessage := "Ошибка при удалении";
    }

    /** `startEdit(id, currentName)`. */
    method StartEdit(id: Id, currentName: string)
      modifies this`editingId, this`editName, this`errorMessage, this`successMessage
      ensures editingId == Some(id) && editName == currentName
      ensures errorMessage == "" && successMessage == ""
    {
      editingId := Some(id);
      editName := currentName;
      errorMessage := "";
      successMessage := "";
    }

    /** `cancelEdit()`. */
    method CancelEdit()
      modifies this`editingId, this`editName
      ensures editingId == None && editName == ""
    {
      editingId := None;
      editName := "";
    }

    /** `saveEdit(id)`: a name that is blank once trimmed is refused and
        nothing is sent; otherwise the untrimmed name is sent and, on
        success, given to every subject with that id, and editing ends. */
    method SaveEdit(id: Id, response: Response<()>) returns (sent: bool)
      modifies this`subjects, this`editingId, this`editName, this`errorMessage, this`successMessage
      ensures sent <==> !IsBlank(old(editName))
      ensures !sent ==>
        errorMessage == "Название не может быть пустым" && subjects == old(subjects)
        && editingId == old(editingId) && editName == old(editName) && successMessage == old(successMessage)
      ensures sent && response.Ok? ==>
        subjects == Rename(old(subjects), id, old(editName)) && successMessage == "Изменено успешно"
        && editingId == None && editName == "" && errorMessage == old(errorMessage)
      ensures sent && response.Failed? ==>
        subjects == old(subjects) && errorMessage == "Ошибка при обновлении"
        && editingId == old(editingId) && editName == old(editName) && successMessage == old(successMessage)
    {
      // `!editName.trim()`, which is `IsBlank(editName)` by `TrimEmptyIffBlank`.
      if IsBlank(editName) {
        errorMessage := "Название не может быть пустым";
        return false;
      }
      sent := true;
      match response
      case Ok(_) =>
        subjects := Rename(subjects, id, editName);
        successMessage := "Изменено успешно";
        CancelEdit();
      case Failed(_) =>
        errorMessage := "Ошибка при обновлении";
    }
  }
}
