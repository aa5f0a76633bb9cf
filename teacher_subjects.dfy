/** The teacher's own subjects: the subjects assigned to the teacher, and the
    ones still available to assign, which are all subjects whose id no
    assigned subject has. */
module TeacherSubjects {
  import opened Base
  import opened Domain
  import Lists

  /** `assigned.some(a => a.id === id)`. */
  function HasId(subjects: seq<Subject>, id: Id): (r: bool)
    ensures r <==> exists i :: 0 <= i < |subjects| && subjects[i].id == id
  {
    Lists.Any(subjects, (a: Subject) => a.id == id)
  }

  /** `available`: the subjects of `all`, in their order, whose id is not assigned. */
  function Available(all: seq<Subject>, assignedSubjects: seq<Subject>): (r: seq<Subject>)
    ensures Lists.Subsequence(r, all)
    ensures forall x {:trigger multiset(r)[x]} :: multiset(r)[x] == if HasId(assignedSubjects, x.id) then 0 else multiset(all)[x]
  {
    Lists.Filter(all, (s: Subject) => !HasId(assignedSubjects, s.id))
  }

  /** A subject is available exactly when it is one of all subjects and no
      assigned subject shares its id. */
  lemma AvailableMembership(all: seq<Subject>, assignedSubjects: seq<Subject>, s: Subject)
    ensures s in Available(all, assignedSubjects) <==> s in all && !HasId(assignedSubjects, s.id)
  {
    Lists.FilterMembership(all, (x: Subject) => !HasId(assignedSubjects, x.id), s);
  }

  /** The two lists never share an id. */
  lemma AvailableDisjoint(all: seq<Subject>, assignedSubjects: seq<Subject>, i: int, j: int)
    requires 0 <= i < |Available(all, assignedSubjects)| && 0 <= j < |assignedSubjects|
    ensures Available(all, assignedSubjects)[i].id != assignedSubjects[j].id
  {
    AvailableMembership(all, assignedSubjects, Available(all, assignedSubjects)[i]);
  }

  /** After an assignment the subject is no longer available. */
  lemma AssignedNotAvailable(all: seq<Subject>, assignedSubjects: seq<Subject>, subj: Subject, s: Subject)
    requires s.id == subj.id
    ensures s !in Available(all, assignedSubjects + [subj])
  {
    assert (assignedSubjects + [subj])[|assignedSubjects|].id == s.id;
    AvailableMembership(all, assignedSubjects + [subj], s);
  }

  /** After a removal no assigned subject has the id, and each subject of
      that id becomes available again. */
  lemma RemovedIsAvailable(all: seq<Subject>, assignedSubjects: seq<Subject>, id: Id, s: Subject)
    requires s in all && s.id == id
    ensures !HasId(WithoutId(assignedSubjects, id), id)
    ensures s in Available(all, WithoutId(assignedSubjects, id))
  {
    var rest := WithoutId(assignedSubjects, id);
    forall k | 0 <= k < |rest|
      ensures rest[k].id != id
    {
      assert rest[k] in multiset(rest);
    }
    AvailableMembership(all, rest, s);
  }

  /** The state of the page. */
  class TeacherSubjectsPage {
    var teacherId: Option<Id>
    var allSubjects: seq<Subject>
    var assignedSubjects: seq<Subject>
    var errorMessage: string
    var successMessage: string

    constructor ()
      ensures teacherId == None && allSubjects == [] && assignedSubjects == []
      ensures errorMessage == "" && successMessage == ""
    {
      teacherId := None;
      allSubjects := [];
      assignedSubjects := [];
      errorMessage := "";
      successMessage := "";
    }

    /** `/auth/me` answered: the teacher and the profile's subjects, or none. */
    method ProfileLoaded(id: Id, subjects: Option<seq<Subject>>)
      modifies this`teacherId, this`assignedSubjects
      ensures teacherId == Some(id)
      ensures assignedSubjects == if subjects.Some? then subjects.value else []
    {
      teacherId := Some(id);
      assignedSubjects := if subjects.Some? then subjects.value else [];
    }

    /** `/auth/me` failed. */
    method ProfileFailed()
      modifies this`errorMessage
      ensures errorMessage == "Не удалось загрузить профиль"
    {
      errorMessage := "Не удалось загрузить профиль";
    }

    /** `/subjects` answered. */
    method SubjectsLoaded(data: seq<Subject>)
      modifies this`allSubjects
      ensures allSubjects == data
    {
      allSubjects := data;
    }

    /** `/subjects` failed. */
    method SubjectsFailed()
      modifies this`errorMessage
      ensures errorMessage == "Не удалось загрузить список предметов"
    {
      errorMessage := "Не удалось загрузить список предметов";
    }

    /** `handleAssign(subjectId)`, offered only for available subjects:
        without a teacher nothing happens; on success the first subject of
        `allSubjects` with that id is appended, and it is then no longer
        available. */
    method Assign(subjectId: Id, response: Response<()>)
      requires exists i :: 0 <= i < |allSubjects| && allSubjects[i].id == subjectId
      modifies this`assignedSubjects, this`errorMessage, this`successMessage
      ensures !Present(old(teacherId)) ==>
        assignedSubjects == old(assignedSubjects) && errorMessage == old(errorMessage) && successMessage == old(successMessage)
      ensures Present(old(teacherId)) && response.Ok? ==>
        assignedSubjects == old(assignedSubjects) + [Lists.Find(allSubjects, (s: Subject) => s.id == subjectId).value]
        && successMessage == "Предмет успешно привязан" && errorMessage == ""
      ensures Present(old(teacherId)) && response.Ok? ==>
        forall s :: s in allSubjects && s.id == subjectId ==> s !in Available(allSubjects, assignedSubjects)
      ensures Present(old(teacherId)) && response.Failed? ==>
        assignedSubjects == old(assignedSubjects) && successMessage == ""
        && errorMessage == (if response.message != "" then response.message else "Ошибка привязки")
    {
      if !Present(teacherId) {
        return;
      }
      errorMessage := "";
      successMessage := "";
      match response
      case Ok(_) =>
        var subj := Lists.Find(allSubjects, (s: Subject) => s.id == subjectId);
        var k := Lists.FirstIndex(allSubjects, (s: Subject) => s.id == subjectId);
        assert k.Some?;
        assert subj.value.id == subjectId;
        var before := assignedSubjects;
        assignedSubjects := assignedSubjects + [subj.value];
        forall s | s in allSubjects && s.id == subjectId
          ensures s !in Available(allSubjects, assignedSubjects)
        {
          AssignedNotAvailable(allSubjects, before, subj.value, s);
        }
        successMessage := "Предмет успешно привязан";
      case Failed(message) =>
        errorMessage := if message != "" then message else "Ошибка привязки";
    }

    /** `handleRemove(subjectId)`: without a teacher nothing happens; on
        success every assigned subject with that id is dropped. */
    method Remove(subjectId: Id, response: Response<()>)
      modifies this`assignedSubjects, this`errorMessage, this`successMessage
      ensures !Present(old(teacherId)) ==>
        assignedSubjects == old(assignedSubjects) && errorMessage == old(errorMessage) && successMessage == old(successMessage)
      ensures Present(old(teacherId)) && response.Ok? ==>
        assignedSubjects == WithoutId(old(assignedSubjects), subjectId) && successMessage == "Привязка удалена" && errorMessage == ""
      ensures Present(old(teacherId)) && response.Failed? ==>
        assignedSubjects == old(assignedSubjects) && successMessage == ""
        && errorMessage == (if response.message != "" then response.message else "Ошибка удаления привязки")
    {
      if !Present(teacherId) {
        return;
      }
      errorMessage := "";
      successMessage := "";
      match response
      case Ok(_) =>
        assignedSubjects := WithoutId(assignedSubjects, subjectId);
        successMessage := "Привязка удалена";
      case Failed(message) =>
        errorMessage := if message != "" then message else "Ошибка удаления привязки";
    }
  }
}
