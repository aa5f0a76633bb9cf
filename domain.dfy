/** The records the pages receive from the server, reduced to the fields the
    pages read. */
module Domain {
  import opened Base
  import opened Calendar
  import Lists

  datatype Client = Client(id: Id, fullName: string, age: int)

  datatype Subject = Subject(id: Id, name: string)

  /** `subjects.filter(s => s.id !== id)`: every subject with that id dropped,
      the others kept in order. */
  function WithoutId(subjects: seq<Subject>, id: Id): (r: seq<Subject>)
    ensures Lists.Subsequence(r, subjects)
    ensures forall x {:trigger multiset(r)[x]} :: multiset(r)[x] == if x.id == id then 0 else multiset(subjects)[x]
  {
    Lists.Filter(subjects, (s: Subject) => s.id != id)
  }

  /** A booked lesson.  `lessonDate` is the server's timestamp as the browser's
      local clock reads it; `client` may be missing from a response, in which
      case only `clientId` is known. */
  datatype Lesson = Lesson(
    id: Id,
    lessonDate: Timestamp,
    status: string,
    client: Option<Client>,
    clientId: Id,
    subject: Subject)

  /** A weekly working-time slot of a teacher: a weekday name and an
      `HH:MM:SS` time. */
  datatype TimeSlot = TimeSlot(
    id: Id,
    userId: Id,
    dayOfWeek: string,
    time: string,
    isBusy: bool)

  /** An account as `/users` lists it. */
  datatype User = User(id: Id, fullName: string)

  /** The body of a `/lessons/range` request: one owner and the first and
      last day of the displayed week. */
  datatype RangeRequest<I> = RangeRequest(userId: I, startDate: Day, endDate: Day)

  /** The outcome of a request as a page sees it: the response body, or a
      failure carrying `err.response?.data?.message`, "" when there is none. */
  datatype Response<T> = Ok(value: T) | Failed(message: string)
}
