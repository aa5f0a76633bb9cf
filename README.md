# TimeFlow front end: schedule grids, slot lists, subject lists and role routing

TimeFlow is a React client for a tutoring school's scheduling service. This
project models the logic its pages run in the browser once the server's answers
are in hand, and proves properties of that model:

- **Weekly schedule grids.**
  - The teacher's own week (`TeacherSchedulePage`) is a table of hour rows in a chosen `[fromHour, toHour)` range by the days of the displayed Sunday-to-Saturday week.
  - Each cell shows the first lesson whose time, moved back four hours, falls in that cell. Failing that, the cell shows "free" when a weekly working-time slot has the cell's weekday name and hour.
  - The manager's view of a teacher (`SchedulePage`) shows lessons only. It always has 24 rows and matches row `i` against hour `i`.
- **Slot preferences and request bodies.**
  - The new-client form (`NewClientSchedulePage`) keeps an ordered list of `{dayOfWeek, time}` rows and validates the form. It builds the request bodies and normalises `HH:MM` to `HH:MM:SS`.
  - The teacher search form (`SearchTeacherForm`) turns a weekday name into 0..6.
- **Working-time slots** (`ManageTimeSlotsPage`): the teacher's own slots, grouped into seven weekday sections; create and delete.
- **Subjects.**
  - The teacher assigns and removes subjects (`TeacherSubjectsPage`); "available" is all subjects minus the assigned ones.
  - The manager creates, deletes and renames subjects (`CreateSubjectPage`).
- **Roles.** The navigation links per role (`VerticalNavbar`) and the landing page after sign-in (`LoginPage`).

Server answers, browser storage and user confirmations are parameters of the methods that consume them.

Every page whose handlers update `useState` fields is a `class` whose fields are those state variables and whose methods are the handlers. Those methods are specified against the pure functions of each module, and the lemmas prove what the page promises about those functions.

Dates are whole hours (`Timestamp`) and whole days (`Day`) counted from 1970-01-01 on the local clock. The civil date of a day follows the Gregorian calendar. `LessonCells.LandsInIff` proves that comparing year, month, day of month and hour, as the pages do, is the same as comparing the corrected timestamp with `24 * day + hour`.

Times are normalised by one rule everywhere a request is built: `:00` is appended only to a five-character time, so `10:00` is sent as `10:00:00` and `9:30` is sent unchanged (`Text.NormalizeTime`).

The sign-in page's role switch tests the text `"Adm"` while the navigation uses `"Administrator"`. The page handler `Login.LoginPage.HandleSubmit` routes with the switch as written; the corrected switch is stated beside it (see "## Findings").

## Model

| member | source | states |
|---|---|---|
| TeacherSchedule.AllHoursLabels | src/pages/TeacherSchedulePage.jsx:16-18 | the selector labels are 24 five-character `HH:00` texts, label `i` naming hour `i` |
| TeacherSchedule.RowLabelShape | src/pages/TeacherSchedulePage.jsx:115-117 | a row label is `HH:00 – HH:00`: 13 characters, starting with the row's own hour label and ending with the next hour's |
| TeacherSchedule.HourRows | src/pages/TeacherSchedulePage.jsx:111-119 | `toHour - fromHour` rows, none for an empty range, row `k` being hour `fromHour + k` with its label |
| TeacherSchedule.FromHourOptions | src/pages/TeacherSchedulePage.jsx:151-155 | 24 options, option `idx` having value `idx`, caption `HH:00` of `idx`, and disabled exactly when `idx >= toHour` |
| TeacherSchedule.ToHourOptions | src/pages/TeacherSchedulePage.jsx:168-172 | 24 options, option `idx` having value `idx + 1`, caption `HH:00` of `idx`, and disabled exactly when `idx < fromHour` |
| TeacherSchedule.BuildTimeSlots | src/pages/TeacherSchedulePage.jsx:111-119 | the loop yields `toHour - fromHour` rows (none for an empty range), row `k` being hour `fromHour + k` with its label |
| TeacherSchedule.HourRowsCover | src/pages/TeacherSchedulePage.jsx:111-119 | an hour has a row exactly when `fromHour <= h < toHour` |
| TeacherSchedule.SelectorsKeepRangeNonEmpty | src/pages/TeacherSchedulePage.jsx:145-173 | every enabled option keeps `fromHour < toHour`, and every value that keeps it is offered enabled |
| TeacherSchedule.IsFree | src/pages/TeacherSchedulePage.jsx:101-108 | true exactly when some slot has the day's English weekday name and an hour field equal to the hour |
| TeacherSchedule.SlotHour | src/pages/TeacherSchedulePage.jsx:105 | a time starting with two digits and a colon has those digits as its hour; a time with nothing before its first colon has no hour |
| TeacherSchedule.SlotCovers | src/pages/TeacherSchedulePage.jsx:104-106 | a covering slot has one of the seven weekday names and a non-empty hour field |
| TeacherSchedule.SlotCoversEveryWeek | src/pages/TeacherSchedulePage.jsx:101-108 | a slot covers an hour of a day exactly when it covers that hour of the same weekday any whole number of weeks away |
| TeacherSchedule.SlotHourIgnoresMinutes | src/pages/TeacherSchedulePage.jsx:105-106 | a slot time `HH:<anything>` has hour `HH`, whatever follows the colon |
| TeacherSchedule.IsFreeIgnoresBusy | src/pages/TeacherSchedulePage.jsx:101-108 | flipping `isBusy` on every slot changes no answer of `isFree` |
| TeacherSchedule.MondayTwoPmSlot | src/pages/TeacherSchedulePage.jsx:101-108 | a "Monday 14:00:00" slot covers exactly hour 14 of days whose weekday index is Monday's |
| TeacherSchedule.CellAt | src/pages/TeacherSchedulePage.jsx:209-254 | booked exactly when some lesson lands in the cell, and then with the first one; free exactly when no lesson lands and some slot covers it; blank otherwise |
| TeacherSchedule.LessonSuppressesFree | src/pages/TeacherSchedulePage.jsx:210-211 | a landing lesson makes the cell booked and never free |
| TeacherSchedule.NoSlotsNoFreeCells | src/pages/TeacherSchedulePage.jsx:103 | with no slots no cell of the grid is free: a cell is booked exactly when a lesson lands in it, and blank otherwise |
| TeacherSchedule.Grid | src/pages/TeacherSchedulePage.jsx:204-259 | one line per row and one cell per day, cell (r, c) being the cell rule for row r's hour on day c |
| TeacherSchedule.OnlyMondayOfWeek | src/pages/TeacherSchedulePage.jsx:69-72 | in the week around a Monday no other day has Monday's weekday index |
| TeacherSchedule.WorkedWeekBooked | src/pages/TeacherSchedulePage.jsx:209-245 | a lesson corrected to Monday 13:00 is shown in the Monday 13:00 cell |
| TeacherSchedule.WorkedWeekFree | src/pages/TeacherSchedulePage.jsx:211-253 | with that lesson and a "Monday 14:00:00" slot, the Monday 14:00 cell is free |
| TeacherSchedule.WorkedWeekBlank | src/pages/TeacherSchedulePage.jsx:209-254 | every other cell of that week is blank |
| TeacherSchedule.StatusStyle | src/pages/TeacherSchedulePage.jsx:87-98 | the text is always white, and the background is the grey exactly when the status is none of the three known ones |
| TeacherSchedule.StatusStylesDistinct | src/pages/TeacherSchedulePage.jsx:87-98 | the three known statuses get three different colours, every other status the grey, and the text is always white |
| TeacherSchedule.TeacherSchedulePage.constructor | src/pages/TeacherSchedulePage.jsx:21-30 | no teacher, the week of today starting on Sunday, no data, hours 8 to 20 |
| TeacherSchedule.TeacherSchedulePage.ProfileLoaded | src/pages/TeacherSchedulePage.jsx:36 | the teacher id is recorded |
| TeacherSchedule.TeacherSchedulePage.ProfileFailed | src/pages/TeacherSchedulePage.jsx:37 | the profile error is shown |
| TeacherSchedule.TeacherSchedulePage.RequestWeek | src/pages/TeacherSchedulePage.jsx:41-53 | nothing is requested without a teacher; otherwise the error is cleared and the displayed week, start to end, is requested for the teacher |
| TeacherSchedule.TeacherSchedulePage.WeekLoaded | src/pages/TeacherSchedulePage.jsx:55-58 | lessons and slots are replaced by the answers |
| TeacherSchedule.TeacherSchedulePage.WeekFailed | src/pages/TeacherSchedulePage.jsx:59 | the load error is shown and the data kept |
| TeacherSchedule.TeacherSchedulePage.PrevWeek | src/pages/TeacherSchedulePage.jsx:63-64 | the week start moves back exactly 7 days and stays a Sunday |
| TeacherSchedule.TeacherSchedulePage.NextWeek | src/pages/TeacherSchedulePage.jsx:65-66 | the week start moves forward exactly 7 days and stays a Sunday |
| TeacherSchedule.TeacherSchedulePage.SelectFromHour | src/pages/TeacherSchedulePage.jsx:145-156 | choosing an enabled option keeps the range non-empty |
| TeacherSchedule.TeacherSchedulePage.SelectToHour | src/pages/TeacherSchedulePage.jsx:162-173 | choosing an enabled option keeps the range non-empty |
| TeacherSchedule.TeacherSchedulePage.Render | src/pages/TeacherSchedulePage.jsx:69-72 | the rows of the range, the seven days named Sunday to Saturday, and the grid of the cell rule |
| TeacherSchedule.AdvanceWeeks | src/pages/TeacherSchedulePage.jsx:63-72 | moving a Sunday-start week by `n` weeks gives a Sunday-start week of seven days named Sunday to Saturday, each the old day moved by `7 * n`, and moving back by `n` weeks returns to the start |
| LessonCells.LandsInIff | src/pages/TeacherSchedulePage.jsx:77-84 | matching year, month, day of month and hour of the corrected date is the same as the corrected timestamp being that hour of that day |
| LessonCells.Corrected | src/pages/TeacherSchedulePage.jsx:77-78 | four hours earlier: the same day at hour minus 4 from 04:00 on, and the day before at hour plus 20 before 04:00 |
| LessonCells.LandsIn | src/pages/TeacherSchedulePage.jsx:79-84 | a lesson lands only in an hour between 0 and 23 |
| LessonCells.LandsInOneCell | src/pages/TeacherSchedulePage.jsx:79-84 | a lesson lands in one cell only |
| LessonCells.CorrectingTwiceMisplaces | src/pages/TeacherSchedulePage.jsx:78 | applying the four-hour correction a second time moves a lesson out of its cell |
| LessonCells.FindLesson | src/pages/TeacherSchedulePage.jsx:75-85 | nothing exactly when no lesson lands in the cell; otherwise a landing lesson with no landing lesson before it |
| LessonCells.FindLessonFirst | src/pages/SchedulePage.jsx:78-92 | the lesson found is the first landing one in response order |
| Calendar.CivilInjective | src/pages/TeacherSchedulePage.jsx:80-82 | two different days never share year, month and day of month |
| Calendar.FieldsDetermineTimestamp | src/pages/TeacherSchedulePage.jsx:80-83 | year, month, day of month and hour determine a timestamp |
| Calendar.CivilRoundTrip | src/pages/TeacherSchedulePage.jsx:80-82 | reading a day's year, month and day of month back gives the same day |
| Calendar.CivilFromDays | src/pages/TeacherSchedulePage.jsx:80-82 | every day has a valid Gregorian date |
| Calendar.EpochIsThursday | src/pages/TeacherSchedulePage.jsx:102 | 1970-01-01 is a Thursday |
| Calendar.WeekdayNameIndex | src/pages/TeacherSchedulePage.jsx:102-104 | a day has weekday name `i` exactly when it is day `i` of its Sunday-first week |
| Calendar.WeekdayName | src/pages/TeacherSchedulePage.jsx:102 | always one of the seven English weekday names |
| Calendar.WeekdayAfterWeeks | src/pages/TeacherSchedulePage.jsx:63-66 | moving by whole weeks keeps the weekday |
| Calendar.StartOfWeek | src/pages/TeacherSchedulePage.jsx:22-24 | the Sunday on or before the day |
| Calendar.EndOfWeek | src/pages/TeacherSchedulePage.jsx:45 | the Saturday on or after the day, within a week |
| Calendar.WeekDays | src/pages/TeacherSchedulePage.jsx:69-72 | consecutive days from the start up to the week's Saturday |
| Calendar.WeekDaysOfSundayStart | src/pages/SchedulePage.jsx:73-76 | a week starting on Sunday shows seven days named Sunday to Saturday |
| Text.Pad2Digits | src/pages/TeacherSchedulePage.jsx:17 | below 100 the padded hour is two digits reading back as the hour |
| Text.HourLabel | src/pages/TeacherSchedulePage.jsx:16-18 | ends with `:00`, and has five characters for an hour below 100 |
| Text.NatToStringRoundTrip | src/pages/TeacherSchedulePage.jsx:17 | the decimal text of a number reads back as that number |
| Text.ParseIntPadded | src/pages/TeacherSchedulePage.jsx:105 | `parseInt` of a two-digit hour followed by a non-digit gives the hour |
| Text.ParseInt | src/pages/TeacherSchedulePage.jsx:105 | leading whitespace skipped, an optional `+` or `-`, then the longest run of decimal digits gives the (signed) value; no digits there is `NaN`; in particular all-digit text gives its decimal value and empty or blank text `NaN` |
| Text.BeforeColon | src/pages/TeacherSchedulePage.jsx:105 | a prefix of the text without a colon, followed by a colon unless it is the whole text |
| Text.BeforeColonAppend | src/pages/TeacherSchedulePage.jsx:105 | text after the first colon does not change what `split(":")[0]` gives |
| Text.NormalizeTime | src/pages/NewClientSchedulePage.jsx:114 | the result never has length 5, extends the input, differs only by `:00` after a five-character input, and keeps the hour field |
| Text.NormalizeTimeIdempotent | src/pages/NewClientSchedulePage.jsx:127 | normalising twice is normalising once |
| Text.ToNumberRoundTrip | src/pages/NewClientSchedulePage.jsx:110 | `Number` of a number's decimal text is that number |
| Text.ToNumber | src/components/SearchTeacherForm.jsx:33 | blank text is 0; trimmed digits are their value, with a leading minus its negation; a number only comes from text starting with a sign or a digit |
| Text.TrimEmptyIffBlank | src/pages/CreateSubjectPage.jsx:82 | `trim()` gives "" exactly when every character is whitespace |
| Text.Trim | src/pages/CreateSubjectPage.jsx:82 | the result is a piece of the text with only whitespace before and after it, and starts and ends with a non-whitespace character |
| Lists.Filter | src/pages/ManageTimeSlotsPage.jsx:40 | `filter` keeps a subsequence holding each passing element as often as the input and no other |
| Lists.FilterMembership | src/pages/ManageTimeSlotsPage.jsx:79 | an element is kept exactly when it is in the input and passes |
| Lists.WithoutIndex | src/pages/NewClientSchedulePage.jsx:92 | dropping position `i` is the list without that position; an index outside the list drops nothing |
| Lists.FirstIndex | src/pages/TeacherSchedulePage.jsx:76 | `find` takes the first passing position, and none when nothing passes |
| Lists.Any | src/pages/TeacherSchedulePage.jsx:103 | `some` is true exactly when some element passes |
| Lists.Find | src/pages/TeacherSubjectsPage.jsx:42 | nothing exactly when no element passes; otherwise the first passing element |
| Schedule.GenerateTimeSlots | src/pages/SchedulePage.jsx:6-15 | the push loop yields exactly `SlotRows`: `endHour - startHour` rows, row `k` labelled from hour `startHour + k` to the next |
| Schedule.SlotRows | src/pages/SchedulePage.jsx:6-15 | `endHour - startHour` rows, none for an empty range, row `k` running from the label of hour `startHour + k` to that of the next |
| Schedule.DefaultRowsMatchTheirIndex | src/pages/SchedulePage.jsx:146-147 | with the defaults there are 24 rows and row `i`'s label names hour `i`, the hour it is matched against |
| Schedule.OtherStartMismatchesRows | src/pages/SchedulePage.jsx:146-147 | with any other first hour, row `i`'s label names a different hour from `i` |
| Schedule.TeachersFrom | src/pages/SchedulePage.jsx:32-39 | `data.users` when present, else the array itself, else nothing |
| Schedule.CellTextOf | src/pages/SchedulePage.jsx:157 | the client's name when there is a non-empty one, else the client id |
| Schedule.LessonCellAt | src/pages/SchedulePage.jsx:152-159 | nothing exactly when no lesson lands; otherwise the text of a landing lesson |
| Schedule.PagesPlaceLessonsAlike | src/pages/SchedulePage.jsx:78-92 | a cell here is occupied exactly when the teacher's page books it, and names the client of that same lesson |
| Schedule.ScheduleGrid | src/pages/SchedulePage.jsx:146-165 | row `i`, day `c` shows the lesson cell of hour `i` on day `c` |
| Schedule.SchedulePage.constructor | src/pages/SchedulePage.jsx:19-24 | no teachers, none chosen, the week of today starting on Sunday, no lessons, no error |
| Schedule.SchedulePage.TeachersLoaded | src/pages/SchedulePage.jsx:31-39 | the teacher list is unwrapped from the answer |
| Schedule.SchedulePage.TeachersFailed | src/pages/SchedulePage.jsx:42 | the teacher-list error is shown |
| Schedule.SchedulePage.SelectTeacher | src/pages/SchedulePage.jsx:71 | the chosen value is recorded |
| Schedule.SchedulePage.RequestLessons | src/pages/SchedulePage.jsx:48-58 | lessons are requested exactly when a teacher is chosen, for the displayed week |
| Schedule.SchedulePage.LessonsLoaded | src/pages/SchedulePage.jsx:60 | the lessons are replaced |
| Schedule.SchedulePage.LessonsFailed | src/pages/SchedulePage.jsx:63 | the schedule error is shown |
| Schedule.SchedulePage.PrevWeek | src/pages/SchedulePage.jsx:69 | back exactly 7 days, still a Sunday |
| Schedule.SchedulePage.NextWeek | src/pages/SchedulePage.jsx:70 | forward exactly 7 days, still a Sunday |
| Schedule.SchedulePage.Render | src/pages/SchedulePage.jsx:117-170 | the table is shown exactly when a teacher is chosen, with 24 rows, seven days Sunday to Saturday, and the grid by row index |
| NewClientSchedule.DaysOfWeekEachOnce | src/pages/NewClientSchedulePage.jsx:9-17 | the seven weekday names, Sunday first, each once |
| NewClientSchedule.NormalizeSlots | src/pages/NewClientSchedulePage.jsx:112-115 | same length and order; row `i` keeps its weekday and its time becomes `NormalizeTime` of the old one, so a five-character time gains `:00` and any other is kept |
| NewClientSchedule.NormalizeSlotsIdempotent | src/pages/NewClientSchedulePage.jsx:125-128 | normalising a normalised slot list changes nothing |
| NewClientSchedule.ValidateInput | src/pages/NewClientSchedulePage.jsx:95-105 | the client message exactly when no client is chosen and name or age is empty; the fields message exactly when that passes and subject, start date or slots are missing; success otherwise |
| NewClientSchedule.BuildPayload | src/pages/NewClientSchedulePage.jsx:107-118 | a chosen client is sent by id with null name and age; otherwise null id with the name and the age as a number; the slots normalised |
| NewClientSchedule.ValidFormPayload | src/pages/NewClientSchedulePage.jsx:95-118 | a validated form's body names its client, a subject and at least one slot |
| NewClientSchedule.PayloadAge | src/pages/NewClientSchedulePage.jsx:110 | an age typed as digits is sent as that number |
| NewClientSchedule.NewClientSchedulePage.constructor | src/pages/NewClientSchedulePage.jsx:63-74 | an empty form with one Monday 10:00 slot and one lesson |
| NewClientSchedule.NewClientSchedulePage.UpdateSlot | src/pages/NewClientSchedulePage.jsx:87-91 | only position `i` changes; the length and every other position stay |
| NewClientSchedule.NewClientSchedulePage.RemoveSlot | src/pages/NewClientSchedulePage.jsx:92 | position `i` is dropped, the rest kept in order; an index outside the list changes nothing |
| NewClientSchedule.NewClientSchedulePage.AddSlot | src/pages/NewClientSchedulePage.jsx:93 | the default slot is appended and the rest kept |
| NewClientSchedule.NewClientSchedulePage.ResetForm | src/pages/NewClientSchedulePage.jsx:174-180 | the form returns to its initial values, including the single default slot |
| NewClientSchedule.NewClientSchedulePage.FindTeachers | src/pages/NewClientSchedulePage.jsx:120-138 | an invalid form sends nothing and shows its message; a valid one sends the normalised slots, and an empty answer shows "no free teachers" |
| NewClientSchedule.NewClientSchedulePage.Created | src/pages/NewClientSchedulePage.jsx:150-152 | the created teacher is remembered and announced by name, the form reset to its initial values, the teacher list emptied and the choice cleared |
| NewClientSchedule.NewClientSchedulePage.Create | src/pages/NewClientSchedulePage.jsx:140-156 | without a chosen teacher only the error is set and nothing is sent; otherwise the body is sent unvalidated; success announces the teacher by name, resets the form, empties the teacher list and clears the choice, keeping any earlier error; failure sets the error and changes nothing else |
| NewClientSchedule.NewClientSchedulePage.AutoSearch | src/pages/NewClientSchedulePage.jsx:158-172 | messages and the created teacher cleared; an invalid form shows the first validation error, sends nothing and keeps the form, teacher list and choice; a valid one sends the body; success announces the teacher by name, resets the form, empties the teacher list and clears the choice; failure shows its error with the success text still empty and the rest kept |
| ManageTimeSlots.OwnedBy | src/pages/ManageTimeSlotsPage.jsx:40 | exactly the owner's slots, in order, with their multiplicity |
| ManageTimeSlots.OwnedByMembership | src/pages/ManageTimeSlotsPage.jsx:40 | a slot is kept exactly when the user owns it |
| ManageTimeSlots.OnDay | src/pages/ManageTimeSlotsPage.jsx:90 | a subsequence holding each slot with that day name as often as the list does, and no other |
| ManageTimeSlots.SlotsByDay | src/pages/ManageTimeSlotsPage.jsx:87-91 | seven groups named Sunday to Saturday, each a subsequence of the slots |
| ManageTimeSlots.SlotsByDayPartition | src/pages/ManageTimeSlotsPage.jsx:87-91 | group `i` holds each slot of weekday `i` as often as the list does, and nothing else |
| ManageTimeSlots.UnknownDayInNoGroup | src/pages/ManageTimeSlotsPage.jsx:87-91 | a slot with any other day name is in no group |
| ManageTimeSlots.KnownDayInItsGroup | src/pages/ManageTimeSlotsPage.jsx:87-91 | a slot is in its own weekday's group and in no other |
| ManageTimeSlots.NewSlotRequest | src/pages/ManageTimeSlotsPage.jsx:52-63 | nothing without a teacher; otherwise a busy slot of the teacher on the chosen day, its time `time + ":00"` for a five-character time and `time` otherwise |
| ManageTimeSlots.WithoutSlot | src/pages/ManageTimeSlotsPage.jsx:79 | every slot with the id dropped, the others kept in order and multiplicity |
| ManageTimeSlots.WithoutSlotMembership | src/pages/ManageTimeSlotsPage.jsx:79 | after a delete a slot remains exactly when it was there and has another id |
| ManageTimeSlots.WithoutAbsentSlotUnchanged | src/pages/ManageTimeSlotsPage.jsx:79 | deleting an id that no slot carries leaves the list unchanged |
| ManageTimeSlots.WithoutSlotKeepsOwner | src/pages/ManageTimeSlotsPage.jsx:79 | deleting keeps the list the teacher's own |
| ManageTimeSlots.ServerMessageOr | src/pages/ManageTimeSlotsPage.jsx:67 | the server's message when there is one, else the fallback |
| ManageTimeSlots.ManageTimeSlotsPage.constructor | src/pages/ManageTimeSlotsPage.jsx:19-24 | no teacher, no slots, Monday at 08:00, no messages |
| ManageTimeSlots.ManageTimeSlotsPage.ProfileLoaded | src/pages/ManageTimeSlotsPage.jsx:29-31 | the teacher id is recorded |
| ManageTimeSlots.ManageTimeSlotsPage.ProfileFailed | src/pages/ManageTimeSlotsPage.jsx:33 | the profile error is shown |
| ManageTimeSlots.ManageTimeSlotsPage.SlotsLoaded | src/pages/ManageTimeSlotsPage.jsx:37-40 | the list becomes the teacher's slots of the answer, and stays the teacher's own |
| ManageTimeSlots.ManageTimeSlotsPage.SlotsFailed | src/pages/ManageTimeSlotsPage.jsx:42 | the load error is shown |
| ManageTimeSlots.ManageTimeSlotsPage.Submit | src/pages/ManageTimeSlotsPage.jsx:47-70 | messages cleared; without a teacher an error and nothing sent; otherwise the new slot is sent and the answer reported |
| ManageTimeSlots.ManageTimeSlotsPage.Delete | src/pages/ManageTimeSlotsPage.jsx:73-84 | on success every slot with the id is dropped; on failure the list stays and the server's message or the fallback is shown |
| SearchTeacherForm.DayIndexBijection | src/components/SearchTeacherForm.jsx:5-13 | weekday `i` maps to `i`, whatever maps to `i` is weekday `i`, and no other name maps |
| SearchTeacherForm.DayIndexOfWeekdayName | src/components/SearchTeacherForm.jsx:5-13 | the number sent for a day's name is its position in its Sunday-first week |
| SearchTeacherForm.DayIndex | src/components/SearchTeacherForm.jsx:5-13 | nothing exactly for a name that is not a weekday name; otherwise the index in 0..6 of that name in the Sunday-first list |
| SearchTeacherForm.SearchPayload | src/components/SearchTeacherForm.jsx:29-34 | client passed through; a known day name sent as its Sunday-first index, any other as nothing; the time `time + ":00"` for five characters and unchanged otherwise; the count converted by `Number` |
| SearchTeacherForm.SearchPayloadNumber | src/components/SearchTeacherForm.jsx:33 | a count typed as digits is sent as that number |
| TeacherSubjects.HasId | src/pages/TeacherSubjectsPage.jsx:33 | true exactly when some subject has the id |
| TeacherSubjects.Available | src/pages/TeacherSubjectsPage.jsx:32-34 | a subsequence of all subjects holding each one whose id is unassigned, as often as all subjects do |
| TeacherSubjects.AvailableMembership | src/pages/TeacherSubjectsPage.jsx:32-34 | available exactly when among all subjects and no assigned subject has its id |
| TeacherSubjects.AvailableDisjoint | src/pages/TeacherSubjectsPage.jsx:32-34 | no available subject shares an id with an assigned one |
| TeacherSubjects.AssignedNotAvailable | src/pages/TeacherSubjectsPage.jsx:42-43 | after appending a subject no subject with its id is available |
| TeacherSubjects.RemovedIsAvailable | src/pages/TeacherSubjectsPage.jsx:56 | after removing an id no assigned subject has it, and every subject with that id is available again |
| Domain.WithoutId | src/pages/TeacherSubjectsPage.jsx:56 | every subject with the id dropped, the others kept in order and multiplicity |
| TeacherSubjects.TeacherSubjectsPage.constructor | src/pages/TeacherSubjectsPage.jsx:8-12 | no teacher, no subjects, no messages |
| TeacherSubjects.TeacherSubjectsPage.ProfileLoaded | src/pages/TeacherSubjectsPage.jsx:17-19 | the teacher is recorded and the profile's subjects, or none, become the assigned ones |
| TeacherSubjects.TeacherSubjectsPage.ProfileFailed | src/pages/TeacherSubjectsPage.jsx:21 | the profile error is shown |
| TeacherSubjects.TeacherSubjectsPage.SubjectsLoaded | src/pages/TeacherSubjectsPage.jsx:27 | all subjects are replaced |
| TeacherSubjects.TeacherSubjectsPage.SubjectsFailed | src/pages/TeacherSubjectsPage.jsx:28 | the list error is shown |
| TeacherSubjects.TeacherSubjectsPage.Assign | src/pages/TeacherSubjectsPage.jsx:37-48 | nothing without a teacher; on success the first subject with the id is appended and no longer available; on failure the server's message or the fallback |
| TeacherSubjects.TeacherSubjectsPage.Remove | src/pages/TeacherSubjectsPage.jsx:51-61 | nothing without a teacher; on success every assigned subject with the id is dropped |
| CreateSubject.Rename | src/pages/CreateSubjectPage.jsx:88 | same length and ids; subjects with the id get the new name, every other subject is unchanged |
| CreateSubject.RenameIdempotent | src/pages/CreateSubjectPage.jsx:88 | renaming twice to one name is renaming once |
| CreateSubject.RenameThenDelete | src/pages/CreateSubjectPage.jsx:59 | deleting after a rename leaves what deleting at once leaves |
| CreateSubject.CreateErrorMessage | src/pages/CreateSubjectPage.jsx:46-51 | never empty; the server message, else the response body, else the error's message, else the fixed text |
| CreateSubject.CreateSubjectPage.constructor | src/pages/CreateSubjectPage.jsx:12-18 | empty name, no subjects, not editing, no messages |
| CreateSubject.CreateSubjectPage.SubjectsLoaded | src/pages/CreateSubjectPage.jsx:25-28 | the subjects are replaced |
| CreateSubject.CreateSubjectPage.SubjectsFailed | src/pages/CreateSubjectPage.jsx:31 | the list error is shown |
| CreateSubject.CreateSubjectPage.HandleCreate | src/pages/CreateSubjectPage.jsx:36-53 | the name is sent; success appends the created subject and clears the name; failure keeps both and shows the error chain |
| CreateSubject.CreateSubjectPage.HandleDelete | src/pages/CreateSubjectPage.jsx:55-64 | nothing without confirmation; success drops every subject with the id |
| CreateSubject.CreateSubjectPage.StartEdit | src/pages/CreateSubjectPage.jsx:67-72 | editing that subject with its name, both messages cleared |
| CreateSubject.CreateSubjectPage.CancelEdit | src/pages/CreateSubjectPage.jsx:75-78 | not editing, empty edit name |
| CreateSubject.CreateSubjectPage.SaveEdit | src/pages/CreateSubjectPage.jsx:81-95 | a blank name is refused with the list unchanged; otherwise success renames the subject and ends editing |
| VerticalNavbar.ItemsForRole | src/components/VerticalNavbar.jsx:47 | a known role's own list, any other role the defaults |
| VerticalNavbar.ItemsByRole | src/components/VerticalNavbar.jsx:14-32 | a list exactly for "Teacher", "Manager" and "Administrator", each with at least three links and none to `/login` |
| VerticalNavbar.RoleItemsShape | src/components/VerticalNavbar.jsx:14-32 | 4, 4 and 3 links, each role list with the profile and without sign-in; the defaults for any other role |
| VerticalNavbar.NavItemsAfter | src/components/VerticalNavbar.jsx:38-52 | no token or a failed profile gives the defaults; otherwise the role's links |
| VerticalNavbar.Navbar.constructor | src/components/VerticalNavbar.jsx:34 | the defaults are shown first |
| VerticalNavbar.Navbar.Refresh | src/components/VerticalNavbar.jsx:38-52 | the profile is asked for exactly when a token is stored, and the links follow the rule |
| VerticalNavbar.Navbar.Logout | src/components/VerticalNavbar.jsx:54-58 | the token is removed, the defaults shown, and sign-in opened |
| Login.RouteForRoleAsWritten | src/pages/LoginPage.jsx:29-42 | "Teacher" goes to `/mySchedule`, "Manager" to `/createMain`, `/users` is reached exactly by the role "Adm", and every other role, "Administrator" included, goes to `/login` |
| Login.AsWrittenLandsOffTheMenu | src/pages/LoginPage.jsx:36-41 | as written, an administrator lands on sign-in and an "Adm" user on a page neither has a link to |
| Login.RouteForRole | src/pages/LoginPage.jsx:29-42 | teacher to their schedule, manager to schedule creation, administrator to users, anyone else to sign-in |
| Login.LandingRouteIsOnTheMenu | src/pages/LoginPage.jsx:29-42 | every role lands on a page among the links the navigation shows that role |
| Login.LoginErrorMessage | src/pages/LoginPage.jsx:44-45 | a non-empty string body as it is, any other truthy body serialised; an empty string, `null`, `false`, `0` or missing body falls through to the error's message, else the fixed text |
| Login.LoginErrorNeverEmpty | src/pages/LoginPage.jsx:44-45 | the shown message is never empty |
| Login.LoginPage.constructor | src/pages/LoginPage.jsx:14 | no message |
| Login.LoginPage.HandleSubmit | src/pages/LoginPage.jsx:16-47 | the profile is requested only after a successful sign-in, and with the token the sign-in returned, already stored; it stays stored when the profile fails; a profile leads to the landing page the switch as written gives its role |

## Left out

- Requests and storage: every `api` call, the token interceptor and `localStorage` are outside the model. Answers, stored tokens and confirmations are method parameters.
- Concurrency: `Promise.all`, the loading flags, and the race between week navigation and a request still in flight are not modelled. The page has no guard against that race.
- Clock and time zone:
  - Timestamps are whole hours on the local clock. Minutes and seconds of lesson dates are not modelled.
  - Daylight-saving gaps and overlaps, where `setHours` can move by other than four hours, are not modelled.
  - `new Date()` for today is a parameter.
- Display: Russian date headers (`format` with the `ru` locale), week captions, popovers, icons, CSS classes, Russian selector labels and weekday group labels are display text only.
- `Text.ToNumber`: covers optionally signed decimal integers with surrounding whitespace. Fractions, exponents, hexadecimal and `Infinity` are one "not an integer" value.
- `Text.ParseInt`: `parseInt("-0", 10)` gives the number `-0`, which the model's integers write as `0`; the page only compares it with `===`, under which the two are equal.
- `TeacherSubjects.TeacherSubjectsPage.Assign`: requires that some subject of the full list has the id. The page only offers available subjects. When no subject has the id, JavaScript would append `undefined` and then fail when it next computes `available`; the model does not capture this.
- `NewClientSchedule.NewClientSchedulePage.UpdateSlot`: requires an index inside the list. Each row passes its own index; JavaScript would extend the array with holes for an index past the end.
- `ManageTimeSlots.ManageTimeSlotsPage.ProfileLoaded`: requires the slot list to be empty. This holds on the page's only call, the mount effect, which runs before any slots are loaded.
- `VerticalNavbar.ItemsForRole`: role names that are properties of every JavaScript object (`toString`, `constructor`, …) find a function in `itemsByRole`. The model treats them like every other unknown role.
- `CreateSubject.CreateErrorMessage`: a non-text response body is taken as its text. The page would pass the object itself to the alert.
- `Schedule.TeachersFrom`: a `users` field that is truthy but not an array is not modelled.
- Plain `onChange` handlers that copy an input into one state field are not separate members. The exceptions are the hour selectors and the teacher selector, which the grid depends on.
- The strategy selector (`mode`) of the new-client page only names the request path, so it is not modelled.

## Findings

| source | as written | input that shows it | evidently intended | confidence | as-written member | corrected member |
|---|---|---|---|---|---|---|
| src/pages/LoginPage.jsx:36 | the administrator case of the landing-page switch tests the role text "Adm" | a user whose role is "Administrator", the value the comment at line 28 and the navigation (src/components/VerticalNavbar.jsx:27) use, is sent to `/login` after signing in; only a role "Adm" reaches `/users`, and the navigation shows such a user only the sign-in links | the case tests "Administrator", so an administrator lands on `/users`, one of the administrator's own links | medium, not executed | Login.RouteForRoleAsWritten (with Login.AsWrittenLandsOffTheMenu) | Login.RouteForRole (with Login.LandingRouteIsOnTheMenu) |
