# Lecture scheduling store

A Dafny model of the in-memory scheduling store of a lecture-scheduling admin
tool. The store keeps three collections, held in React state inside
`LectureSchedulingModule`:

- the instructors, seeded with three records and never changed;
- the courses; each course keeps its own copy of the batches booked for it;
- the schedules, the global list of booked batches ("lectures").

Its handlers are `checkScheduleConflict`, `addCourse` (create and edit),
`deleteCourse`, `addBatch`, `deleteSchedule` and `getInstructorSchedules`.
The one invariant the tool enforces is that no instructor is booked twice on
the same date. The time of day plays no part in this.

Layout:

- `seqs.dfy`, module `Seqs`, models the JavaScript array methods the handlers
  are written with. `filter` becomes `Filter`, `some` becomes `Any` and
  `find` becomes `Find`. The module also defines the order and pairwise
  predicates the invariants are stated with.
- `scheduling.dfy`, module `Scheduling`, holds the records as datatypes. Each
  handler computes its new collection as a pure function of the old state:
  `EditCourse`, `NewCourse`, `RemoveCourse`, `RemoveCourseSchedules`,
  `PlanBatch`, `AttachBatch` and `RemoveSchedule`. The store invariant
  `Consistent` is proved preserved by each handler. The class `Store` has a
  `const instructors` field and `seq` fields `courses` and `schedules`. Its
  methods mirror the handlers and assign those functions' results to the
  fields, just as the handlers call `setCourses` and `setSchedules`.

How the inputs are modelled:

- **Ids.** An id is a `nat`. The value 0 stands for every falsy id the forms
  can produce: `null`, `0`, and `NaN` from `parseInt`.
- **Missing fields.** A text field counts as missing when it is empty. This
  is the source's falsy test.
- **Wall-clock ids.** The ids taken from the clock (`Date.now()`) become a
  `newId` parameter. A precondition says the id is fresh in its collection.
- **Confirmation.** The confirmation dialog becomes a `confirmed` flag. When
  it is false the call changes nothing.
- **Alerts.** The alerts become `Err` results.
- **Edit mode.** The course being edited is passed as `Option<Id>`.
- **Failed lookups.** When `addBatch` cannot find the course or the
  instructor, the source throws a TypeError on `course.name` or
  `instructor.name`, before any state is written. The model returns an
  explicit error instead: `CourseNotFound` or `InstructorNotFound`, with
  nothing changed. The course is dereferenced first, so `CourseNotFound`
  takes precedence.

Behaviour modelled as the code has it, where one would expect the course's
copy of a batch to be retracted too, a missing edited course to be
reported, or an instructor's schedules to come back sorted:

- `deleteSchedule` removes the schedule from the global list only. The copy
  in its course's `batches` stays. `DeleteScheduleLeavesStaleCopy` shows
  that the batches are then no longer mirrored in the global list.
  `AddBatchKeepsMirror` shows that booking keeps them mirrored.
- Editing a course whose id is no longer in the list raises no error. The
  `map` simply changes nothing.
- `getInstructorSchedules` returns the schedules in list order. It does not
  sort them. Sorting by date happens while rendering, which is not part of
  the model (see "## Left out").
- Editing a course does not refresh the `courseName` copies held in
  schedules.

The store methods promise `old(Valid()) ==> Valid()`, and the constructor
establishes `Valid()`. So every state reachable from the seeded store has
unique ids and no double booking. Every schedule in such a state belongs to
an existing course, and every batch a course holds was booked for it.
`DoubleBookingScenario` works through one booking, a rejected same-day
booking for the same instructor, then a next-day booking.

## Model

| member | source | states |
|---|---|---|
| `Seqs.Any` | src/App.js:87-89 | `some` is true exactly when some element passes the test |
| `Seqs.Filter` | src/App.js:177 | `filter` keeps exactly the passing elements, each as often as before, in their original order (a subsequence) |
| `Seqs.Find` | src/App.js:145-146 | `find` returns `None` iff no element passes, otherwise the first element that passes |
| `Seqs.FilterKeepsAll` | src/App.js:129-130 | filtering with a test every element passes returns the list unchanged |
| `Seqs.FilterAppend` | src/App.js:177 | filtering distributes over concatenation |
| `Seqs.FilterPreservesPairwise` | src/App.js:130 | any relation between every ordered pair of elements still holds after `filter` |
| `Scheduling.CheckScheduleConflict` | src/App.js:86-90 | true iff some schedule has the given instructor id and the given date; the time is not an input |
| `Scheduling.GetInstructorSchedules` | src/App.js:176-178 | exactly the instructor's schedules, with their multiplicities, as an order-preserving subsequence of the schedule list |
| `Scheduling.FindCourse` | src/App.js:145 | `None` iff no course has the id, otherwise the first course with that id |
| `Scheduling.FindInstructor` | src/App.js:146 | `None` iff no instructor has the id, otherwise the first instructor with that id |
| `Scheduling.NewCourse` | src/App.js:104-108 | a created course has the given id, the form's four fields and no batches |
| `Scheduling.EditCourse` | src/App.js:98-101 | keeps the list length and every course's id and batches; the edited course takes the form's name, level, description and image; every other course is unchanged |
| `Scheduling.RemoveCourse` | src/App.js:129 | the courses left are exactly those with another id, each as often as before, in their original order; an unknown id leaves the list unchanged |
| `Scheduling.RemoveCourseSchedules` | src/App.js:130 | the schedules left are exactly those of other courses, each as often as before, in their original order; no double booking is introduced |
| `Scheduling.RemoveSchedule` | src/App.js:172 | removes exactly the schedules with the id, keeping the others' multiplicities and order; no double booking is introduced |
| `Scheduling.PlanBatch` | src/App.js:134-157 | checks in the handler's order: a missing field, then a conflict, then a missing course, then a missing instructor, each an iff; on success the schedule has the new id, copies the form's fields, and takes the names of the looked-up course and instructor |
| `Scheduling.AttachBatch` | src/App.js:160-164 | every course with the booked course id gets the identical schedule appended to its batches, and nothing else about it changes; every other course is unchanged; the list length is kept |
| `Scheduling.AttachBatchTouchesOneCourse` | src/App.js:160-164 | with unique course ids and an existing owner, exactly one course changes: the owner, with one more batch |
| `Scheduling.BookingKeepsNoDoubleBooking` | src/App.js:140-159 | if no instructor was double-booked before, a successful booking appended to the schedules keeps it so |
| `Scheduling.AttachBatchKeepsBatchesBelong` | src/App.js:160-164 | appending a batch to its own course keeps every batch with the course it was booked for |
| `Scheduling.AddBatchKeepsConsistent` | src/App.js:134-168 | a successful booking with a fresh id preserves `Consistent`: unique ids, no double booking, schedules name existing courses, batches belong to their course |
| `Scheduling.CreateCourseKeepsConsistent` | src/App.js:103-110 | appending a new course with a fresh id preserves `Consistent` |
| `Scheduling.EditCourseKeepsConsistent` | src/App.js:98-101 | the edit path preserves `Consistent` |
| `Scheduling.DeleteCourseKeepsConsistent` | src/App.js:127-132 | the delete and its cascade preserve `Consistent`, including no double booking and every remaining schedule naming a remaining course |
| `Scheduling.DeleteScheduleKeepsConsistent` | src/App.js:170-174 | removing a schedule preserves `Consistent` |
| `Scheduling.DeleteUnknownCourseIsNoOp` | src/App.js:127-132 | in a consistent store, deleting a course id that no course has leaves both courses and schedules unchanged |
| `Scheduling.BookedSlotConflicts` | src/App.js:140-143 | after a successful booking, any complete form for the same instructor and date is rejected with `ScheduleConflict`, whatever its course, batch name, time or id |
| `Scheduling.InstructorSchedulesAfterBooking` | src/App.js:176-178 | after a booking, the instructor's list gains that booking at its end; every other instructor's list is unchanged |
| `Scheduling.AddBatchKeepsMirror` | src/App.js:159-164 | booking writes the same schedule to both places, so every batch a course holds stays in the global list |
| `Scheduling.DeleteScheduleLeavesStaleCopy` | src/App.js:170-174 | when a course holds a batch, deleting that batch's schedule removes it from the global list but leaves the course's copy, so the mirror is broken |
| `Scheduling.DoubleBookingScenario` | src/App.js:134-168 | instructor 1 booked on 2024-05-01 succeeds; another booking for instructor 1 on 2024-05-01 at a different time is a conflict; one on 2024-05-02 succeeds |
| `Scheduling.Store.constructor` | src/App.js:22-29 | the store starts with the three seeded instructors, no courses and no schedules, and satisfies `Valid()` |
| `Scheduling.Store.AddCourse` | src/App.js:92-114 | an incomplete form returns `MissingFields` and leaves the courses unchanged; the edit path replaces the courses with `EditCourse`; otherwise exactly one course with empty batches is appended; schedules are untouched; `Valid()` is preserved |
| `Scheduling.Store.DeleteCourse` | src/App.js:127-132 | when confirmed, the result is `RemoveCourse` on the courses and `RemoveCourseSchedules` on the schedules; when not confirmed, nothing changes; `Valid()` is preserved |
| `Scheduling.Store.AddBatch` | src/App.js:134-168 | returns `PlanBatch` of the old state; a rejected call changes neither collection; on success exactly one schedule is appended to the schedules and `AttachBatch` is applied to the courses; `Valid()` is preserved |
| `Scheduling.Store.DeleteSchedule` | src/App.js:170-174 | when confirmed, the schedules become `RemoveSchedule`, otherwise nothing changes; the courses, and the batch copies inside them, are never touched; `Valid()` is preserved |

## Left out

- **Rendering and form state.** The JSX rendering, the form and visibility
  state (`courseForm`, `batchForm`, `showCourseForm`, `showBatchForm`,
  `selectedCourse`) and `editCourse` are left out. These are presentation:
  `editCourse` only copies a course into the form. Clearing `editingCourse`
  after an edit is also left out, because the model takes edit mode as a
  parameter.
- **Authentication.** `MOCK_USERS`, `handleLogin`, `handleLogout` and
  src/login.js are left out. They compare strings against hard-coded
  credentials and toggle panels, and none of the store's logic depends on
  them.
- **Dialogs.** `alert` and `window.confirm` are user-interface side effects.
  They become error results and a `confirmed` flag.
- **Clock ids.** `Date.now()` reads the wall clock. It is replaced by an
  injected fresh id.
- **Render-time sorting and date formatting.** Both sorts call
  `Array.prototype.sort`, which works in place. The admin table sorts the
  stored `schedules` array itself (src/App.js:537), so each render of that
  table reorders the store's schedule list by date. The instructor panel
  sorts a filtered copy (src/App.js:624), which leaves the store alone.
  Both compare `new Date(...)` values by floating-point subtraction.
  `toLocaleDateString` formats the dates. All of this depends on JavaScript
  date parsing and floating point, so the model leaves it out. Dates are
  kept as opaque strings compared for equality, as `===` compares them.
  The model's order facts therefore describe the schedule list as the
  handlers leave it, between renders. These are: "in their original order"
  for `RemoveCourseSchedules` and `RemoveSchedule`, "at its end" for
  `InstructorSchedulesAfterBooking`, and the append in `Store.AddBatch`.
  A render of the admin table may reorder the list in between. Membership,
  multiplicities and the no-double-booking invariant do not depend on
  order, so they hold either way.
- **The hard-coded instructor view.** The call `getInstructorSchedules(1)`
  in the instructor panel is presentation wiring, not store logic.
- **`setInstructors`.** It is declared but never called, so the instructors
  are a `const` field.
- **The `c.batches || []` fallback.** Every course the store creates has a
  batch list, so the fallback never applies. The model has no "absent" list.
