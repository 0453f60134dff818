/** The in-memory scheduling store of the lecture-scheduling admin tool:
    seeded instructors, courses that each carry a copy of their batches, and
    the global list of scheduled batches ("schedules"), with the handlers
    that query and change them.

    The store's handlers compute a new collection with filter/map/spread
    and then replace the old one wholesale. Here each new collection is a
    function of the old state (RemoveCourse, EditCourse, AttachBatch,
    PlanBatch, ...), whose properties are stated and proved once, and the
    class Store at the end holds the collections as fields and assigns
    those functions' results to them.

    Conventions: an id is a nat and 0 stands for every falsy id the input
    forms can produce (null, 0, NaN); a string is missing when it is empty.
 */
module Scheduling {
  import opened Seqs

  type Id = nat

  datatype Instructor = Instructor(id: Id, name: string, email: string)

  /** A booked batch. `courseName` and `instructorName` are copies taken
      when the batch is booked. */
  datatype Schedule = Schedule(
    id: Id,
    courseId: Id,
    courseName: string,
    batchName: string,
    instructorId: Id,
    instructorName: string,
    date: string,
    time: string)

  /** A course and its own copy of the batches booked for it. */
  datatype Course = Course(
    id: Id,
    name: string,
    level: string,
    description: string,
    image: string,
    batches: seq<Schedule>)

  datatype CourseForm = CourseForm(name: string, level: string, description: string, image: string)

  datatype BatchForm = BatchForm(courseId: Id, batchName: string, instructorId: Id, date: string, time: string)

  /** The store's alerts, and the TypeError that booking against a
      missing course or instructor record raises. */
  datatype Error = MissingFields | ScheduleConflict | CourseNotFound | InstructorNotFound

  datatype Result<T> = Ok(value: T) | Err(error: Error)

  /** The instructors the store starts with; nothing changes them. */
  const SeedInstructors: seq<Instructor> := [
    Instructor(1, "Dr. Sarah Johnson", "sarah.j@ideamagix.com"),
    Instructor(2, "Prof. Michael Chen", "michael.c@ideamagix.com"),
    Instructor(3, "Dr. Emily Davis", "emily.d@ideamagix.com")
  ]

  // ---------------------------------------------------------------------
  // Ids and the tests the handlers filter and search with
  // ---------------------------------------------------------------------

  function CourseIds(cs: seq<Course>): set<Id> {
    set c | c in cs :: c.id
  }

  function ScheduleIds(ss: seq<Schedule>): set<Id> {
    set s | s in ss :: s.id
  }

  function InstructorIds(ins: seq<Instructor>): set<Id> {
    set i | i in ins :: i.id
  }

  function IsCourse(id: Id): Course -> bool {
    (c: Course) => c.id == id
  }

  function IsInstructor(id: Id): Instructor -> bool {
    (i: Instructor) => i.id == id
  }

  function OtherCourse(id: Id): Course -> bool {
    (c: Course) => c.id != id
  }

  function NotBookedFor(courseId: Id): Schedule -> bool {
    (s: Schedule) => s.courseId != courseId
  }

  function OtherSchedule(id: Id): Schedule -> bool {
    (s: Schedule) => s.id != id
  }

  function TaughtBy(instructorId: Id): Schedule -> bool {
    (s: Schedule) => s.instructorId == instructorId
  }

  function BooksSlot(instructorId: Id, date: string): Schedule -> bool {
    (s: Schedule) => s.instructorId == instructorId && s.date == date
  }

  // ---------------------------------------------------------------------
  // The store's invariant
  // ---------------------------------------------------------------------

  predicate DistinctCourseIds(a: Course, b: Course) { a.id != b.id }

  predicate DistinctScheduleIds(a: Schedule, b: Schedule) { a.id != b.id }

  /** Two bookings clash when they put the same instructor on the same
      date; the time of day plays no part. */
  predicate SlotsDiffer(a: Schedule, b: Schedule) {
    a.instructorId != b.instructorId || a.date != b.date
  }

  /** No instructor is booked twice on one date. */
  ghost predicate NoDoubleBooking(ss: seq<Schedule>) {
    Pairwise(ss, SlotsDiffer)
  }

  /** Every state the store's handlers can reach satisfies this: course
      ids and schedule ids are unique, no instructor is double-booked,
      every schedule belongs to a course that exists, and every batch a
      course holds was booked for that course. */
  ghost predicate Consistent(cs: seq<Course>, ss: seq<Schedule>) {
    && Pairwise(cs, DistinctCourseIds)
    && Pairwise(ss, DistinctScheduleIds)
    && NoDoubleBooking(ss)
    && (forall s :: s in ss ==> s.courseId in CourseIds(cs))
    && BatchesBelong(cs)
  }

  /** Every batch a course holds was booked for that course. */
  ghost predicate BatchesBelong(cs: seq<Course>) {
    forall c, b :: c in cs && b in c.batches ==> b.courseId == c.id
  }

  /** Every batch a course holds is also in the global schedule list. */
  ghost predicate BatchesMirrored(cs: seq<Course>, ss: seq<Schedule>) {
    forall c, b :: c in cs && b in c.batches ==> b in ss
  }

  // ---------------------------------------------------------------------
  // Queries
  // ---------------------------------------------------------------------

  /** checkScheduleConflict: does some booking already hold this
      instructor on this date? */
  function CheckScheduleConflict(schedules: seq<Schedule>, instructorId: Id, date: string): (r: bool)
    ensures r <==> exists k :: 0 <= k < |schedules| &&
                               schedules[k].instructorId == instructorId && schedules[k].date == date
  {
    Any(schedules, BooksSlot(instructorId, date))
  }

  /** getInstructorSchedules: the instructor's bookings, each as often as
      in the global list and in the same order. */
  function GetInstructorSchedules(schedules: seq<Schedule>, instructorId: Id): (r: seq<Schedule>)
    ensures forall s :: s in r <==> s in schedules && s.instructorId == instructorId
    ensures forall s :: multiset(r)[s] == if s.instructorId == instructorId then multiset(schedules)[s] else 0
    ensures IsSubsequence(r, schedules)
  {
    Filter(schedules, TaughtBy(instructorId))
  }

  /** `courses.find(c => c.id === id)`. */
  function FindCourse(cs: seq<Course>, id: Id): (r: Option<Course>)
    ensures r.None? <==> id !in CourseIds(cs)
    ensures r.Some? ==> exists k :: 0 <= k < |cs| && cs[k] == r.value && r.value.id == id &&
                                    forall j :: 0 <= j < k ==> cs[j].id != id
  {
    var r := Find(cs, IsCourse(id));
    assert id in CourseIds(cs) ==> r.Some? by {
      if id in CourseIds(cs) {
        var c :| c in cs && c.id == id;
        var k :| 0 <= k < |cs| && cs[k] == c;
        assert IsCourse(id)(cs[k]);
      }
    }
    r
  }

  /** `instructors.find(i => i.id === id)`. */
  function FindInstructor(ins: seq<Instructor>, id: Id): (r: Option<Instructor>)
    ensures r.None? <==> id !in InstructorIds(ins)
    ensures r.Some? ==> exists k :: 0 <= k < |ins| && ins[k] == r.value && r.value.id == id &&
                                    forall j :: 0 <= j < k ==> ins[j].id != id
  {
    var r := Find(ins, IsInstructor(id));
    assert id in InstructorIds(ins) ==> r.Some? by {
      if id in InstructorIds(ins) {
        var i :| i in ins && i.id == id;
        var k :| 0 <= k < |ins| && ins[k] == i;
        assert IsInstructor(id)(ins[k]);
      }
    }
    r
  }

  // ---------------------------------------------------------------------
  // The new collections the handlers compute
  // ---------------------------------------------------------------------

  predicate CourseFormIncomplete(f: CourseForm) {
    f.name == "" || f.level == "" || f.description == ""
  }

  predicate BatchFormIncomplete(f: BatchForm) {
    f.courseId == 0 || f.batchName == "" || f.instructorId == 0 || f.date == "" || f.time == ""
  }

  /** The course addCourse creates: the form's fields, the given id and no
      batches yet. */
  function NewCourse(id: Id, f: CourseForm): (c: Course)
    ensures c.id == id && c.batches == []
    ensures c.name == f.name && c.level == f.level && c.description == f.description && c.image == f.image
  {
    Course(id, f.name, f.level, f.description, f.image, [])
  }

  /** addCourse in edit mode: every course with the edited id takes the
      form's four fields and keeps its id and its batches; the others stay
      as they are. */
  function EditCourse(cs: seq<Course>, id: Id, f: CourseForm): (r: seq<Course>)
    ensures |r| == |cs|
    ensures forall k :: 0 <= k < |cs| ==> r[k].id == cs[k].id && r[k].batches == cs[k].batches
    ensures forall k :: 0 <= k < |cs| && cs[k].id == id ==>
              r[k].name == f.name && r[k].level == f.level &&
              r[k].description == f.description && r[k].image == f.image
    ensures forall k :: 0 <= k < |cs| && cs[k].id != id ==> r[k] == cs[k]
  {
    seq(|cs|, k requires 0 <= k < |cs| =>
      if cs[k].id == id
      then cs[k].(name := f.name, level := f.level, description := f.description, image := f.image)
      else cs[k])
  }

  /** deleteCourse on the course list: exactly the courses with another
      id, each as often as before, in their order; an id no course has
      changes nothing. */
  function RemoveCourse(cs: seq<Course>, id: Id): (r: seq<Course>)
    ensures forall c :: c in r <==> c in cs && c.id != id
    ensures forall c :: multiset(r)[c] == if c.id == id then 0 else multiset(cs)[c]
    ensures IsSubsequence(r, cs)
    ensures id !in CourseIds(cs) ==> r == cs
  {
    assert id !in CourseIds(cs) ==> Filter(cs, OtherCourse(id)) == cs by {
      if id !in CourseIds(cs) {
        assert forall k :: 0 <= k < |cs| ==> cs[k] in cs;
        FilterKeepsAll(cs, OtherCourse(id));
      }
    }
    Filter(cs, OtherCourse(id))
  }

  /** deleteCourse's cascade: exactly the schedules booked for other
      courses, each as often as before, in their order; no double booking
      appears. */
  function RemoveCourseSchedules(ss: seq<Schedule>, courseId: Id): (r: seq<Schedule>)
    ensures forall s :: s in r <==> s in ss && s.courseId != courseId
    ensures forall s :: multiset(r)[s] == if s.courseId == courseId then 0 else multiset(ss)[s]
    ensures IsSubsequence(r, ss)
    ensures NoDoubleBooking(ss) ==> NoDoubleBooking(r)
  {
    assert NoDoubleBooking(ss) ==> NoDoubleBooking(Filter(ss, NotBookedFor(courseId))) by {
      if NoDoubleBooking(ss) {
        FilterPreservesPairwise(ss, NotBookedFor(courseId), SlotsDiffer);
      }
    }
    Filter(ss, NotBookedFor(courseId))
  }

  /** deleteSchedule: exactly the schedules with this id are gone, the rest
      keep their order; no double booking appears. */
  function RemoveSchedule(ss: seq<Schedule>, id: Id): (r: seq<Schedule>)
    ensures forall s :: multiset(r)[s] == if s.id == id then 0 else multiset(ss)[s]
    ensures IsSubsequence(r, ss)
    ensures NoDoubleBooking(ss) ==> NoDoubleBooking(r)
  {
    assert NoDoubleBooking(ss) ==> NoDoubleBooking(Filter(ss, OtherSchedule(id))) by {
      if NoDoubleBooking(ss) {
        FilterPreservesPairwise(ss, OtherSchedule(id), SlotsDiffer);
      }
    }
    Filter(ss, OtherSchedule(id))
  }

  /** addBatch's validation, conflict check and lookups, in the handler's
      order: a missing field, then an existing booking of the instructor on
      that date, then a course and then an instructor that cannot be found.
      On success, the booking to record. */
  function PlanBatch(cs: seq<Course>, ins: seq<Instructor>, ss: seq<Schedule>, f: BatchForm, newId: Id): (r: Result<Schedule>)
    ensures r == Err(MissingFields) <==> BatchFormIncomplete(f)
    ensures r == Err(ScheduleConflict) <==>
              !BatchFormIncomplete(f) && CheckScheduleConflict(ss, f.instructorId, f.date)
    ensures r == Err(CourseNotFound) <==>
              !BatchFormIncomplete(f) && !CheckScheduleConflict(ss, f.instructorId, f.date) &&
              f.courseId !in CourseIds(cs)
    ensures r == Err(InstructorNotFound) <==>
              !BatchFormIncomplete(f) && !CheckScheduleConflict(ss, f.instructorId, f.date) &&
              f.courseId in CourseIds(cs) && f.instructorId !in InstructorIds(ins)
    ensures r.Ok? ==>
              && r.value.id == newId
              && r.value.courseId == f.courseId
              && r.value.courseName == FindCourse(cs, f.courseId).value.name
              && r.value.batchName == f.batchName
              && r.value.instructorId == f.instructorId
              && r.value.instructorName == FindInstructor(ins, f.instructorId).value.name
              && r.value.date == f.date
              && r.value.time == f.time
  {
    if BatchFormIncomplete(f) then Err(MissingFields)
    else if CheckScheduleConflict(ss, f.instructorId, f.date) then Err(ScheduleConflict)
    else
      var course := FindCourse(cs, f.courseId);
      var instructor := FindInstructor(ins, f.instructorId);
      if course.None? then Err(CourseNotFound)
      else if instructor.None? then Err(InstructorNotFound)
      else Ok(Schedule(newId, f.courseId, course.value.name, f.batchName,
                       f.instructorId, instructor.value.name, f.date, f.time))
  }

  /** addBatch on the course list: every course with the booked course id
      gets the very same schedule appended to its batches and nothing else
      of it changes; the other courses stay as they are. */
  function AttachBatch(cs: seq<Course>, courseId: Id, s: Schedule): (r: seq<Course>)
    ensures |r| == |cs|
    ensures forall k :: 0 <= k < |cs| && cs[k].id == courseId ==>
              r[k].batches == cs[k].batches + [s] && r[k].(batches := cs[k].batches) == cs[k]
    ensures forall k :: 0 <= k < |cs| && cs[k].id != courseId ==> r[k] == cs[k]
  {
    seq(|cs|, k requires 0 <= k < |cs| =>
      if cs[k].id == courseId then cs[k].(batches := cs[k].batches + [s]) else cs[k])
  }

  // ---------------------------------------------------------------------
  // Lemmas about the handlers
  // ---------------------------------------------------------------------

  /** Two course lists with the same ids position by position have the
      same id set and the same uniqueness. */
  lemma SameIdsAt(a: seq<Course>, b: seq<Course>)
    requires |a| == |b|
    requires forall k :: 0 <= k < |a| ==> a[k].id == b[k].id
    ensures CourseIds(a) == CourseIds(b)
    ensures Pairwise(a, DistinctCourseIds) ==> Pairwise(b, DistinctCourseIds)
  {
    forall x | x in CourseIds(a) ensures x in CourseIds(b) {
      var c :| c in a && c.id == x;
      var k :| 0 <= k < |a| && a[k] == c;
      assert b[k] in b;
    }
    forall x | x in CourseIds(b) ensures x in CourseIds(a) {
      var c :| c in b && c.id == x;
      var k :| 0 <= k < |b| && b[k] == c;
      assert a[k] in a;
    }
  }

  /** With unique course ids, booking for an existing course changes
      exactly one course: the owner. */
  lemma AttachBatchTouchesOneCourse(cs: seq<Course>, courseId: Id, s: Schedule)
    requires Pairwise(cs, DistinctCourseIds)
    requires courseId in CourseIds(cs)
    ensures exists k :: 0 <= k < |cs| && cs[k].id == courseId &&
                        AttachBatch(cs, courseId, s)[k].batches == cs[k].batches + [s] &&
                        forall j :: 0 <= j < |cs| && j != k ==> AttachBatch(cs, courseId, s)[j] == cs[j]
  {
    var c :| c in cs && c.id == courseId;
    var k :| 0 <= k < |cs| && cs[k] == c;
    forall j | 0 <= j < |cs| && j != k ensures cs[j].id != courseId {
      if j < k { assert DistinctCourseIds(cs[j], cs[k]); }
      else { assert DistinctCourseIds(cs[k], cs[j]); }
    }
  }

  /** A successful booking never double-books: the conflict check has
      ruled out every existing booking of the instructor on that date. */
  lemma BookingKeepsNoDoubleBooking(cs: seq<Course>, ins: seq<Instructor>, ss: seq<Schedule>, f: BatchForm, newId: Id)
    requires NoDoubleBooking(ss)
    requires PlanBatch(cs, ins, ss, f, newId).Ok?
    ensures NoDoubleBooking(ss + [PlanBatch(cs, ins, ss, f, newId).value])
  {
    var s := PlanBatch(cs, ins, ss, f, newId).value;
    forall x | x in ss ensures SlotsDiffer(x, s) {
      var k :| 0 <= k < |ss| && ss[k] == x;
    }
    PairwiseSnoc(ss, s, SlotsDiffer);
  }

  /** Appending a batch booked for the course keeps every batch with the
      course it was booked for. */
  lemma AttachBatchKeepsBatchesBelong(cs: seq<Course>, s: Schedule)
    requires BatchesBelong(cs)
    ensures BatchesBelong(AttachBatch(cs, s.courseId, s))
  {
    var cs' := AttachBatch(cs, s.courseId, s);
    forall c, b | c in cs' && b in c.batches ensures b.courseId == c.id {
      var k :| 0 <= k < |cs'| && cs'[k] == c;
      assert cs[k] in cs;
    }
  }

  /** A successful booking keeps the invariant: the conflict check rules
      out a double booking, the course lookup ties the schedule to an
      existing course, and the fresh id keeps schedule ids unique. */
  lemma AddBatchKeepsConsistent(cs: seq<Course>, ins: seq<Instructor>, ss: seq<Schedule>, f: BatchForm, newId: Id)
    requires Consistent(cs, ss)
    requires newId !in ScheduleIds(ss)
    requires PlanBatch(cs, ins, ss, f, newId).Ok?
    ensures Consistent(AttachBatch(cs, f.courseId, PlanBatch(cs, ins, ss, f, newId).value),
                       ss + [PlanBatch(cs, ins, ss, f, newId).value])
  {
    var s := PlanBatch(cs, ins, ss, f, newId).value;
    SameIdsAt(cs, AttachBatch(cs, f.courseId, s));
    BookingKeepsNoDoubleBooking(cs, ins, ss, f, newId);
    AttachBatchKeepsBatchesBelong(cs, s);
    forall x | x in ss ensures DistinctScheduleIds(x, s) {
      assert x.id in ScheduleIds(ss);
    }
    PairwiseSnoc(ss, s, DistinctScheduleIds);
  }

  /** Creating a course with a fresh id keeps the invariant. */
  lemma CreateCourseKeepsConsistent(cs: seq<Course>, ss: seq<Schedule>, newId: Id, f: CourseForm)
    requires Consistent(cs, ss)
    requires newId !in CourseIds(cs)
    ensures Consistent(cs + [NewCourse(newId, f)], ss)
  {
    var c := NewCourse(newId, f);
    forall x | x in cs ensures DistinctCourseIds(x, c) {
      assert x.id in CourseIds(cs);
    }
    PairwiseSnoc(cs, c, DistinctCourseIds);
    assert CourseIds(cs) <= CourseIds(cs + [c]) by {
      forall x | x in CourseIds(cs) ensures x in CourseIds(cs + [c]) {
        var d :| d in cs && d.id == x;
        assert d in cs + [c];
      }
    }
  }

  /** Editing a course keeps the invariant: ids and batches stay put. */
  lemma EditCourseKeepsConsistent(cs: seq<Course>, ss: seq<Schedule>, id: Id, f: CourseForm)
    requires Consistent(cs, ss)
    ensures Consistent(EditCourse(cs, id, f), ss)
  {
    var cs' := EditCourse(cs, id, f);
    SameIdsAt(cs, cs');
    forall c, b | c in cs' && b in c.batches ensures b.courseId == c.id {
      var k :| 0 <= k < |cs'| && cs'[k] == c;
      assert cs[k] in cs;
    }
  }

  /** Deleting a course and its schedules keeps the invariant: what is
      left of the schedules only names courses that are left. */
  lemma DeleteCourseKeepsConsistent(cs: seq<Course>, ss: seq<Schedule>, id: Id)
    requires Consistent(cs, ss)
    ensures Consistent(RemoveCourse(cs, id), RemoveCourseSchedules(ss, id))
  {
    FilterPreservesPairwise(cs, OtherCourse(id), DistinctCourseIds);
    FilterPreservesPairwise(ss, NotBookedFor(id), DistinctScheduleIds);
    var cs', ss' := RemoveCourse(cs, id), RemoveCourseSchedules(ss, id);
    forall s | s in ss' ensures s.courseId in CourseIds(cs') {
      var c :| c in cs && c.id == s.courseId;
      assert c in cs';
    }
  }

  /** Deleting a schedule keeps the invariant. */
  lemma DeleteScheduleKeepsConsistent(cs: seq<Course>, ss: seq<Schedule>, id: Id)
    requires Consistent(cs, ss)
    ensures Consistent(cs, RemoveSchedule(ss, id))
  {
    FilterPreservesPairwise(ss, OtherSchedule(id), DistinctScheduleIds);
    forall s | s in RemoveSchedule(ss, id) ensures s in ss {
      assert multiset(RemoveSchedule(ss, id))[s] > 0;
    }
  }

  /** In a consistent store, deleting a course nobody has is a no-op: no
      schedule can name it. */
  lemma DeleteUnknownCourseIsNoOp(cs: seq<Course>, ss: seq<Schedule>, id: Id)
    requires Consistent(cs, ss)
    requires id !in CourseIds(cs)
    ensures RemoveCourse(cs, id) == cs
    ensures RemoveCourseSchedules(ss, id) == ss
  {
    forall k | 0 <= k < |ss| ensures NotBookedFor(id)(ss[k]) {
      assert ss[k] in ss;
    }
    FilterKeepsAll(ss, NotBookedFor(id));
  }

  /** Once a booking succeeds, any complete form for the same instructor
      and date is turned away with a conflict, whatever its course, batch
      name or time. */
  lemma BookedSlotConflicts(cs: seq<Course>, ins: seq<Instructor>, ss: seq<Schedule>, f: BatchForm, newId: Id,
                            g: BatchForm, otherId: Id)
    requires PlanBatch(cs, ins, ss, f, newId).Ok?
    requires !BatchFormIncomplete(g)
    requires g.instructorId == f.instructorId && g.date == f.date
    ensures PlanBatch(AttachBatch(cs, f.courseId, PlanBatch(cs, ins, ss, f, newId).value), ins,
                      ss + [PlanBatch(cs, ins, ss, f, newId).value], g, otherId) == Err(ScheduleConflict)
  {
    var ss' := ss + [PlanBatch(cs, ins, ss, f, newId).value];
    assert ss'[|ss|].instructorId == g.instructorId && ss'[|ss|].date == g.date;
  }

  /** A booking shows up at the end of its instructor's list, and leaves
      every other instructor's list as it was. */
  lemma {:induction false} InstructorSchedulesAfterBooking(ss: seq<Schedule>, s: Schedule, instructorId: Id)
    ensures GetInstructorSchedules(ss + [s], instructorId) ==
            GetInstructorSchedules(ss, instructorId) + (if s.instructorId == instructorId then [s] else [])
  {
    FilterAppend(ss, [s], TaughtBy(instructorId));
    assert [s][1..] == [];
  }

  /** A successful booking keeps every course's batches mirrored in the
      global list: the same schedule value goes to both. */
  lemma AddBatchKeepsMirror(cs: seq<Course>, ss: seq<Schedule>, courseId: Id, s: Schedule)
    requires BatchesMirrored(cs, ss)
    ensures BatchesMirrored(AttachBatch(cs, courseId, s), ss + [s])
  {
    var cs' := AttachBatch(cs, courseId, s);
    forall c, b | c in cs' && b in c.batches ensures b in ss + [s] {
      var k :| 0 <= k < |cs'| && cs'[k] == c;
      assert cs[k] in cs;
      if cs[k].id == courseId && b !in cs[k].batches {
        assert b == s;
      }
    }
  }

  /** deleteSchedule removes a booking from the global list only: a course
      that holds the booking keeps its copy, so the batches are no longer
      mirrored. */
  lemma DeleteScheduleLeavesStaleCopy(cs: seq<Course>, ss: seq<Schedule>, c: Course, b: Schedule)
    requires c in cs && b in c.batches
    ensures b !in RemoveSchedule(ss, b.id)
    ensures !BatchesMirrored(cs, RemoveSchedule(ss, b.id))
  {
    assert multiset(RemoveSchedule(ss, b.id))[b] == 0;
  }

  // ---------------------------------------------------------------------
  // The store
  // ---------------------------------------------------------------------

  class Store {
    const instructors: seq<Instructor>
    var courses: seq<Course>
    var schedules: seq<Schedule>

    ghost predicate Valid()
      reads this
    {
      Consistent(courses, schedules)
    }

    constructor ()
      ensures Valid()
      ensures instructors == SeedInstructors && courses == [] && schedules == []
    {
      instructors := SeedInstructors;
      courses := [];
      schedules := [];
    }

    /** addCourse: rejects a form missing its name, level or description;
        in edit mode (an id given) updates the edited course in place,
        otherwise appends a new course under the fresh id. */
    method AddCourse(form: CourseForm, editing: Option<Id>, newId: Id) returns (r: Result<()>)
      requires editing.None? ==> newId !in CourseIds(courses)
      modifies this
      ensures old(Valid()) ==> Valid()
      ensures r == if CourseFormIncomplete(form) then Err(MissingFields) else Ok(())
      ensures courses == if CourseFormIncomplete(form) then old(courses)
                         else if editing.Some? then EditCourse(old(courses), editing.value, form)
                         else old(courses) + [NewCourse(newId, form)]
      ensures schedules == old(schedules)
    {
      if CourseFormIncomplete(form) {
        return Err(MissingFields);
      }
      if editing.Some? {
        if Valid() { EditCourseKeepsConsistent(courses, schedules, editing.value, form); }
        courses := EditCourse(courses, editing.value, form);
      } else {
        if Valid() { CreateCourseKeepsConsistent(courses, schedules, newId, form); }
        courses := courses + [NewCourse(newId, form)];
      }
      r := Ok(());
    }

    /** deleteCourse: once confirmed, removes the course and every
        schedule booked for it; unconfirmed, changes nothing. */
    method DeleteCourse(courseId: Id, confirmed: bool)
      modifies this
      ensures old(Valid()) ==> Valid()
      ensures courses == if confirmed then RemoveCourse(old(courses), courseId) else old(courses)
      ensures schedules == if confirmed then RemoveCourseSchedules(old(schedules), courseId) else old(schedules)
    {
      if confirmed {
        if Valid() { DeleteCourseKeepsConsistent(courses, schedules, courseId); }
        courses := RemoveCourse(courses, courseId);
        schedules := RemoveCourseSchedules(schedules, courseId);
      }
    }

    /** addBatch: validates the form, runs the conflict check, looks up
        the course and the instructor, and on success writes the one new
        schedule both to the global list and to its course's batches. A
        rejected call changes nothing. */
    method AddBatch(form: BatchForm, newId: Id) returns (r: Result<Schedule>)
      requires newId !in ScheduleIds(schedules)
      modifies this
      ensures old(Valid()) ==> Valid()
      ensures r == PlanBatch(old(courses), instructors, old(schedules), form, newId)
      ensures r.Err? ==> courses == old(courses) && schedules == old(schedules)
      ensures r.Ok? ==> schedules == old(schedules) + [r.value] &&
                        courses == AttachBatch(old(courses), form.courseId, r.value)
    {
      if BatchFormIncomplete(form) {
        return Err(MissingFields);
      }
      if CheckScheduleConflict(schedules, form.instructorId, form.date) {
        return Err(ScheduleConflict);
      }
      var course := FindCourse(courses, form.courseId);
      var instructor := FindInstructor(instructors, form.instructorId);
      if course.None? {
        return Err(CourseNotFound);
      }
      if instructor.None? {
        return Err(InstructorNotFound);
      }
      var s := Schedule(newId, form.courseId, course.value.name, form.batchName,
                        form.instructorId, instructor.value.name, form.date, form.time);
      if Valid() { AddBatchKeepsConsistent(courses, instructors, schedules, form, newId); }
      schedules := schedules + [s];
      courses := AttachBatch(courses, form.courseId, s);
      r := Ok(s);
    }

    /** deleteSchedule: once confirmed, removes the schedule from the
        global list; the courses, and the copies in their batches, stay as
        they are. */
    method DeleteSchedule(scheduleId: Id, confirmed: bool)
      modifies this
      ensures old(Valid()) ==> Valid()
      ensures schedules == if confirmed then RemoveSchedule(old(schedules), scheduleId) else old(schedules)
      ensures courses == old(courses)
    {
      if confirmed {
        if Valid() { DeleteScheduleKeepsConsistent(courses, schedules, scheduleId); }
        schedules := RemoveSchedule(schedules, scheduleId);
      }
    }
  }

  /** The double-booking scenario: booking instructor 1 for a new course
      on 2024-05-01 succeeds; a second booking of instructor 1 on that date,
      at another time, is turned away; one on 2024-05-02 succeeds. */
  lemma DoubleBookingScenario()
    ensures
      var cs := [NewCourse(100, CourseForm("Intro to X", "Beginner", "desc", ""))];
      var first := PlanBatch(cs, SeedInstructors, [], BatchForm(100, "Batch A", 1, "2024-05-01", "10:00"), 200);
      && first.Ok?
      && var cs1, ss1 := AttachBatch(cs, 100, first.value), [first.value];
         && PlanBatch(cs1, SeedInstructors, ss1, BatchForm(100, "Batch B", 1, "2024-05-01", "14:00"), 201)
            == Err(ScheduleConflict)
         && PlanBatch(cs1, SeedInstructors, ss1, BatchForm(100, "Batch A", 1, "2024-05-02", "10:00"), 202).Ok?
  {
    var cs := [NewCourse(100, CourseForm("Intro to X", "Beginner", "desc", ""))];
    assert cs[0].id == 100 && SeedInstructors[0].id == 1;
    var first := PlanBatch(cs, SeedInstructors, [], BatchForm(100, "Batch A", 1, "2024-05-01", "10:00"), 200);
    var cs1, ss1 := AttachBatch(cs, 100, first.value), [first.value];
    assert cs1[0].id == 100;
    assert CheckScheduleConflict(ss1, 1, "2024-05-01");
    assert "2024-05-01"[9] != "2024-05-02"[9];
    assert !CheckScheduleConflict(ss1, 1, "2024-05-02");
  }

}
