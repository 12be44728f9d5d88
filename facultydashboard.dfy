/** The faculty dashboard of frontend/src/pages/FacultyDashboard.js: the option lists drawn from
    the loaded records, the two batch dialogs (fetch a class, edit one student at a time, submit),
    the student list filter and the present/absent split. String collation (localeCompare) is the
    page's abstract `collate`; network replies are parameters of the handlers. */
module FacultyDashboard {
  import opened Common
  import opened Seqs
  import opened Sorting
  import opened JsObjects
  import opened Records
  import Server

  const SelectClassToast: string := "Please select both year and section."
  const FetchFailedToast: string := "Failed to fetch students."
  const NoStudentsForAttendanceToast: string := "No students to mark attendance for."
  const NoSubjectToast: string := "Please enter a subject."
  const AttendanceFailedToast: string := "Failed to submit attendance."
  const NoStudentsForMarksToast: string := "No students to add marks for."
  const ExamDetailsToast: string := "Please fill in all exam details."
  const NoMarksToast: string := "Please enter marks for at least one student."
  const MarksFailedToast: string := "Failed to submit marks."
  const LoadFailedToast: string := "Failed to load data"
  const DefaultMaxMarks: string := "100"

  /** The success toasts, which count the lines sent. */
  const AttendanceSubmittedPrefix: string := "Attendance submitted for "
  const MarksAddedPrefix: string := "Marks added for "
  const StudentsSuffix: string := " students."

  function AttendanceSubmittedToast(n: nat): string
  {
    AttendanceSubmittedPrefix + NatToDecimal(n) + StudentsSuffix
  }

  function MarksAddedToast(n: nat): string
  {
    MarksAddedPrefix + NatToDecimal(n) + StudentsSuffix
  }

  // ---------------------------------------------------------------- option lists

  /** `[...new Set(values.filter(Boolean))]`: the non-empty values, once each, in order of first
      occurrence. */
  function UniqueNonEmpty(values: seq<string>): (r: seq<string>)
    ensures NoDuplicates(r)
    ensures forall x :: x in r <==> x in values && x != ""
  {
    Distinct(Filter(values, (x: string) => x != ""))
  }

  /** The order of the option list is that of first occurrence among the non-empty values. */
  lemma UniqueNonEmptyOrder(values: seq<string>)
    ensures var r := UniqueNonEmpty(values); var kept := Filter(values, (x: string) => x != "");
      forall i, j :: 0 <= i < j < |r| ==> IndexOf(kept, r[i]) < IndexOf(kept, r[j])
  {
    DistinctFirstOccurrenceOrder(Filter(values, (x: string) => x != ""));
  }

  /** `prev || (options.length > 0 ? options[0] : "")`. */
  function KeepOrFirst(previous: string, options: seq<string>): (r: string)
    ensures previous != "" ==> r == previous
    ensures previous == "" && options != [] ==> r == options[0]
    ensures previous == "" && options == [] ==> r == ""
  {
    if previous != "" then previous else if options != [] then options[0] else ""
  }

  /** A selection made from an option list is one of its values, unless the list is empty. */
  lemma SelectionIsAnOption(values: seq<string>)
    ensures var options := UniqueNonEmpty(values);
      KeepOrFirst("", options) == "" <==> forall x :: x in values ==> x == ""
    ensures var options := UniqueNonEmpty(values);
      KeepOrFirst("", options) != "" ==> KeepOrFirst("", options) in values
  {
    var options := UniqueNonEmpty(values);
    if options != [] {
      assert options[0] in options;
    }
    if exists x :: x in values && x != "" {
      var x :| x in values && x != "";
      assert x in options;
    }
  }

  // ---------------------------------------------------------------- students

  function Ids(students: seq<User>): (r: seq<string>)
    ensures |r| == |students| && forall i :: 0 <= i < |r| ==> r[i] == students[i].id
  {
    seq(|students|, i requires 0 <= i < |students| => students[i].id)
  }

  /** `(s.roll_number || "")`, the key both sorts compare. */
  function RollKey(s: User): string
  {
    OrEmpty(s.base.rollNumber)
  }

  predicate YearMatches(yearFilter: string, s: User)
  {
    yearFilter == "" || yearFilter == "all" || OptIntToString(s.base.year) == yearFilter
  }

  predicate SectionMatches(sectionFilter: string, s: User)
  {
    sectionFilter == "" || sectionFilter == "all" || s.base.section == Some(sectionFilter)
  }

  /** An empty search keeps everyone; otherwise the roll number must contain it, ignoring case,
      and a student without a roll number never matches. */
  predicate RollMatches(search: string, s: User)
  {
    search == "" || (s.base.rollNumber.Some? && Includes(ToLower(s.base.rollNumber.value), ToLower(search)))
  }

  function KeepStudent(yearFilter: string, sectionFilter: string, search: string): User -> bool
  {
    (s: User) => YearMatches(yearFilter, s) && SectionMatches(sectionFilter, s) && RollMatches(search, s)
  }

  /** filteredStudents: the students passing all three filters, sorted by roll number. */
  function FilteredStudents(students: seq<User>, yearFilter: string, sectionFilter: string, search: string,
                            collate: (string, string) -> bool): (r: seq<User>)
    requires TotalPreorder(collate)
    ensures SortedBy(r, ByKey(RollKey, collate))
    ensures multiset(r) == multiset(Filter(students, KeepStudent(yearFilter, sectionFilter, search)))
  {
    ByKeyTotalPreorder(RollKey, collate);
    SortBy(Filter(students, KeepStudent(yearFilter, sectionFilter, search)), ByKey(RollKey, collate))
  }

  /** A student is listed exactly when they pass the year, the section and the roll-number filter. */
  lemma FilteredStudentsMembers(students: seq<User>, yearFilter: string, sectionFilter: string, search: string,
                                collate: (string, string) -> bool)
    requires TotalPreorder(collate)
    ensures forall s :: s in FilteredStudents(students, yearFilter, sectionFilter, search, collate) <==>
      s in students && YearMatches(yearFilter, s) && SectionMatches(sectionFilter, s) && RollMatches(search, s)
  {
    var r := FilteredStudents(students, yearFilter, sectionFilter, search, collate);
    var kept := Filter(students, KeepStudent(yearFilter, sectionFilter, search));
    forall s
      ensures s in r <==> s in students && YearMatches(yearFilter, s) && SectionMatches(sectionFilter, s) && RollMatches(search, s)
    {
      assert s in r <==> s in multiset(r);
      assert s in kept <==> s in multiset(kept);
    }
  }

  /** With every filter empty the list is the whole class, reordered. */
  lemma NoFilterKeepsEveryone(students: seq<User>, collate: (string, string) -> bool)
    requires TotalPreorder(collate)
    ensures multiset(FilteredStudents(students, "", "", "", collate)) == multiset(students)
  {
    FilterKeepsAll(students, KeepStudent("", "", ""));
  }

  /** Typing a student's own roll number, in any case, keeps that student when the year and
      section filters are off. */
  lemma SearchFindsOwnRollNumber(students: seq<User>, s: User, typed: string, collate: (string, string) -> bool)
    requires TotalPreorder(collate)
    requires s in students && s.base.rollNumber.Some? && ToLower(typed) == ToLower(s.base.rollNumber.value)
    ensures s in FilteredStudents(students, "", "", typed, collate)
  {
    FilteredStudentsMembers(students, "", "", typed, collate);
    var roll := ToLower(s.base.rollNumber.value);
    assert roll[0..|roll|] == roll;
    assert OccursAt(roll, roll, 0);
  }

  // ---------------------------------------------------------------- the present/absent split

  function PresentStudents(records: seq<AttendanceRecord>): (r: seq<AttendanceRecord>)
    ensures forall a :: a in r <==> a in records && a.status == Present
  {
    Filter(records, (a: AttendanceRecord) => a.status == Present)
  }

  function AbsentStudents(records: seq<AttendanceRecord>): (r: seq<AttendanceRecord>)
    ensures forall a :: a in r <==> a in records && a.status == Absent
  {
    Filter(records, (a: AttendanceRecord) => a.status == Absent)
  }

  /** Both lists keep the records' order: a record appended to the list is appended to the list
      of its status, and to no other. */
  lemma PresentAbsentInOrder(records: seq<AttendanceRecord>, x: AttendanceRecord)
    ensures PresentStudents([]) == [] && AbsentStudents([]) == []
    ensures PresentStudents(records + [x]) == PresentStudents(records) + (if x.status == Present then [x] else [])
    ensures AbsentStudents(records + [x]) == AbsentStudents(records) + (if x.status == Absent then [x] else [])
  {
    FilterAppend(records, x, (a: AttendanceRecord) => a.status == Present);
    FilterAppend(records, x, (a: AttendanceRecord) => a.status == Absent);
  }

  /** Every record lands in exactly one of the two lists. */
  lemma PresentAbsentPartition(records: seq<AttendanceRecord>)
    ensures multiset(PresentStudents(records)) + multiset(AbsentStudents(records)) == multiset(records)
    ensures |PresentStudents(records)| + |AbsentStudents(records)| == |records|
  {
    FilterPartition(records, (a: AttendanceRecord) => a.status == Present,
                    (a: AttendanceRecord) => a.status == Absent);
  }

  // ---------------------------------------------------------------- the batch forms

  /** `acc` maps each of `ids` (once) to `v`, in order of first occurrence. */
  ghost predicate FilledWith<V>(acc: Obj<V>, ids: seq<string>, v: V)
  {
    && WellFormed(acc)
    && Keys(acc) == Distinct(ids)
    && forall k :: k in Keys(acc) ==> Lookup(acc, k) == Some(v)
  }

  /** The accumulator loops that start a form: `acc[student.id] = v` for each fetched student. */
  method InitialMap<V>(ids: seq<string>, v: V) returns (acc: Obj<V>)
    ensures WellFormed(acc)
    ensures Keys(acc) == Distinct(ids)
    ensures forall k :: k in Keys(acc) ==> Lookup(acc, k) == Some(v)
  {
    acc := [];
    var i := 0;
    assert ids[..0] == [];
    while i < |ids|
      invariant 0 <= i <= |ids|
      invariant FilledWith(acc, ids[..i], v)
    {
      assert ids[..i + 1] == ids[..i] + [ids[i]];
      FillStep(acc, ids[..i], ids[i], v);
      acc := Put(acc, ids[i], v);
      i := i + 1;
    }
    assert ids[..i] == ids;
  }

  lemma FillStep<V>(acc: Obj<V>, ids: seq<string>, id: string, v: V)
    requires FilledWith(acc, ids, v)
    ensures FilledWith(Put(acc, id, v), ids + [id], v)
  {
    DistinctAppend(ids, id);
    PutWellFormed(acc, id, v);
  }

  /** One line of the attendance payload per key of the status map, with the name of the first
      fetched student carrying that id; None when some key has no such student, where the source's
      `student.name` throws. */
  function StatusEntries(keys: seq<string>, statuses: Obj<AttendanceStatus>, students: seq<User>)
    : (r: Option<seq<Server.StudentAttendanceStatus>>)
    requires forall k :: k in keys ==> k in Keys(statuses)
    ensures r.Some? <==> forall k :: k in keys ==> k in Ids(students)
    ensures r.Some? ==> |r.value| == |keys| && forall i :: 0 <= i < |keys| ==>
      && r.value[i].studentId == keys[i]
      && r.value[i].studentName == students[IndexOf(Ids(students), keys[i])].base.name
      && Some(r.value[i].status) == Lookup(statuses, keys[i])
    decreases |keys|
  {
    if keys == [] then Some([])
    else if keys[0] !in Ids(students) then None
    else
      var student := students[IndexOf(Ids(students), keys[0])];
      var line := Server.StudentAttendanceStatus(keys[0], student.base.name, Lookup(statuses, keys[0]).value);
      match StatusEntries(keys[1..], statuses, students)
      case None =>
        assert exists k :: k in keys[1..] && k !in Ids(students);
        None
      case Some(rest) => Some([line] + rest)
  }

  function AttendancePayload(statuses: Obj<AttendanceStatus>, students: seq<User>, subject: string, date: string)
    : (r: Option<Server.BatchAttendanceCreate>)
    ensures r.Some? <==> forall k :: k in Keys(statuses) ==> k in Ids(students)
    ensures r.Some? ==> r.value.subject == subject && r.value.date == date
    ensures r.Some? ==> |r.value.studentsStatus| == |statuses|
    ensures r.Some? ==> forall i :: 0 <= i < |statuses| ==>
      var line := r.value.studentsStatus[i];
      && line.studentId == Keys(statuses)[i]
      && line.studentName == students[IndexOf(Ids(students), Keys(statuses)[i])].base.name
      && Some(line.status) == Lookup(statuses, Keys(statuses)[i])
  {
    match StatusEntries(Keys(statuses), statuses, students)
    case None => None
    case Some(lines) => Some(Server.BatchAttendanceCreate(lines, subject, date))
  }

  /** Submitting a freshly fetched class sends every student once, each marked present. */
  lemma FreshAttendanceFormMarksEveryonePresent(students: seq<User>, statuses: Obj<AttendanceStatus>,
                                                subject: string, date: string)
    requires FilledWith(statuses, Ids(students), Present)
    ensures AttendancePayload(statuses, students, subject, date).Some?
    ensures var p := AttendancePayload(statuses, students, subject, date).value;
      && |p.studentsStatus| == |Distinct(Ids(students))|
      && (forall i :: 0 <= i < |p.studentsStatus| ==> p.studentsStatus[i].status == Present)
      && (forall i :: 0 <= i < |p.studentsStatus| ==> p.studentsStatus[i].studentId == Distinct(Ids(students))[i])
  {
    var p := AttendancePayload(statuses, students, subject, date);
    assert forall k :: k in Keys(statuses) ==> k in Ids(students);
    var lines := p.value.studentsStatus;
    forall i | 0 <= i < |lines| ensures lines[i].status == Present {
      assert Keys(statuses)[i] in Keys(statuses);
    }
  }

  /** A student with an entered mark: the key is present and not "". */
  predicate HasMark(marks: Obj<string>, s: User)
  {
    Lookup(marks, s.id).Some? && Lookup(marks, s.id).value != ""
  }

  function MarkedStudents(students: seq<User>, marks: Obj<string>): (r: seq<User>)
    ensures forall s :: s in r <==> s in students && HasMark(marks, s)
  {
    Filter(students, (s: User) => HasMark(marks, s))
  }

  /** The marked students keep the fetched order: a student appended to the class is appended to
      the marked students exactly when their mark is filled in. */
  lemma MarkedStudentsInOrder(students: seq<User>, s: User, marks: Obj<string>)
    ensures MarkedStudents([], marks) == []
    ensures MarkedStudents(students + [s], marks) ==
      MarkedStudents(students, marks) + (if HasMark(marks, s) then [s] else [])
  {
    FilterAppend(students, s, (t: User) => HasMark(marks, t));
  }

  /** `students_marks`: the fetched students whose mark is filled in, in fetched order, with the
      mark parsed as a float. */
  function MarksEntries(students: seq<User>, marks: Obj<string>): (r: seq<MarksEntry>)
    ensures |r| == |MarkedStudents(students, marks)|
    ensures forall i :: 0 <= i < |r| ==>
      var s := MarkedStudents(students, marks)[i];
      HasMark(marks, s) && r[i] == MarksEntry(s.id, s.base.name, ParsedFloat(Lookup(marks, s.id).value))
  {
    var marked := MarkedStudents(students, marks);
    seq(|marked|, i requires 0 <= i < |marked| =>
      assert marked[i] in marked;
      MarksEntry(marked[i].id, marked[i].base.name, ParsedFloat(Lookup(marks, marked[i].id).value)))
  }

  datatype MarksEntry = MarksEntry(studentId: string, studentName: string, marks: ParsedNumber)

  datatype MarksPayload = MarksPayload(
    studentsMarks: seq<MarksEntry>, subject: string, maxMarks: ParsedNumber, examType: string)

  /** A freshly fetched marks form has every mark "", so submitting it untouched is refused. */
  lemma FreshMarksFormIsRefused(students: seq<User>, marks: Obj<string>, subject: string, examType: string,
                                maxMarks: string)
    requires FilledWith(marks, Ids(students), "")
    requires students != [] && subject != "" && examType != "" && maxMarks != ""
    ensures MarksSubmission(students, marks, subject, examType, maxMarks) == Refused(NoMarksToast)
  {
    forall s | s in students
      ensures !HasMark(marks, s)
    {
      var k :| 0 <= k < |students| && students[k] == s;
      assert Ids(students)[k] == s.id;
    }
  }

  /** What a submit handler did: refused with a message before any request, threw before any
      request, or posted a payload. */
  datatype Submission<P> = Refused(message: string) | Threw | Posted(payload: P)

  /** handleBatchAttendanceSubmit up to the request: the two guards, then the payload, whose
      construction throws when a status key names no fetched student. */
  function AttendanceSubmission(students: seq<User>, statuses: Obj<AttendanceStatus>, subject: string, date: string)
    : (r: Submission<Server.BatchAttendanceCreate>)
    ensures r == Refused(NoStudentsForAttendanceToast) <==> students == []
    ensures r == Refused(NoSubjectToast) <==> students != [] && subject == ""
    ensures r.Threw? <==> students != [] && subject != "" && exists k :: k in Keys(statuses) && k !in Ids(students)
    ensures r.Posted? ==>
      && r.payload.subject == subject && r.payload.date == date
      && |r.payload.studentsStatus| == |statuses|
      && r.payload == AttendancePayload(statuses, students, subject, date).value
  {
    if students == [] then Refused(NoStudentsForAttendanceToast)
    else if subject == "" then Refused(NoSubjectToast)
    else match AttendancePayload(statuses, students, subject, date)
      case None => Threw
      case Some(payload) => Posted(payload)
  }

  /** handleBatchMarksSubmit up to the request: the class, then the exam details, then at least
      one entered mark. */
  function MarksSubmission(students: seq<User>, marks: Obj<string>, subject: string, examType: string,
                           maxMarks: string): (r: Submission<MarksPayload>)
    ensures r == Refused(NoStudentsForMarksToast) <==> students == []
    ensures r == Refused(ExamDetailsToast) <==>
      students != [] && (subject == "" || examType == "" || maxMarks == "")
    ensures r == Refused(NoMarksToast) <==>
      && students != [] && subject != "" && examType != "" && maxMarks != ""
      && forall s :: s in students ==> !HasMark(marks, s)
    ensures !r.Threw?
    ensures r.Posted? ==>
      && r.payload == MarksPayload(MarksEntries(students, marks), subject, ParsedFloat(maxMarks), examType)
      && r.payload.studentsMarks != []
  {
    if students == [] then Refused(NoStudentsForMarksToast)
    else if subject == "" || examType == "" || maxMarks == "" then Refused(ExamDetailsToast)
    else
      var entries := MarksEntries(students, marks);
      if entries == [] then
        assert forall s :: s in students ==> !HasMark(marks, s);
        Refused(NoMarksToast)
      else
        assert MarkedStudents(students, marks)[0] in MarkedStudents(students, marks);
        Posted(MarksPayload(entries, subject, ParsedFloat(maxMarks), examType))
  }

  // ---------------------------------------------------------------- the page

  /** `Promise.all` of the six reads resolved. */
  predicate AllReceived<A, B, C, D, E, F>(a: Reply<A>, b: Reply<B>, c: Reply<C>, d: Reply<D>, e: Reply<E>, f: Reply<F>)
  {
    a.Received? && b.Received? && c.Received? && d.Received? && e.Received? && f.Received?
  }

  class Page {
    /** String.prototype.localeCompare, seen as an order. */
    const collate: (string, string) -> bool
    var students: seq<User>
    var requests: seq<Request>
    var notices: seq<Notice>
    var complaints: seq<Complaint>
    var subjects: seq<string>
    var selectedSubject: string
    var marksSubjects: seq<string>
    var examTypes: seq<string>
    var marksOverviewSubject: string
    var marksOverviewExamType: string
    var loading: bool

    var attendanceDialogOpen: bool
    var attendanceYear: string
    var attendanceSection: string
    var attendanceSubject: string
    var attendanceDate: string
    var attendanceStudents: seq<User>
    var attendanceStatuses: Obj<AttendanceStatus>
    var loadingStudents: bool

    var marksDialogOpen: bool
    var marksYear: string
    var marksSection: string
    var marksSubject: string
    var marksExamType: string
    var marksMaxMarks: string
    var marksStudents: seq<User>
    var marksData: Obj<string>
    var loadingMarksStudents: bool

    var studentListYear: string
    var studentListSection: string
    var searchRollNumber: string
    var filteredAttendance: seq<AttendanceRecord>
    /** The toasts shown so far, oldest first. */
    var toasts: seq<string>

    constructor (collate: (string, string) -> bool, today: string)
      ensures this.collate == collate && attendanceDate == today
      ensures students == [] && requests == [] && notices == [] && complaints == []
      ensures subjects == [] && marksSubjects == [] && examTypes == [] && loading
      ensures selectedSubject == "" && marksOverviewSubject == "" && marksOverviewExamType == ""
      ensures attendanceYear == "" && attendanceSection == "" && attendanceSubject == ""
      ensures attendanceStudents == [] && attendanceStatuses == [] && !attendanceDialogOpen
      ensures marksYear == "" && marksSection == "" && marksSubject == "" && marksExamType == ""
      ensures marksMaxMarks == DefaultMaxMarks && marksStudents == [] && marksData == [] && !marksDialogOpen
      ensures studentListYear == "" && studentListSection == "" && searchRollNumber == ""
      ensures filteredAttendance == [] && toasts == [] && !loadingStudents && !loadingMarksStudents
    {
      this.collate := collate;
      students, requests, notices, complaints := [], [], [], [];
      subjects, marksSubjects, examTypes, loading := [], [], [], true;
      selectedSubject, marksOverviewSubject, marksOverviewExamType := "", "", "";
      attendanceDialogOpen, attendanceYear, attendanceSection, attendanceSubject := false, "", "", "";
      attendanceDate, attendanceStudents, attendanceStatuses, loadingStudents := today, [], [], false;
      marksDialogOpen, marksYear, marksSection, marksSubject, marksExamType := false, "", "", "", "";
      marksMaxMarks, marksStudents, marksData, loadingMarksStudents := DefaultMaxMarks, [], [], false;
      studentListYear, studentListSection, searchRollNumber := "", "", "";
      filteredAttendance, toasts := [], [];
    }

    /** The option lists of loadData and the selections it fills in when they are still empty. */
    method ShowOptions(attendance: seq<AttendanceRecord>, marks: seq<MarksRecord>)
      modifies this`subjects, this`selectedSubject, this`marksSubjects, this`examTypes
      modifies this`marksOverviewSubject, this`marksOverviewExamType
      ensures subjects == UniqueNonEmpty(AttendanceSubjects(attendance))
      ensures selectedSubject == KeepOrFirst(old(selectedSubject), subjects)
      ensures marksSubjects == UniqueNonEmpty(MarksSubjects(marks))
      ensures examTypes == UniqueNonEmpty(ExamTypes(marks))
      ensures marksOverviewSubject == KeepOrFirst(old(marksOverviewSubject), marksSubjects)
      ensures marksOverviewExamType == KeepOrFirst(old(marksOverviewExamType), examTypes)
    {
      subjects := UniqueNonEmpty(AttendanceSubjects(attendance));
      selectedSubject := KeepOrFirst(selectedSubject, subjects);
      marksSubjects := UniqueNonEmpty(MarksSubjects(marks));
      examTypes := UniqueNonEmpty(ExamTypes(marks));
      marksOverviewSubject := KeepOrFirst(marksOverviewSubject, marksSubjects);
      marksOverviewExamType := KeepOrFirst(marksOverviewExamType, examTypes);
    }

    /** loadData: six reads; only when all succeed are the lists, the option lists and the
        empty selections replaced. */
    method LoadData(st: Reply<seq<User>>, rq: Reply<seq<Request>>, nt: Reply<seq<Notice>>,
                    at: Reply<seq<AttendanceRecord>>, cp: Reply<seq<Complaint>>, mk: Reply<seq<MarksRecord>>)
      modifies this`students, this`requests, this`notices, this`complaints, this`subjects
      modifies this`selectedSubject, this`marksSubjects, this`examTypes, this`marksOverviewSubject
      modifies this`marksOverviewExamType, this`loading, this`toasts
      ensures !loading
      ensures AllReceived(st, rq, nt, at, cp, mk) ==>
        students == st.data && requests == rq.data && notices == nt.data && complaints == cp.data
      ensures AllReceived(st, rq, nt, at, cp, mk) ==>
        && subjects == UniqueNonEmpty(AttendanceSubjects(at.data))
        && selectedSubject == KeepOrFirst(old(selectedSubject), subjects)
      ensures AllReceived(st, rq, nt, at, cp, mk) ==>
        && marksSubjects == UniqueNonEmpty(MarksSubjects(mk.data))
        && examTypes == UniqueNonEmpty(ExamTypes(mk.data))
        && marksOverviewSubject == KeepOrFirst(old(marksOverviewSubject), marksSubjects)
        && marksOverviewExamType == KeepOrFirst(old(marksOverviewExamType), examTypes)
      ensures AllReceived(st, rq, nt, at, cp, mk) ==> toasts == old(toasts)
      ensures !AllReceived(st, rq, nt, at, cp, mk) ==>
        && unchanged(this`students, this`requests, this`notices, this`complaints, this`subjects)
        && unchanged(this`selectedSubject, this`marksSubjects, this`examTypes)
        && unchanged(this`marksOverviewSubject, this`marksOverviewExamType)
        && toasts == old(toasts) + [LoadFailedToast]
    {
      if AllReceived(st, rq, nt, at, cp, mk) {
        students, requests, notices, complaints := st.data, rq.data, nt.data, cp.data;
        ShowOptions(at.data, mk.data);
      } else {
        toasts := toasts + [LoadFailedToast];
      }
      loading := false;
    }

    /** The keys of the status map all belong to fetched students. */
    ghost predicate StatusesCoverClass()
      reads this
    {
      forall k :: k in Keys(attendanceStatuses) ==> k in Ids(attendanceStudents)
    }

    /** fetchAttendanceStudents: refuses without year and section; on success the class, sorted
        by roll number, with everyone present. The reply is that of GET /students for the query
        it returns. */
    method FetchAttendanceStudents(reply: Reply<seq<User>>) returns (query: Option<(string, string)>)
      requires TotalPreorder(collate)
      modifies this`attendanceStudents, this`attendanceStatuses, this`loadingStudents, this`toasts
      ensures query.Some? <==> attendanceYear != "" && attendanceSection != ""
      ensures query.Some? ==> query.value == (attendanceYear, attendanceSection)
      ensures query.None? ==>
        && attendanceStudents == old(attendanceStudents) && attendanceStatuses == old(attendanceStatuses)
        && loadingStudents == old(loadingStudents) && toasts == old(toasts) + [SelectClassToast]
      ensures query.Some? && reply.Received? ==>
        && attendanceStudents == SortBy(reply.data, ByKey(RollKey, collate))
        && FilledWith(attendanceStatuses, Ids(attendanceStudents), Present)
        && StatusesCoverClass()
        && !loadingStudents && toasts == old(toasts)
      ensures query.Some? && reply.Failed? ==>
        && attendanceStudents == [] && attendanceStatuses == old(attendanceStatuses)
        && !loadingStudents && toasts == old(toasts) + [FetchFailedToast]
    {
      if attendanceYear == "" || attendanceSection == "" {
        toasts := toasts + [SelectClassToast];
        return None;
      }
      query := Some((attendanceYear, attendanceSection));
      loadingStudents := true;
      if reply.Received? {
        ByKeyTotalPreorder(RollKey, collate);
        var sorted := SortBy(reply.data, ByKey(RollKey, collate));
        attendanceStudents := sorted;
        attendanceStatuses := InitialMap(Ids(sorted), Present);
      } else {
        toasts := toasts + [FetchFailedToast];
        attendanceStudents := [];
      }
      loadingStudents := false;
    }

    /** handleAttendanceStatusChange: exactly one key changes. */
    method HandleAttendanceStatusChange(studentId: string, status: AttendanceStatus)
      modifies this`attendanceStatuses
      ensures attendanceStatuses == Put(old(attendanceStatuses), studentId, status)
      ensures Lookup(attendanceStatuses, studentId) == Some(status)
      ensures forall k :: k != studentId ==> Lookup(attendanceStatuses, k) == Lookup(old(attendanceStatuses), k)
      ensures old(StatusesCoverClass()) && studentId in Ids(attendanceStudents) ==> StatusesCoverClass()
    {
      attendanceStatuses := Put(attendanceStatuses, studentId, status);
    }

    /** The attendance dialog after a successful submit: closed, with the class and subject
        cleared (the date is kept). */
    predicate AttendanceFormCleared()
      reads this
    {
      && !attendanceDialogOpen && attendanceYear == "" && attendanceSection == "" && attendanceSubject == ""
      && attendanceStudents == [] && attendanceStatuses == []
    }

    /** The marks dialog after a successful submit: closed, cleared, maximum back to 100. */
    predicate MarksFormCleared()
      reads this
    {
      && !marksDialogOpen && marksYear == "" && marksSection == "" && marksSubject == ""
      && marksExamType == "" && marksMaxMarks == DefaultMaxMarks && marksStudents == [] && marksData == []
    }

    method ClearAttendanceForm()
      modifies this`attendanceDialogOpen, this`attendanceYear, this`attendanceSection, this`attendanceSubject
      modifies this`attendanceStudents, this`attendanceStatuses
      ensures AttendanceFormCleared()
    {
      attendanceDialogOpen := false;
      attendanceYear, attendanceSection, attendanceSubject := "", "", "";
      attendanceStudents, attendanceStatuses := [], [];
    }

    method ClearMarksForm()
      modifies this`marksDialogOpen, this`marksYear, this`marksSection, this`marksSubject, this`marksExamType
      modifies this`marksMaxMarks, this`marksStudents, this`marksData
      ensures MarksFormCleared()
    {
      marksDialogOpen := false;
      marksYear, marksSection, marksSubject, marksExamType := "", "", "", "";
      marksMaxMarks, marksStudents, marksData := DefaultMaxMarks, [], [];
    }

    /** handleBatchAttendanceSubmit. The form resets only after the server accepted the batch. */
    method HandleBatchAttendanceSubmit(reply: Reply<()>) returns (outcome: Submission<Server.BatchAttendanceCreate>)
      modifies this`attendanceDialogOpen, this`attendanceYear, this`attendanceSection, this`attendanceSubject
      modifies this`attendanceStudents, this`attendanceStatuses, this`toasts
      ensures outcome == AttendanceSubmission(old(attendanceStudents), old(attendanceStatuses), old(attendanceSubject), attendanceDate)
      ensures old(StatusesCoverClass()) ==> !outcome.Threw?
      ensures outcome.Refused? ==> toasts == old(toasts) + [outcome.message]
      ensures outcome.Threw? ==> toasts == old(toasts)
      ensures !(outcome.Posted? && reply.Received?) ==>
        unchanged(this`attendanceDialogOpen, this`attendanceYear, this`attendanceSection, this`attendanceSubject,
                  this`attendanceStudents, this`attendanceStatuses)
      ensures outcome.Posted? && reply.Failed? ==> toasts == old(toasts) + [AttendanceFailedToast]
      ensures outcome.Posted? && reply.Received? ==>
        && AttendanceFormCleared()
        && toasts == old(toasts) + [AttendanceSubmittedToast(|outcome.payload.studentsStatus|)]
    {
      outcome := AttendanceSubmission(attendanceStudents, attendanceStatuses, attendanceSubject, attendanceDate);
      match outcome
      case Refused(message) =>
        toasts := toasts + [message];
      case Threw =>
      case Posted(payload) =>
        if reply.Received? {
          toasts := toasts + [AttendanceSubmittedToast(|payload.studentsStatus|)];
          ClearAttendanceForm();
        } else {
          toasts := toasts + [AttendanceFailedToast];
        }
    }

    /** fetchMarksStudents: as for attendance, with every mark starting as "". */
    method FetchMarksStudents(reply: Reply<seq<User>>) returns (query: Option<(string, string)>)
      requires TotalPreorder(collate)
      modifies this`marksStudents, this`marksData, this`loadingMarksStudents, this`toasts
      ensures query.Some? <==> marksYear != "" && marksSection != ""
      ensures query.Some? ==> query.value == (marksYear, marksSection)
      ensures query.None? ==>
        && marksStudents == old(marksStudents) && marksData == old(marksData)
        && loadingMarksStudents == old(loadingMarksStudents) && toasts == old(toasts) + [SelectClassToast]
      ensures query.Some? && reply.Received? ==>
        && marksStudents == SortBy(reply.data, ByKey(RollKey, collate))
        && FilledWith(marksData, Ids(marksStudents), "")
        && !loadingMarksStudents && toasts == old(toasts)
      ensures query.Some? && reply.Failed? ==>
        && marksStudents == [] && marksData == old(marksData)
        && !loadingMarksStudents && toasts == old(toasts) + [FetchFailedToast]
    {
      if marksYear == "" || marksSection == "" {
        toasts := toasts + [SelectClassToast];
        return None;
      }
      query := Some((marksYear, marksSection));
      loadingMarksStudents := true;
      if reply.Received? {
        ByKeyTotalPreorder(RollKey, collate);
        var sorted := SortBy(reply.data, ByKey(RollKey, collate));
        marksStudents := sorted;
        marksData := InitialMap(Ids(sorted), "");
      } else {
        toasts := toasts + [FetchFailedToast];
        marksStudents := [];
      }
      loadingMarksStudents := false;
    }

    /** handleMarksChange: exactly one key changes. */
    method HandleMarksChange(studentId: string, value: string)
      modifies this`marksData
      ensures marksData == Put(old(marksData), studentId, value)
      ensures Lookup(marksData, studentId) == Some(value)
      ensures forall k :: k != studentId ==> Lookup(marksData, k) == Lookup(old(marksData), k)
    {
      marksData := Put(marksData, studentId, value);
    }

    /** handleBatchMarksSubmit. The form, maximum included, resets only after the server accepted
        the batch. */
    method HandleBatchMarksSubmit(reply: Reply<()>) returns (outcome: Submission<MarksPayload>)
      modifies this`marksDialogOpen, this`marksYear, this`marksSection, this`marksSubject, this`marksExamType
      modifies this`marksMaxMarks, this`marksStudents, this`marksData, this`toasts
      ensures outcome == MarksSubmission(old(marksStudents), old(marksData), old(marksSubject), old(marksExamType),
                                         old(marksMaxMarks))
      ensures outcome.Refused? ==> toasts == old(toasts) + [outcome.message]
      ensures !(outcome.Posted? && reply.Received?) ==>
        unchanged(this`marksDialogOpen, this`marksYear, this`marksSection, this`marksSubject,
                  this`marksExamType, this`marksMaxMarks, this`marksStudents, this`marksData)
      ensures outcome.Posted? && reply.Failed? ==> toasts == old(toasts) + [MarksFailedToast]
      ensures outcome.Posted? && reply.Received? ==>
        && MarksFormCleared()
        && toasts == old(toasts) + [MarksAddedToast(|outcome.payload.studentsMarks|)]
    {
      outcome := MarksSubmission(marksStudents, marksData, marksSubject, marksExamType, marksMaxMarks);
      match outcome
      case Refused(message) =>
        toasts := toasts + [message];
      case Threw =>
      case Posted(payload) =>
        if reply.Received? {
          toasts := toasts + [MarksAddedToast(|payload.studentsMarks|)];
          ClearMarksForm();
        } else {
          toasts := toasts + [MarksFailedToast];
        }
    }

    /** The student list as rendered. */
    function VisibleStudents(): (r: seq<User>)
      requires TotalPreorder(collate)
      reads this
      ensures SortedBy(r, ByKey(RollKey, collate))
      ensures forall s :: s in r <==>
        s in students && YearMatches(studentListYear, s) && SectionMatches(studentListSection, s)
        && RollMatches(searchRollNumber, s)
    {
      FilteredStudentsMembers(students, studentListYear, studentListSection, searchRollNumber, collate);
      FilteredStudents(students, studentListYear, studentListSection, searchRollNumber, collate)
    }
  }
}
