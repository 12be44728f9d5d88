/** The FastAPI backend of backend/server.py: request validation, the role gate of every endpoint,
    and the change each endpoint makes to the MongoDB collections. The collections are fields of
    one Database object; bcrypt is the Database's `hash` function; a JWT is modelled by its claims;
    uuid4, the OTP digits and the clock are parameters of the handlers that draw them. */
module Server {
  import opened Common
  import opened Seqs
  import opened Sorting
  import opened Records

  const MinPasswordLength: nat := 8
  const AdminEmployeeId: string := "9"
  const ValidFacultyIds: seq<string> := ["66", "107", "102", "132", "222", "319"]
  const OtpLength: nat := 6
  /** Every listing is read with `to_list(1000)`. */
  const ListLimit: nat := 1000

  datatype HttpError = HttpError(status: nat, detail: string)

  datatype Result<+T> = Ok(value: T) | Err(error: HttpError) {
    predicate IsFailure() { Err? }
    function PropagateFailure<U>(): Result<U> requires Err? { Err(error) }
    function Extract(): T requires Ok? { value }
  }

  function BadRequest(detail: string): HttpError { HttpError(400, detail) }
  function Unauthorized(detail: string): HttpError { HttpError(401, detail) }
  function Forbidden(detail: string): HttpError { HttpError(403, detail) }
  function NotFound(detail: string): HttpError { HttpError(404, detail) }

  /** Python truthiness of optional query values: None, "" and 0 are false. */
  predicate TruthyStr(v: Option<string>) { v.Some? && v.value != "" }
  predicate TruthyInt(v: Option<int>) { v.Some? && v.value != 0 }

  // ---------------------------------------------------------------- documents and payloads

  /** A stored user document: the public fields plus the bcrypt hash, and nothing else. */
  datatype UserDoc = UserDoc(user: User, passwordHash: string)

  /** The `otps` collection holds one document per email (send_otp upserts on the email). */
  datatype OtpRecord = OtpRecord(otp: string, createdAt: int)

  datatype UserCreate = UserCreate(base: UserBase, password: string, otp: Option<string>)

  /** The login identifier travels in the `email` field and may be a roll number. */
  datatype LoginRequest = LoginRequest(email: string, password: string)

  /** The claims of the JWT that login issues; its signature and expiry are not modelled. */
  datatype Claims = Claims(sub: string, role: Role)

  datatype LoginResponse = LoginResponse(token: Claims, user: User)

  /** What jwt.decode makes of a bearer token. */
  datatype Credential = Decoded(sub: Option<string>) | Expired | Undecodable

  datatype StudentAttendanceStatus =
    StudentAttendanceStatus(studentId: string, studentName: string, status: AttendanceStatus)

  datatype BatchAttendanceCreate =
    BatchAttendanceCreate(studentsStatus: seq<StudentAttendanceStatus>, subject: string, date: string)

  datatype StudentMarksEntry = StudentMarksEntry(studentId: string, studentName: string, marks: real)

  datatype BatchMarksCreate =
    BatchMarksCreate(studentsMarks: seq<StudentMarksEntry>, subject: string, maxMarks: real, examType: string)

  datatype AttendanceCreate = AttendanceCreate(
    studentId: string, studentName: string, subject: string, date: string, status: AttendanceStatus)

  datatype MarksCreate = MarksCreate(
    studentId: string, studentName: string, subject: string, marks: real, maxMarks: real, examType: string)

  datatype NoticeCreate = NoticeCreate(title: string, content: string, roleTarget: seq<string>)

  datatype RequestCreate = RequestCreate(
    requestType: RequestType, reason: string, rollNumber: Option<string>,
    startDate: Option<string>, endDate: Option<string>)

  /** RequestUpdate.status admits only "approved" and "rejected". */
  datatype Decision = Approve | Reject

  datatype RequestUpdate = RequestUpdate(status: Decision, adminComment: Option<string>)

  datatype AnalyticsCounts = AnalyticsCounts(
    totalStudents: nat, totalFaculty: nat, pendingRequests: nat, totalNotices: nat)

  // ---------------------------------------------------------------- authentication

  /** get_current_user: the position of the user document named by the token's subject. */
  function Authenticate(users: seq<UserDoc>, cred: Credential): (r: Result<nat>)
    ensures r.Ok? ==> r.value < |users| && cred == Decoded(Some(users[r.value].user.id))
    ensures r.Ok? ==> forall j :: 0 <= j < r.value ==> users[j].user.id != users[r.value].user.id
    ensures r.Err? ==> r.error.status == 401
    ensures cred.Decoded? && cred.sub.Some? ==>
      (r.Ok? <==> exists j :: 0 <= j < |users| && users[j].user.id == cred.sub.value)
  {
    match cred
    case Expired => Err(Unauthorized("Token expired"))
    case Undecodable => Err(Unauthorized("Invalid token"))
    case Decoded(None) => Err(Unauthorized("Invalid token"))
    case Decoded(Some(sub)) =>
      match FindFirst(users, (d: UserDoc) => d.user.id == sub)
      case None => Err(Unauthorized("User not found"))
      case Some(i) => Ok(i)
  }

  /** The authenticated caller. */
  function Caller(users: seq<UserDoc>, cred: Credential): User
    requires Authenticate(users, cred).Ok?
  {
    users[Authenticate(users, cred).value].user
  }

  // ---------------------------------------------------------------- role gates

  datatype Endpoint =
    | ListStudents
    | ReadStudentRecords(studentId: string)
    | WriteAttendance
    | WriteMarks
    | ListAttendance
    | ListMarks
    | PostNotice
    | SubmitRequest
    | DecideRequest
    | ListComplaints
    | ViewAnalytics
    | ListUsers

  predicate IsStaff(r: Role) { r == Faculty || r == Admin }

  /** The role check at the head of each endpoint; Some(e) is the 403 it raises. */
  function Authorize(u: User, e: Endpoint): (r: Option<HttpError>)
    ensures r.Some? ==> r.value.status == 403
  {
    var role := u.base.role;
    match e
    case ListStudents | ListAttendance | ListMarks =>
      if IsStaff(role) then None else Some(Forbidden("Not authorized"))
    case ReadStudentRecords(sid) =>
      if role == Student && u.id != sid then Some(Forbidden("Not authorized")) else None
    case WriteAttendance =>
      if role != Faculty then Some(Forbidden("Only faculty can mark attendance")) else None
    case WriteMarks =>
      if role != Faculty then Some(Forbidden("Only faculty can add marks")) else None
    case PostNotice =>
      if IsStaff(role) then None else Some(Forbidden("Only faculty and admin can post notices"))
    case SubmitRequest =>
      if role != Student then Some(Forbidden("Only students can create requests")) else None
    case DecideRequest =>
      if IsStaff(role) then None else Some(Forbidden("Only faculty and admin can update requests"))
    case ListComplaints =>
      if IsStaff(role) then None else Some(Forbidden("Not authorized to view complaints"))
    case ViewAnalytics =>
      if role != Admin then Some(Forbidden("Only admin can access analytics")) else None
    case ListUsers =>
      if role != Admin then Some(Forbidden("Only admin can access all users")) else None
  }

  lemma StudentsReadOnlyOwnRecords(u: User, studentId: string)
    ensures Authorize(u, ReadStudentRecords(studentId)).None? <==>
      u.base.role != Student || u.id == studentId
  {
  }

  lemma ListingsNeedStaff(u: User, e: Endpoint)
    requires e in {ListStudents, ListAttendance, ListMarks, ListComplaints}
    ensures Authorize(u, e).None? <==> u.base.role in {Faculty, Admin}
  {
  }

  lemma OnlyFacultyRecordsAttendanceAndMarks(u: User, e: Endpoint)
    requires e == WriteAttendance || e == WriteMarks
    ensures Authorize(u, e).None? <==> u.base.role == Faculty
  {
  }

  lemma RequestGates(u: User)
    ensures Authorize(u, SubmitRequest).None? <==> u.base.role == Student
    ensures Authorize(u, DecideRequest).None? <==> u.base.role != Student
  {
  }

  // ---------------------------------------------------------------- registration and login

  predicate EmailTaken(users: seq<UserDoc>, email: string)
  {
    exists d :: d in users && d.user.base.email == email
  }

  /** Registration emails are unique: register refuses an email that is already stored. */
  ghost predicate EmailsUnique(users: seq<UserDoc>)
  {
    forall i, j :: 0 <= i < j < |users| ==> users[i].user.base.email != users[j].user.base.email
  }

  /** The OTP supplied with a student registration is present and equals the stored one. */
  predicate OtpAccepted(otps: map<string, OtpRecord>, data: UserCreate)
  {
    && data.otp.Some? && data.otp.value != ""
    && data.base.email in otps
    && otps[data.base.email].otp == data.otp.value
  }

  /** The checks of register, in their order; Some(e) is the 400 the first failing one raises. */
  function RegistrationError(users: seq<UserDoc>, otps: map<string, OtpRecord>, data: UserCreate)
    : (r: Option<HttpError>)
    ensures r.Some? ==> r.value.status == 400
    ensures r.None? <==>
      && |data.password| >= MinPasswordLength
      && !EmailTaken(users, data.base.email)
      && (data.base.role == Admin ==> data.base.employeeId == Some(AdminEmployeeId))
      && (data.base.role == Faculty ==>
            data.base.employeeId.Some? && data.base.employeeId.value in ValidFacultyIds)
      && (data.base.role == Student ==> OtpAccepted(otps, data))
    ensures |data.password| < MinPasswordLength ==>
      r == Some(BadRequest("Password must be at least 8 characters long"))
    ensures |data.password| >= MinPasswordLength && EmailTaken(users, data.base.email) ==>
      r == Some(BadRequest("Email already registered"))
    ensures |data.password| >= MinPasswordLength && !EmailTaken(users, data.base.email) ==>
      && (data.base.role == Admin && data.base.employeeId != Some(AdminEmployeeId) ==>
            r == Some(BadRequest("Invalid employee ID")))
      && (data.base.role == Faculty && (data.base.employeeId.None? || data.base.employeeId.value !in ValidFacultyIds) ==>
            r == Some(BadRequest("Invalid employee ID")))
      && (data.base.role == Student && (data.otp.None? || data.otp.value == "") ==>
            r == Some(BadRequest("OTP is required for student registration")))
      && (data.base.role == Student && data.otp.Some? && data.otp.value != "" && !OtpAccepted(otps, data) ==>
            r == Some(BadRequest("Invalid or expired OTP")))
  {
    var b := data.base;
    if |data.password| < MinPasswordLength then
      Some(BadRequest("Password must be at least 8 characters long"))
    else if FindFirst(users, (d: UserDoc) => d.user.base.email == b.email).Some? then
      Some(BadRequest("Email already registered"))
    else if b.role == Admin && b.employeeId != Some(AdminEmployeeId) then
      Some(BadRequest("Invalid employee ID"))
    else if b.role == Faculty && (b.employeeId.None? || b.employeeId.value !in ValidFacultyIds) then
      Some(BadRequest("Invalid employee ID"))
    else if b.role == Student && (data.otp.None? || data.otp.value == "") then
      Some(BadRequest("OTP is required for student registration"))
    else if b.role == Student && (b.email !in otps || otps[b.email].otp != data.otp.value) then
      Some(BadRequest("Invalid or expired OTP"))
    else
      None
  }

  /** An accepted registration keeps the stored emails unique. */
  lemma RegistrationKeepsEmailsUnique(users: seq<UserDoc>, otps: map<string, OtpRecord>, data: UserCreate,
                                      id: string, now: int, hash: string -> string)
    requires EmailsUnique(users) && RegistrationError(users, otps, data).None?
    ensures EmailsUnique(users + [NewUserDoc(data, id, now, hash)])
  {
    var doc := NewUserDoc(data, id, now, hash);
    forall i | 0 <= i < |users| ensures users[i].user.base.email != doc.user.base.email {
      assert users[i] in users;
    }
  }

  /** The document register stores: the submitted profile with a fresh id, the password replaced by
      its hash, the OTP dropped. */
  function NewUserDoc(data: UserCreate, id: string, now: int, hash: string -> string): (d: UserDoc)
    ensures d.user.base == data.base && d.user.id == id
    ensures d.passwordHash == hash(data.password)
  {
    UserDoc(User(id, data.base, now), hash(data.password))
  }

  /** An OTP, once used for a student registration, cannot register a second account: the email
      is now taken and its OTP record is gone. */
  lemma OtpSingleUse(users: seq<UserDoc>, otps: map<string, OtpRecord>, data: UserCreate,
                     again: UserCreate, id: string, now: int, hash: string -> string)
    requires RegistrationError(users, otps, data).None? && data.base.role == Student
    requires again.base.email == data.base.email && again.base.role == Student
    ensures !OtpAccepted(otps - {data.base.email}, again)
    ensures RegistrationError(users + [NewUserDoc(data, id, now, hash)], otps - {data.base.email}, again)
      == Some(BadRequest(if |again.password| < MinPasswordLength
                         then "Password must be at least 8 characters long"
                         else "Email already registered"))
  {
    var d := NewUserDoc(data, id, now, hash);
    assert d in users + [d];
  }

  /** The six characters random.choices(string.digits, k=6) draws. */
  function OtpFromDigits(digits: seq<nat>): (code: string)
    requires |digits| == OtpLength && forall i :: 0 <= i < |digits| ==> digits[i] < 10
    ensures |code| == OtpLength && forall i :: 0 <= i < |code| ==> IsDigit(code[i])
  {
    seq(OtpLength, i requires 0 <= i < OtpLength => DigitChar(digits[i]))
  }

  /** A later send replaces the earlier code: only the latest code registers. */
  lemma LatestOtpWins(otps: map<string, OtpRecord>, email: string, first: OtpRecord,
                      second: OtpRecord, data: UserCreate)
    requires data.base.email == email
    ensures OtpAccepted(otps[email := first][email := second], data) <==>
      data.otp == Some(second.otp) && second.otp != ""
  {
  }

  /** The user document login settles on: the first with this email, otherwise the first with
      this roll number. */
  function LoginTarget(users: seq<UserDoc>, identifier: string): (r: Option<nat>)
    ensures r.Some? ==> r.value < |users|
    ensures EmailTaken(users, identifier) ==>
      && r.Some? && users[r.value].user.base.email == identifier
      && forall j :: 0 <= j < r.value ==> users[j].user.base.email != identifier
    ensures !EmailTaken(users, identifier) ==>
      && (r.Some? <==> exists j :: 0 <= j < |users| && users[j].user.base.rollNumber == Some(identifier))
      && (r.Some? ==> users[r.value].user.base.rollNumber == Some(identifier))
      && (r.Some? ==> forall j :: 0 <= j < r.value ==> users[j].user.base.rollNumber != Some(identifier))
  {
    var byEmail := FindFirst(users, (d: UserDoc) => d.user.base.email == identifier);
    assert byEmail.None? ==> !EmailTaken(users, identifier);
    assert byEmail.Some? ==> EmailTaken(users, identifier) by {
      if byEmail.Some? {
        assert users[byEmail.value] in users;
      }
    }
    if byEmail.Some? then byEmail
    else FindFirst(users, (d: UserDoc) => d.user.base.rollNumber == Some(identifier))
  }

  /** With unique emails, an identifier that is some user's email logs in as that user only. */
  lemma LoginByEmailIsUnambiguous(users: seq<UserDoc>, k: nat, identifier: string)
    requires EmailsUnique(users)
    requires k < |users| && users[k].user.base.email == identifier
    ensures LoginTarget(users, identifier) == Some(k)
  {
    assert users[k] in users;
  }

  // ---------------------------------------------------------------- queries

  function Project(docs: seq<UserDoc>): (us: seq<User>)
    ensures |us| == |docs| && forall i :: 0 <= i < |docs| ==> us[i] == docs[i].user
  {
    seq(|docs|, i requires 0 <= i < |docs| => docs[i].user)
  }

  /** At most ListLimit results, in `le` order, drawn from `matching`; all of them when there are
      no more than ListLimit. */
  ghost predicate Listing<T(!new)>(r: seq<T>, matching: seq<T>, le: (T, T) -> bool)
  {
    && |r| == (if |matching| <= ListLimit then |matching| else ListLimit)
    && multiset(r) <= multiset(matching)
    && (|matching| <= ListLimit ==> multiset(r) == multiset(matching))
    && SortedBy(r, le)
    && (forall y, x :: y in r && x in multiset(matching) - multiset(r) ==> le(y, x))
  }

  /** The first n elements of a sorted sequence come no later than any element left out. */
  lemma LimitKeepsSmallest<T>(sorted: seq<T>, n: nat, le: (T, T) -> bool)
    requires SortedBy(sorted, le)
    ensures forall y, x :: y in Limit(sorted, n) && x in multiset(sorted) - multiset(Limit(sorted, n)) ==> le(y, x)
  {
    var r := Limit(sorted, n);
    if n < |sorted| {
      forall y, x | y in r && x in multiset(sorted) - multiset(r) ensures le(y, x) {
        LeftOutComesLater(sorted, n, le, y, x);
      }
    } else {
      assert multiset(sorted) - multiset(r) == multiset{};
    }
  }

  lemma LeftOutComesLater<T>(sorted: seq<T>, n: nat, le: (T, T) -> bool, y: T, x: T)
    requires SortedBy(sorted, le)
    requires n < |sorted|
    requires y in Limit(sorted, n) && x in multiset(sorted) - multiset(Limit(sorted, n))
    ensures le(y, x)
  {
    var r := Limit(sorted, n);
    var rest := sorted[n..];
    assert sorted == r + rest;
    assert multiset(sorted) == multiset(r) + multiset(rest);
    assert x in multiset(rest);
    var i :| 0 <= i < |r| && r[i] == y;
    var j :| 0 <= j < |rest| && rest[j] == x;
    assert sorted[i] == y && sorted[n + j] == x;
  }

  /** `find(query).sort(key).to_list(1000)`. */
  function SortedListing<T(!new)>(matching: seq<T>, le: (T, T) -> bool): (r: seq<T>)
    requires TotalPreorder(le)
    ensures Listing(r, matching, le)
  {
    var sorted := SortBy(matching, le);
    LimitMultiset(sorted, ListLimit);
    LimitKeepsSmallest(sorted, ListLimit, le);
    Limit(sorted, ListLimit)
  }

  /** The students query of get_students: role student, and the year and section when given. */
  function StudentQuery(year: Option<int>, section: Option<string>): UserDoc -> bool
  {
    (d: UserDoc) =>
      && d.user.base.role == Student
      && (TruthyInt(year) ==> d.user.base.year == year)
      && (TruthyStr(section) ==> d.user.base.section == section)
  }

  /** `sort("roll_number", 1)`: missing roll numbers first, then binary string order. */
  predicate RollNumberOrder(a: User, b: User)
  {
    OptStrLe(a.base.rollNumber, b.base.rollNumber)
  }

  lemma RollNumberOrderTotal()
    ensures TotalPreorder(RollNumberOrder)
  {
    OptStrLeTotalPreorder();
    forall a: User, b: User ensures RollNumberOrder(a, b) || RollNumberOrder(b, a) {
      assert OptStrLe(a.base.rollNumber, b.base.rollNumber) || OptStrLe(b.base.rollNumber, a.base.rollNumber);
    }
    forall a: User, b: User, c: User | RollNumberOrder(a, b) && RollNumberOrder(b, c)
      ensures RollNumberOrder(a, c)
    {
      assert OptStrLe(a.base.rollNumber, b.base.rollNumber) && OptStrLe(b.base.rollNumber, c.base.rollNumber);
    }
  }

  predicate NoticeNewer(a: Notice, b: Notice) { a.createdAt >= b.createdAt }
  predicate RequestNewer(a: Request, b: Request) { a.createdAt >= b.createdAt }
  predicate AttendanceNewer(a: AttendanceRecord, b: AttendanceRecord) { a.createdAt >= b.createdAt }
  predicate MarksNewer(a: MarksRecord, b: MarksRecord) { a.createdAt >= b.createdAt }
  predicate ComplaintNewer(a: Complaint, b: Complaint) { a.createdAt >= b.createdAt }

  /** `{"role_target": {"$in": [role]}}`. */
  function VisibleTo(role: Role): Notice -> bool
  {
    (n: Notice) => RoleName(role) in n.roleTarget
  }

  /** The requests query: a student's own requests, everything for other roles. */
  function RequestsQuery(u: User): Request -> bool
  {
    (q: Request) => u.base.role == Student ==> q.studentId == u.id
  }

  function AttendanceOf(studentId: string): AttendanceRecord -> bool
  {
    (a: AttendanceRecord) => a.studentId == studentId
  }

  function MarksOf(studentId: string): MarksRecord -> bool
  {
    (m: MarksRecord) => m.studentId == studentId
  }

  /** get_all_attendance without year or section: date and subject when given. */
  function AttendanceQuery(date: Option<string>, subject: Option<string>): AttendanceRecord -> bool
  {
    (a: AttendanceRecord) =>
      && (TruthyStr(date) ==> Some(a.date) == date)
      && (TruthyStr(subject) ==> Some(a.subject) == subject)
  }

  /** get_all_marks without year or section: subject and exam type when given. */
  function MarksQuery(subject: Option<string>, examType: Option<string>): MarksRecord -> bool
  {
    (m: MarksRecord) =>
      && (TruthyStr(subject) ==> Some(m.subject) == subject)
      && (TruthyStr(examType) ==> Some(m.examType) == examType)
  }

  // ---------------------------------------------------------------- record construction

  /** The records a batch attendance call inserts: one per entry, in order, sharing the batch's
      subject and date and marked by the caller. */
  ghost predicate AttendanceBatchRecords(records: seq<AttendanceRecord>, batch: BatchAttendanceCreate,
                                         marker: User, ids: seq<string>, now: int)
  {
    && |records| == |batch.studentsStatus| == |ids|
    && forall k :: 0 <= k < |records| ==>
         records[k] == AttendanceRecord(ids[k], batch.studentsStatus[k].studentId,
           batch.studentsStatus[k].studentName, batch.subject, batch.date,
           batch.studentsStatus[k].status, marker.id, marker.base.name, now)
  }

  /** The records a batch marks call inserts: one per entry, sharing subject, maximum and exam
      type, marked by the caller. */
  ghost predicate MarksBatchRecords(records: seq<MarksRecord>, batch: BatchMarksCreate,
                                    marker: User, ids: seq<string>, now: int)
  {
    && |records| == |batch.studentsMarks| == |ids|
    && forall k :: 0 <= k < |records| ==>
         records[k] == MarksRecord(ids[k], batch.studentsMarks[k].studentId,
           batch.studentsMarks[k].studentName, batch.subject, batch.studentsMarks[k].marks,
           batch.maxMarks, batch.examType, marker.id, marker.base.name, now)
  }

  /** The append loop of mark_batch_attendance. */
  method BuildAttendanceRecords(batch: BatchAttendanceCreate, marker: User, ids: seq<string>, now: int)
    returns (records: seq<AttendanceRecord>)
    requires |ids| == |batch.studentsStatus|
    ensures AttendanceBatchRecords(records, batch, marker, ids, now)
  {
    records := [];
    var i := 0;
    while i < |batch.studentsStatus|
      invariant 0 <= i <= |batch.studentsStatus|
      invariant |records| == i
      invariant forall k :: 0 <= k < i ==>
        records[k] == AttendanceRecord(ids[k], batch.studentsStatus[k].studentId,
          batch.studentsStatus[k].studentName, batch.subject, batch.date,
          batch.studentsStatus[k].status, marker.id, marker.base.name, now)
    {
      var entry := batch.studentsStatus[i];
      var record := AttendanceRecord(ids[i], entry.studentId, entry.studentName, batch.subject,
        batch.date, entry.status, marker.id, marker.base.name, now);
      records := records + [record];
      i := i + 1;
    }
  }

  /** The append loop of add_batch_marks. */
  method BuildMarksRecords(batch: BatchMarksCreate, marker: User, ids: seq<string>, now: int)
    returns (records: seq<MarksRecord>)
    requires |ids| == |batch.studentsMarks|
    ensures MarksBatchRecords(records, batch, marker, ids, now)
  {
    records := [];
    var i := 0;
    while i < |batch.studentsMarks|
      invariant 0 <= i <= |batch.studentsMarks|
      invariant |records| == i
      invariant forall k :: 0 <= k < i ==>
        records[k] == MarksRecord(ids[k], batch.studentsMarks[k].studentId,
          batch.studentsMarks[k].studentName, batch.subject, batch.studentsMarks[k].marks,
          batch.maxMarks, batch.examType, marker.id, marker.base.name, now)
    {
      var entry := batch.studentsMarks[i];
      var record := MarksRecord(ids[i], entry.studentId, entry.studentName, batch.subject,
        entry.marks, batch.maxMarks, batch.examType, marker.id, marker.base.name, now);
      records := records + [record];
      i := i + 1;
    }
  }

  /** create_request's document: pending, undecided, owned by the caller, and carrying the
      caller's roll number when the form gave none. */
  function NewRequest(data: RequestCreate, u: User, id: string, now: int): (q: Request)
    ensures q.status == Pending && q.approvedBy.None? && q.approvedByName.None? && q.adminComment.None?
    ensures q.studentId == u.id && q.studentName == u.base.name
    ensures TruthyStr(data.rollNumber) ==> q.rollNumber == data.rollNumber
    ensures !TruthyStr(data.rollNumber) && TruthyStr(u.base.rollNumber) ==> q.rollNumber == u.base.rollNumber
    ensures !TruthyStr(data.rollNumber) && !TruthyStr(u.base.rollNumber) ==> q.rollNumber == data.rollNumber
  {
    var roll := if !TruthyStr(data.rollNumber) && TruthyStr(u.base.rollNumber)
                then u.base.rollNumber else data.rollNumber;
    Request(id, u.id, u.base.name, roll, data.requestType, data.reason, data.startDate,
            data.endDate, Pending, None, None, None, now)
  }

  function DecisionStatus(d: Decision): RequestStatus
  {
    match d
    case Approve => Approved
    case Reject => Rejected
  }

  /** The `$set` of update_request: status, comment and approver; every other field is kept. */
  function Decide(q: Request, upd: RequestUpdate, approver: User): (r: Request)
    ensures r.status != Pending
    ensures (upd.status == Approve ==> r.status == Approved) && (upd.status == Reject ==> r.status == Rejected)
    ensures r.adminComment == upd.adminComment
    ensures r.approvedBy == Some(approver.id) && r.approvedByName == Some(approver.base.name)
    ensures r.id == q.id && r.studentId == q.studentId && r.studentName == q.studentName
    ensures r.rollNumber == q.rollNumber && r.requestType == q.requestType && r.reason == q.reason
    ensures r.startDate == q.startDate && r.endDate == q.endDate && r.createdAt == q.createdAt
  {
    q.(status := DecisionStatus(upd.status), adminComment := upd.adminComment,
       approvedBy := Some(approver.id), approvedByName := Some(approver.base.name))
  }

  /** submit_complaint's document, built from the caller's role and class only. */
  function AnonymousComplaint(u: User, content: string, id: string, now: int): Complaint
  {
    Complaint(id, content, u.base.role, u.base.year, u.base.section, u.base.department, now)
  }

  /** Two callers who share role, year, section and department submit indistinguishable
      complaints: nothing in the complaint identifies the person. */
  lemma ComplaintsAreAnonymous(u1: User, u2: User, content: string, id: string, now: int)
    requires u1.base.role == u2.base.role && u1.base.year == u2.base.year
    requires u1.base.section == u2.base.section && u1.base.department == u2.base.department
    ensures AnonymousComplaint(u1, content, id, now) == AnonymousComplaint(u2, content, id, now)
  {
  }

  // ---------------------------------------------------------------- the database

  class Database {
    var users: seq<UserDoc>
    var otps: map<string, OtpRecord>
    var requests: seq<Request>
    var attendance: seq<AttendanceRecord>
    var marks: seq<MarksRecord>
    var notices: seq<Notice>
    var complaints: seq<Complaint>
    /** bcrypt.hashpw; checkpw succeeds exactly when the hashes agree. */
    const hash: string -> string

    ghost predicate Valid()
      reads this
    {
      EmailsUnique(users)
    }

    constructor (hash: string -> string)
      ensures Valid()
      ensures this.hash == hash
      ensures users == [] && otps == map[] && requests == [] && attendance == []
      ensures marks == [] && notices == [] && complaints == []
    {
      this.hash := hash;
      users, otps, requests, attendance := [], map[], [], [];
      marks, notices, complaints := [], [], [];
    }

    /** POST /auth/send-otp: store a fresh six-digit code for the email, replacing any earlier one. */
    method SendOtp(email: string, digits: seq<nat>, now: int) returns (code: string)
      requires |digits| == OtpLength && forall i :: 0 <= i < |digits| ==> digits[i] < 10
      modifies this`otps
      ensures |code| == OtpLength && forall i :: 0 <= i < |code| ==> IsDigit(code[i])
      ensures otps == old(otps)[email := OtpRecord(code, now)]
    {
      code := OtpFromDigits(digits);
      otps := otps[email := OtpRecord(code, now)];
    }

    /** POST /auth/register. */
    method Register(data: UserCreate, newId: string, now: int) returns (r: Result<User>)
      requires Valid()
      modifies this`users, this`otps
      ensures Valid()
      ensures RegistrationError(old(users), old(otps), data).Some? ==>
        && r == Err(RegistrationError(old(users), old(otps), data).value)
        && users == old(users) && otps == old(otps)
      ensures RegistrationError(old(users), old(otps), data).None? ==>
        && r == Ok(NewUserDoc(data, newId, now, hash).user)
        && users == old(users) + [NewUserDoc(data, newId, now, hash)]
        && otps == if data.base.role == Student then old(otps) - {data.base.email} else old(otps)
    {
      var err := RegistrationError(users, otps, data);
      if err.Some? {
        return Err(err.value);
      }
      RegistrationKeepsEmailsUnique(users, otps, data, newId, now, hash);
      if data.base.role == Student {
        otps := otps - {data.base.email};
      }
      var doc := NewUserDoc(data, newId, now, hash);
      users := users + [doc];
      r := Ok(doc.user);
    }

    /** POST /auth/login: an unknown identifier and a wrong password give the same 401. */
    method Login(req: LoginRequest) returns (r: Result<LoginResponse>)
      ensures LoginTarget(users, req.email).None? ==> r == Err(Unauthorized("Invalid credentials"))
      ensures LoginTarget(users, req.email).Some? ==>
        var d := users[LoginTarget(users, req.email).value];
        && (hash(req.password) != d.passwordHash ==> r == Err(Unauthorized("Invalid credentials")))
        && (hash(req.password) == d.passwordHash ==>
              r == Ok(LoginResponse(Claims(d.user.id, d.user.base.role), d.user)))
    {
      var target := LoginTarget(users, req.email);
      if target.None? {
        return Err(Unauthorized("Invalid credentials"));
      }
      var d := users[target.value];
      if hash(req.password) != d.passwordHash {
        return Err(Unauthorized("Invalid credentials"));
      }
      r := Ok(LoginResponse(Claims(d.user.id, d.user.base.role), d.user));
    }

    /** GET /auth/me. */
    method GetMe(cred: Credential) returns (r: Result<User>)
      ensures Authenticate(users, cred).Err? ==> r == Err(Authenticate(users, cred).error)
      ensures Authenticate(users, cred).Ok? ==> r == Ok(Caller(users, cred))
    {
      var i :- Authenticate(users, cred);
      r := Ok(users[i].user);
    }

    /** PUT /users/me/profile-image: only the caller's profile_image_url changes. */
    method UpdateProfileImage(cred: Credential, url: string) returns (r: Result<User>)
      requires Valid()
      modifies this`users
      ensures Valid()
      ensures Authenticate(old(users), cred).Err? ==>
        r == Err(Authenticate(old(users), cred).error) && users == old(users)
      ensures Authenticate(old(users), cred).Ok? ==>
        var i := Authenticate(old(users), cred).value;
        var updated := old(users)[i].user.(base := old(users)[i].user.base.(profileImageUrl := Some(url)));
        && users == old(users)[i := old(users)[i].(user := updated)]
        && r == Ok(updated)
    {
      var i :- Authenticate(users, cred);
      var u := users[i].user;
      var updated := u.(base := u.base.(profileImageUrl := Some(url)));
      users := users[i := users[i].(user := updated)];
      r := Ok(updated);
    }

    /** GET /students: staff only; the matching students by roll number, without password hashes. */
    method GetStudents(cred: Credential, year: Option<int>, section: Option<string>)
      returns (r: Result<seq<User>>)
      ensures Authenticate(users, cred).Err? ==> r == Err(Authenticate(users, cred).error)
      ensures Authenticate(users, cred).Ok? ==>
        && (!IsStaff(Caller(users, cred).base.role) <==> r.Err?)
        && (r.Err? ==> r.error == Forbidden("Not authorized"))
        && (r.Ok? ==> Listing(r.value, Project(Filter(users, StudentQuery(year, section))), RollNumberOrder))
    {
      var i :- Authenticate(users, cred);
      var denied := Authorize(users[i].user, ListStudents);
      if denied.Some? {
        return Err(denied.value);
      }
      RollNumberOrderTotal();
      r := Ok(SortedListing(Project(Filter(users, StudentQuery(year, section))), RollNumberOrder));
    }

    /** GET /students/{id}/attendance: a student only for their own id; natural order. */
    method GetStudentAttendance(cred: Credential, studentId: string)
      returns (r: Result<seq<AttendanceRecord>>)
      ensures Authenticate(users, cred).Err? ==> r == Err(Authenticate(users, cred).error)
      ensures Authenticate(users, cred).Ok? ==>
        var u := Caller(users, cred);
        && (r.Err? <==> u.base.role == Student && u.id != studentId)
        && (r.Err? ==> r.error == Forbidden("Not authorized"))
        && (r.Ok? ==> r.value == Limit(Filter(attendance, AttendanceOf(studentId)), ListLimit))
    {
      var i :- Authenticate(users, cred);
      var denied := Authorize(users[i].user, ReadStudentRecords(studentId));
      if denied.Some? {
        return Err(denied.value);
      }
      r := Ok(Limit(Filter(attendance, AttendanceOf(studentId)), ListLimit));
    }

    /** GET /students/{id}/marks: a student only for their own id; natural order. */
    method GetStudentMarks(cred: Credential, studentId: string) returns (r: Result<seq<MarksRecord>>)
      ensures Authenticate(users, cred).Err? ==> r == Err(Authenticate(users, cred).error)
      ensures Authenticate(users, cred).Ok? ==>
        var u := Caller(users, cred);
        && (r.Err? <==> u.base.role == Student && u.id != studentId)
        && (r.Err? ==> r.error == Forbidden("Not authorized"))
        && (r.Ok? ==> r.value == Limit(Filter(marks, MarksOf(studentId)), ListLimit))
    {
      var i :- Authenticate(users, cred);
      var denied := Authorize(users[i].user, ReadStudentRecords(studentId));
      if denied.Some? {
        return Err(denied.value);
      }
      r := Ok(Limit(Filter(marks, MarksOf(studentId)), ListLimit));
    }

    /** POST /attendance/batch: faculty only; one record per entry; an empty batch is a 400. */
    method MarkBatchAttendance(cred: Credential, batch: BatchAttendanceCreate, ids: seq<string>, now: int)
      returns (r: Result<nat>)
      requires |ids| == |batch.studentsStatus|
      modifies this`attendance
      ensures Authenticate(users, cred).Err? ==>
        r == Err(Authenticate(users, cred).error) && attendance == old(attendance)
      ensures Authenticate(users, cred).Ok? && Caller(users, cred).base.role != Faculty ==>
        r == Err(Forbidden("Only faculty can mark attendance")) && attendance == old(attendance)
      ensures Authenticate(users, cred).Ok? && Caller(users, cred).base.role == Faculty ==>
        && (batch.studentsStatus == [] ==>
              r == Err(BadRequest("No attendance records provided")) && attendance == old(attendance))
        && (batch.studentsStatus != [] ==>
              && r == Ok(|batch.studentsStatus|)
              && |attendance| == |old(attendance)| + |batch.studentsStatus|
              && attendance[..|old(attendance)|] == old(attendance)
              && AttendanceBatchRecords(attendance[|old(attendance)|..], batch, Caller(users, cred), ids, now))
    {
      var i :- Authenticate(users, cred);
      var u := users[i].user;
      var denied := Authorize(u, WriteAttendance);
      if denied.Some? {
        return Err(denied.value);
      }
      var records := BuildAttendanceRecords(batch, u, ids, now);
      if records == [] {
        return Err(BadRequest("No attendance records provided"));
      }
      attendance := attendance + records;
      assert attendance[|old(attendance)|..] == records;
      r := Ok(|records|);
    }

    /** POST /marks/batch: faculty only; one record per entry; an empty batch is a 400. */
    method AddBatchMarks(cred: Credential, batch: BatchMarksCreate, ids: seq<string>, now: int)
      returns (r: Result<nat>)
      requires |ids| == |batch.studentsMarks|
      modifies this`marks
      ensures Authenticate(users, cred).Err? ==>
        r == Err(Authenticate(users, cred).error) && marks == old(marks)
      ensures Authenticate(users, cred).Ok? && Caller(users, cred).base.role != Faculty ==>
        r == Err(Forbidden("Only faculty can add marks")) && marks == old(marks)
      ensures Authenticate(users, cred).Ok? && Caller(users, cred).base.role == Faculty ==>
        && (batch.studentsMarks == [] ==>
              r == Err(BadRequest("No marks records provided")) && marks == old(marks))
        && (batch.studentsMarks != [] ==>
              && r == Ok(|batch.studentsMarks|)
              && |marks| == |old(marks)| + |batch.studentsMarks|
              && marks[..|old(marks)|] == old(marks)
              && MarksBatchRecords(marks[|old(marks)|..], batch, Caller(users, cred), ids, now))
    {
      var i :- Authenticate(users, cred);
      var u := users[i].user;
      var denied := Authorize(u, WriteMarks);
      if denied.Some? {
        return Err(denied.value);
      }
      var records := BuildMarksRecords(batch, u, ids, now);
      if records == [] {
        return Err(BadRequest("No marks records provided"));
      }
      marks := marks + records;
      assert marks[|old(marks)|..] == records;
      r := Ok(|records|);
    }

    /** POST /attendance: faculty only; one record, marked by the caller. */
    method MarkAttendance(cred: Credential, data: AttendanceCreate, id: string, now: int)
      returns (r: Result<AttendanceRecord>)
      modifies this`attendance
      ensures r.Err? ==> attendance == old(attendance)
      ensures Authenticate(users, cred).Err? ==> r == Err(Authenticate(users, cred).error)
      ensures Authenticate(users, cred).Ok? ==>
        var u := Caller(users, cred);
        && (u.base.role != Faculty ==> r == Err(Forbidden("Only faculty can mark attendance")))
        && (u.base.role == Faculty ==>
              && r == Ok(AttendanceRecord(id, data.studentId, data.studentName, data.subject,
                           data.date, data.status, u.id, u.base.name, now))
              && attendance == old(attendance) + [r.value])
    {
      var i :- Authenticate(users, cred);
      var u := users[i].user;
      var denied := Authorize(u, WriteAttendance);
      if denied.Some? {
        return Err(denied.value);
      }
      var record := AttendanceRecord(id, data.studentId, data.studentName, data.subject,
        data.date, data.status, u.id, u.base.name, now);
      attendance := attendance + [record];
      r := Ok(record);
    }

    /** POST /marks: faculty only; one record, marked by the caller. */
    method AddMarks(cred: Credential, data: MarksCreate, id: string, now: int)
      returns (r: Result<MarksRecord>)
      modifies this`marks
      ensures r.Err? ==> marks == old(marks)
      ensures Authenticate(users, cred).Err? ==> r == Err(Authenticate(users, cred).error)
      ensures Authenticate(users, cred).Ok? ==>
        var u := Caller(users, cred);
        && (u.base.role != Faculty ==> r == Err(Forbidden("Only faculty can add marks")))
        && (u.base.role == Faculty ==>
              && r == Ok(MarksRecord(id, data.studentId, data.studentName, data.subject,
                           data.marks, data.maxMarks, data.examType, u.id, u.base.name, now))
              && marks == old(marks) + [r.value])
    {
      var i :- Authenticate(users, cred);
      var u := users[i].user;
      var denied := Authorize(u, WriteMarks);
      if denied.Some? {
        return Err(denied.value);
      }
      var record := MarksRecord(id, data.studentId, data.studentName, data.subject,
        data.marks, data.maxMarks, data.examType, u.id, u.base.name, now);
      marks := marks + [record];
      r := Ok(record);
    }

    /** GET /attendance without year or section: staff only, newest first. */
    method GetAllAttendance(cred: Credential, date: Option<string>, subject: Option<string>)
      returns (r: Result<seq<AttendanceRecord>>)
      ensures Authenticate(users, cred).Err? ==> r == Err(Authenticate(users, cred).error)
      ensures Authenticate(users, cred).Ok? ==>
        && (!IsStaff(Caller(users, cred).base.role) <==> r.Err?)
        && (r.Err? ==> r.error == Forbidden("Not authorized"))
        && (r.Ok? ==> Listing(r.value, Filter(attendance, AttendanceQuery(date, subject)), AttendanceNewer))
    {
      var i :- Authenticate(users, cred);
      var denied := Authorize(users[i].user, ListAttendance);
      if denied.Some? {
        return Err(denied.value);
      }
      r := Ok(SortedListing(Filter(attendance, AttendanceQuery(date, subject)), AttendanceNewer));
    }

    /** GET /marks without year or section: staff only, newest first. */
    method GetAllMarks(cred: Credential, subject: Option<string>, examType: Option<string>)
      returns (r: Result<seq<MarksRecord>>)
      ensures Authenticate(users, cred).Err? ==> r == Err(Authenticate(users, cred).error)
      ensures Authenticate(users, cred).Ok? ==>
        && (!IsStaff(Caller(users, cred).base.role) <==> r.Err?)
        && (r.Err? ==> r.error == Forbidden("Not authorized"))
        && (r.Ok? ==> Listing(r.value, Filter(marks, MarksQuery(subject, examType)), MarksNewer))
    {
      var i :- Authenticate(users, cred);
      var denied := Authorize(users[i].user, ListMarks);
      if denied.Some? {
        return Err(denied.value);
      }
      r := Ok(SortedListing(Filter(marks, MarksQuery(subject, examType)), MarksNewer));
    }

    /** POST /notices: staff only; posted by the caller. */
    method CreateNotice(cred: Credential, data: NoticeCreate, id: string, now: int)
      returns (r: Result<Notice>)
      modifies this`notices
      ensures r.Err? ==> notices == old(notices)
      ensures Authenticate(users, cred).Err? ==> r == Err(Authenticate(users, cred).error)
      ensures Authenticate(users, cred).Ok? ==>
        var u := Caller(users, cred);
        && (!IsStaff(u.base.role) ==> r == Err(Forbidden("Only faculty and admin can post notices")))
        && (IsStaff(u.base.role) ==>
              && r == Ok(Notice(id, data.title, data.content, u.id, u.base.name, data.roleTarget, now))
              && notices == old(notices) + [r.value])
    {
      var i :- Authenticate(users, cred);
      var u := users[i].user;
      var denied := Authorize(u, PostNotice);
      if denied.Some? {
        return Err(denied.value);
      }
      var notice := Notice(id, data.title, data.content, u.id, u.base.name, data.roleTarget, now);
      notices := notices + [notice];
      r := Ok(notice);
    }

    /** GET /notices: exactly the notices addressed to the caller's role, newest first. */
    method GetNotices(cred: Credential) returns (r: Result<seq<Notice>>)
      ensures Authenticate(users, cred).Err? ==> r == Err(Authenticate(users, cred).error)
      ensures Authenticate(users, cred).Ok? ==>
        r.Ok? && Listing(r.value, Filter(notices, VisibleTo(Caller(users, cred).base.role)), NoticeNewer)
    {
      var i :- Authenticate(users, cred);
      r := Ok(SortedListing(Filter(notices, VisibleTo(users[i].user.base.role)), NoticeNewer));
    }

    /** POST /requests: students only; a pending request in the caller's name. */
    method CreateRequest(cred: Credential, data: RequestCreate, id: string, now: int)
      returns (r: Result<Request>)
      modifies this`requests
      ensures r.Err? ==> requests == old(requests)
      ensures Authenticate(users, cred).Err? ==> r == Err(Authenticate(users, cred).error)
      ensures Authenticate(users, cred).Ok? ==>
        var u := Caller(users, cred);
        && (u.base.role != Student ==> r == Err(Forbidden("Only students can create requests")))
        && (u.base.role == Student ==>
              r == Ok(NewRequest(data, u, id, now)) && requests == old(requests) + [r.value])
    {
      var i :- Authenticate(users, cred);
      var u := users[i].user;
      var denied := Authorize(u, SubmitRequest);
      if denied.Some? {
        return Err(denied.value);
      }
      var request := NewRequest(data, u, id, now);
      requests := requests + [request];
      r := Ok(request);
    }

    /** GET /requests: a student sees only their own requests, other roles see all; newest first. */
    method GetRequests(cred: Credential) returns (r: Result<seq<Request>>)
      ensures Authenticate(users, cred).Err? ==> r == Err(Authenticate(users, cred).error)
      ensures Authenticate(users, cred).Ok? ==>
        r.Ok? && Listing(r.value, Filter(requests, RequestsQuery(Caller(users, cred))), RequestNewer)
    {
      var i :- Authenticate(users, cred);
      r := Ok(SortedListing(Filter(requests, RequestsQuery(users[i].user)), RequestNewer));
    }

    /** PUT /requests/{id}: staff only; decides the first request with that id; 404 when none. */
    method UpdateRequest(cred: Credential, requestId: string, upd: RequestUpdate)
      returns (r: Result<Request>)
      modifies this`requests
      ensures r.Err? ==> requests == old(requests)
      ensures Authenticate(users, cred).Err? ==> r == Err(Authenticate(users, cred).error)
      ensures Authenticate(users, cred).Ok? ==>
        var u := Caller(users, cred);
        var found := FindFirst(old(requests), (q: Request) => q.id == requestId);
        && (!IsStaff(u.base.role) ==> r == Err(Forbidden("Only faculty and admin can update requests")))
        && (IsStaff(u.base.role) && found.None? ==> r == Err(NotFound("Request not found")))
        && (IsStaff(u.base.role) && found.Some? ==>
              && r == Ok(Decide(old(requests)[found.value], upd, u))
              && requests == old(requests)[found.value := r.value])
    {
      var i :- Authenticate(users, cred);
      var u := users[i].user;
      var denied := Authorize(u, DecideRequest);
      if denied.Some? {
        return Err(denied.value);
      }
      var found := FindFirst(requests, (q: Request) => q.id == requestId);
      if found.None? {
        return Err(NotFound("Request not found"));
      }
      var decided := Decide(requests[found.value], upd, u);
      requests := requests[found.value := decided];
      r := Ok(decided);
    }

    /** POST /complaints: any authenticated user; stored without the submitter's identity. */
    method SubmitComplaint(cred: Credential, content: string, id: string, now: int)
      returns (r: Result<Complaint>)
      modifies this`complaints
      ensures Authenticate(users, cred).Err? ==>
        r == Err(Authenticate(users, cred).error) && complaints == old(complaints)
      ensures Authenticate(users, cred).Ok? ==>
        && r == Ok(AnonymousComplaint(Caller(users, cred), content, id, now))
        && complaints == old(complaints) + [r.value]
    {
      var i :- Authenticate(users, cred);
      var complaint := AnonymousComplaint(users[i].user, content, id, now);
      complaints := complaints + [complaint];
      r := Ok(complaint);
    }

    /** GET /complaints: staff only, newest first. */
    method GetComplaints(cred: Credential) returns (r: Result<seq<Complaint>>)
      ensures Authenticate(users, cred).Err? ==> r == Err(Authenticate(users, cred).error)
      ensures Authenticate(users, cred).Ok? ==>
        && (!IsStaff(Caller(users, cred).base.role) <==> r.Err?)
        && (r.Err? ==> r.error == Forbidden("Not authorized to view complaints"))
        && (r.Ok? ==> Listing(r.value, complaints, ComplaintNewer))
    {
      var i :- Authenticate(users, cred);
      var denied := Authorize(users[i].user, ListComplaints);
      if denied.Some? {
        return Err(denied.value);
      }
      r := Ok(SortedListing(complaints, ComplaintNewer));
    }

    /** GET /admin/analytics, without the per-section averages: admin only. */
    method GetAnalytics(cred: Credential) returns (r: Result<AnalyticsCounts>)
      ensures Authenticate(users, cred).Err? ==> r == Err(Authenticate(users, cred).error)
      ensures Authenticate(users, cred).Ok? ==>
        && (Caller(users, cred).base.role != Admin <==> r.Err?)
        && (r.Err? ==> r.error == Forbidden("Only admin can access analytics"))
        && (r.Ok? ==>
              && r.value.totalStudents == |Filter(users, (d: UserDoc) => d.user.base.role == Student)|
              && r.value.totalFaculty == |Filter(users, (d: UserDoc) => d.user.base.role == Faculty)|
              && r.value.pendingRequests == |Filter(requests, (q: Request) => q.status == Pending)|
              && r.value.totalNotices == |notices|)
    {
      var i :- Authenticate(users, cred);
      var denied := Authorize(users[i].user, ViewAnalytics);
      if denied.Some? {
        return Err(denied.value);
      }
      var isStudent := (d: UserDoc) => d.user.base.role == Student;
      var isFaculty := (d: UserDoc) => d.user.base.role == Faculty;
      var isPending := (q: Request) => q.status == Pending;
      CountWhereIsFilterLength(users, isStudent);
      CountWhereIsFilterLength(users, isFaculty);
      CountWhereIsFilterLength(requests, isPending);
      r := Ok(AnalyticsCounts(CountWhere(users, isStudent), CountWhere(users, isFaculty),
                              CountWhere(requests, isPending), |notices|));
    }

    /** GET /users: admin only; every user, without password hashes, in natural order. */
    method GetAllUsers(cred: Credential) returns (r: Result<seq<User>>)
      ensures Authenticate(users, cred).Err? ==> r == Err(Authenticate(users, cred).error)
      ensures Authenticate(users, cred).Ok? ==>
        && (Caller(users, cred).base.role != Admin <==> r.Err?)
        && (r.Err? ==> r.error == Forbidden("Only admin can access all users"))
        && (r.Ok? ==> r.value == Limit(Project(users), ListLimit))
    {
      var i :- Authenticate(users, cred);
      var denied := Authorize(users[i].user, ListUsers);
      if denied.Some? {
        return Err(denied.value);
      }
      r := Ok(Limit(Project(users), ListLimit));
    }
  }
}
