/** The documents the backend stores and the client receives as JSON (the pydantic models of
    backend/server.py). Timestamps are integers; ids are the uuid4 strings the server draws. */
module Records {
  import opened Common
  import opened Seqs

  datatype Role = Student | Faculty | Admin

  /** The role as it travels in JSON and in `role_target` lists. */
  function RoleName(r: Role): (s: string)
    ensures s in {"student", "faculty", "admin"}
  {
    match r
    case Student => "student"
    case Faculty => "faculty"
    case Admin => "admin"
  }

  lemma RoleNameInjective(a: Role, b: Role)
    requires RoleName(a) == RoleName(b)
    ensures a == b
  {
  }

  /** The fields a user supplies at registration (UserBase). */
  datatype UserBase = UserBase(
    email: string,
    name: string,
    role: Role,
    backgroundImageUrl: Option<string>,
    profileImageUrl: Option<string>,
    department: Option<string>,
    year: Option<int>,
    section: Option<string>,
    rollNumber: Option<string>,
    employeeId: Option<string>,
    mobileNumber: Option<string>)

  /** A user as the API returns it: never with a password hash. */
  datatype User = User(id: string, base: UserBase, createdAt: int)

  datatype AttendanceStatus = Present | Absent

  datatype AttendanceRecord = AttendanceRecord(
    id: string,
    studentId: string,
    studentName: string,
    subject: string,
    date: string,
    status: AttendanceStatus,
    markedBy: string,
    markedByName: string,
    createdAt: int)

  datatype MarksRecord = MarksRecord(
    id: string,
    studentId: string,
    studentName: string,
    subject: string,
    marks: real,
    maxMarks: real,
    examType: string,
    markedBy: string,
    markedByName: string,
    createdAt: int)

  datatype Notice = Notice(
    id: string,
    title: string,
    content: string,
    postedBy: string,
    postedByName: string,
    roleTarget: seq<string>,
    createdAt: int)

  datatype RequestType = OnDuty | Leave | Grievance | Certificate

  datatype RequestStatus = Pending | Approved | Rejected

  datatype Request = Request(
    id: string,
    studentId: string,
    studentName: string,
    rollNumber: Option<string>,
    requestType: RequestType,
    reason: string,
    startDate: Option<string>,
    endDate: Option<string>,
    status: RequestStatus,
    approvedBy: Option<string>,
    approvedByName: Option<string>,
    adminComment: Option<string>,
    createdAt: int)

  /** An anonymous complaint: it records the submitter's role and class, not who they are. */
  datatype Complaint = Complaint(
    id: string,
    content: string,
    submittedByRole: Role,
    year: Option<int>,
    section: Option<string>,
    department: Option<string>,
    createdAt: int)

  // ---------------------------------------------------------------- projections

  /** `records.map(r => r.subject)` over attendance records. */
  function AttendanceSubjects(records: seq<AttendanceRecord>): seq<string>
  {
    Map(records, (a: AttendanceRecord) => a.subject)
  }

  /** `records.map(r => r.subject)` over marks records. */
  function MarksSubjects(records: seq<MarksRecord>): seq<string>
  {
    Map(records, (m: MarksRecord) => m.subject)
  }

  /** `records.map(r => r.exam_type)`. */
  function ExamTypes(records: seq<MarksRecord>): seq<string>
  {
    Map(records, (m: MarksRecord) => m.examType)
  }
}
