# Campus portal: backend rules and dashboard logic in Dafny

This project models a college portal with three roles: student, faculty and admin. It covers the
FastAPI backend and the three React pages that hold the portal's logic.

- **Backend.** Registration, one-time passwords and login. The role gates on every endpoint. Leave and
  other requests with their approve/reject decision. Batch attendance and marks. Notice visibility.
  Anonymous complaints.
- **Student dashboard.** The all-or-nothing data load. The notice-seen tracker, a per-user cursor in
  `localStorage`. The per-subject attendance counts. The profile-update payload.
- **Faculty dashboard.** The subject and exam-type option lists. The student filter and sort. The
  default-present status map and the empty marks map. Single-key edits. The rules that decide whether a
  batch is refused, posted or thrown.
- **Login page.** The role-to-dashboard redirect, the OTP send and its 30-second resend cooldown, the
  roll-number input and pattern, the register payload shaped by role, and what success and failure do
  to the form.

Modules:

| file | module | contents |
|---|---|---|
| `common.dfy` | `Common` | `Option`, the `Reply` of an HTTP call, character classes, upper/lower case, decimal spelling |
| `seqs.dfy` | `Seqs` | filter, count, limit, first-occurrence `Distinct` |
| `sorting.dfy` | `Sorting` | an insertion sort over any total preorder, proved sorted and a permutation; MongoDB's string order |
| `jsobjects.dfy` | `JsObjects` | a JavaScript object as an insertion-ordered list of key/value pairs |
| `records.dfy` | `Records` | the documents exchanged by backend and frontend |
| `auth.dfy` | `Auth` | the session the pages share (token and user) |
| `server.dfy` | `Server` | the MongoDB collections as fields of class `Database`, one method per endpoint |
| `studentdashboard.dfy` | `StudentDashboard` | `localStorage`, the tracker, the attendance fold, class `Page` |
| `facultydashboard.dfy` | `FacultyDashboard` | option lists, filter, payload rules, class `Page` |
| `login.dfy` | `LoginPage` | redirect, cooldown, roll-number rules, register payload, class `Page` |

The backend's collections are the fields of `Server.Database`. Each endpoint is a method that names
the collections it may change. Each method's postcondition states the new collections and the
response in terms of pure functions. Examples are `RegistrationError`, `LoginTarget`, `Authorize`,
`NewRequest`, `Decide` and the batch-record predicates. The lemmas beside those functions state the
role gates, single-use OTPs, unambiguous login and complaint anonymity.

The three pages follow the same pattern. A page is a class whose fields are its React state. Each
handler is a method with one reply parameter per HTTP call, and it is proved against pure functions
of the form's old state.

Environment inputs the code draws on are passed in as parameters:

- the clock;
- `uuid4` ids;
- the OTP's random digits;
- the server's replies;
- the browser's `Notification.permission`;
- `localeCompare`, as an abstract total preorder.

## Model

| member | source | states |
|---|---|---|
| Server.Authenticate | backend/server.py:223-242 | a token resolves to the first stored user with the token's subject; an expired, undecodable or subject-less token, or one naming no user, is a 401 |
| Server.Authorize | backend/server.py:393-836 | the role gate at the head of each endpoint; a refusal is always a 403 |
| Server.StudentsReadOnlyOwnRecords | backend/server.py:415-417 | a caller may read a student's attendance and marks iff the caller is staff or is that student |
| Server.ListingsNeedStaff | backend/server.py:399-400 | listing students, all attendance, all marks or complaints is allowed iff the caller is faculty or admin |
| Server.OnlyFacultyRecordsAttendanceAndMarks | backend/server.py:439-440 | writing attendance or marks is allowed iff the caller is faculty |
| Server.RequestGates | backend/server.py:675-676 | only students may create requests, and only non-students may decide them |
| Server.RegistrationError | backend/server.py:306-330 | registration is refused with a 400 iff the password is short, the email is taken, an admin's employee id is not "9", a faculty id is outside the fixed list, or a student's OTP is missing or wrong; each check wins over the later ones, and each refusal carries its own detail ("Password must be at least 8 characters long", "Email already registered", "Invalid employee ID" for either staff role, "OTP is required for student registration", "Invalid or expired OTP") |
| Server.RegistrationKeepsEmailsUnique | backend/server.py:309-311 | an accepted registration leaves every stored email distinct |
| Server.NewUserDoc | backend/server.py:332-340 | the stored document is the submitted profile with the given id, and the password only as its hash |
| Server.OtpSingleUse | backend/server.py:319-330 | after a student registers, the consumed OTP no longer registers the same email and the email is taken anyway |
| Server.OtpFromDigits | backend/server.py:285 | the OTP is six decimal digits |
| Server.LatestOtpWins | backend/server.py:288-290 | after two sends for one email only the second code is accepted |
| Server.LoginTarget | backend/server.py:348-355 | login looks for the first user with the email and, only when none has it, the first with that roll number |
| Server.LoginByEmailIsUnambiguous | backend/server.py:348 | with unique emails, a user's email always logs in as that user |
| Server.Project | backend/server.py:408 | a listing drops password hashes and keeps every user, in order |
| Server.SortedListing | backend/server.py:408 | a listing is sorted by its key, holds at most 1000 of the matching documents, holds all of them when there are no more than 1000, and otherwise keeps the first 1000 in key order: every kept document sorts no later than every left-out match |
| Server.LimitKeepsSmallest | backend/server.py:408 | cutting a sorted list at n keeps the smallest: every kept element sorts no later than every dropped one |
| Server.RollNumberOrderTotal | backend/server.py:408 | sorting by roll number, missing ones first, is a total preorder |
| Server.BuildAttendanceRecords | backend/server.py:442-455 | one record per entry, in order, each with the entry's student and status and the batch's subject, date, marker and timestamp |
| Server.BuildMarksRecords | backend/server.py:468-482 | one record per entry, in order, each with the entry's student and mark and the batch's subject, maximum, exam type, marker and timestamp |
| Server.NewRequest | backend/server.py:678-686 | a new request is pending and undecided, owned by the caller, and carries the given roll number or else the caller's |
| Server.Decide | backend/server.py:712-720 | a decided request is approved or rejected as asked, carries the comment and the approver, and keeps every other field |
| Server.ComplaintsAreAnonymous | backend/server.py:731-745 | two callers who share role, year, section and department produce the same complaint document |
| Auth.Session.Login | frontend/src/pages/Login.js:110 | token and user are stored together |
| Auth.Session.Logout | frontend/src/pages/FacultyDashboard.js:402-404 | token and user are cleared together |
| Server.Database.constructor | backend/server.py:25-28 | every collection starts empty |
| Server.Database.SendOtp | backend/server.py:280-301 | the email's OTP record is replaced by a fresh six-digit code; other emails keep theirs |
| Server.Database.Register | backend/server.py:304-343 | a refused registration changes nothing; an accepted one appends exactly one user, deletes a student's OTP, and keeps emails unique |
| Server.Database.Login | backend/server.py:345-367 | an unknown identifier and a wrong password both give 401 "Invalid credentials"; success returns the target's claims and the user without its hash |
| Server.Database.GetMe | backend/server.py:369-371 | the authenticated caller, or the authentication error |
| Server.Database.UpdateProfileImage | backend/server.py:373-390 | only the caller's image URL changes |
| Server.Database.GetStudents | backend/server.py:393-412 | staff only; the students matching year and section, sorted by roll number, the first 1000 in that order, without hashes |
| Server.Database.GetStudentAttendance | backend/server.py:414-423 | a student's own records, or anyone's for staff; otherwise 403 |
| Server.Database.GetStudentMarks | backend/server.py:425-434 | a student's own marks, or anyone's for staff; otherwise 403 |
| Server.Database.MarkBatchAttendance | backend/server.py:437-461 | faculty only; an empty batch is a 400 and inserts nothing; otherwise exactly the batch's records are appended |
| Server.Database.AddBatchMarks | backend/server.py:463-488 | faculty only; an empty batch is a 400 and inserts nothing; otherwise exactly the batch's records are appended |
| Server.Database.MarkAttendance | backend/server.py:490-505 | faculty only; one record marked by the caller is appended |
| Server.Database.AddMarks | backend/server.py:566-581 | faculty only; one record marked by the caller is appended |
| Server.Database.GetAllAttendance | backend/server.py:507-525 | staff only; the records matching date and subject, newest first, the 1000 newest when there are more |
| Server.Database.GetAllMarks | backend/server.py:583-601 | staff only; the records matching subject and exam type, newest first, the 1000 newest when there are more |
| Server.Database.CreateNotice | backend/server.py:643-658 | staff only; one notice posted by the caller is appended |
| Server.Database.GetNotices | backend/server.py:660-670 | only notices addressed to the caller's role, newest first, the 1000 newest when there are more, all of them otherwise |
| Server.Database.CreateRequest | backend/server.py:673-692 | students only; the new request is appended |
| Server.Database.GetRequests | backend/server.py:694-705 | a student gets only their own requests, other roles any request; newest first, the 1000 newest when there are more, all matching ones otherwise |
| Server.Database.UpdateRequest | backend/server.py:707-728 | staff only; an unknown id is a 404 and changes nothing; otherwise only the first request with that id is decided |
| Server.Database.SubmitComplaint | backend/server.py:731-745 | any authenticated caller; the complaint is stored without the caller's identity |
| Server.Database.GetComplaints | backend/server.py:747-756 | staff only; complaints newest first, the 1000 newest when there are more, all of them otherwise |
| Server.Database.GetAnalytics | backend/server.py:759-768 | admin only; the counts of students, faculty, pending requests and notices |
| Server.Database.GetAllUsers | backend/server.py:827-836 | admin only; the first 1000 users in natural order, without hashes |
| Common.NatToDecimal | frontend/src/pages/StudentDashboard.js:90 | `String(n)` of a natural number: digits only, no leading zero, and its digits spell n |
| Common.IntToDecimal | frontend/src/pages/StudentDashboard.js:90 | `String(i)`: a decimal parse of the spelling gives i back |
| Records.RoleNameInjective | backend/server.py:44 | distinct roles have distinct names |
| StudentDashboard.StorageKeyInjective | frontend/src/pages/StudentDashboard.js:100 | different users have different cursor keys |
| StudentDashboard.RaisesAlert | frontend/src/pages/StudentDashboard.js:98-103 | no alert for an empty list; with a head, an alert iff the stored cursor is missing or differs from the head's id |
| StudentDashboard.CursorAfter | frontend/src/pages/StudentDashboard.js:97-115 | without an alert the store is untouched; after a non-empty list the cursor holds the head's id; no other key changes |
| StudentDashboard.TrackerIdempotent | frontend/src/pages/StudentDashboard.js:99-105 | once a list is seen, any list with the same head raises nothing and writes nothing |
| StudentDashboard.OnlyHeadConsidered | frontend/src/pages/StudentDashboard.js:99 | two lists with the same head (or both empty) are treated alike |
| StudentDashboard.CursorsArePerUser | frontend/src/pages/StudentDashboard.js:100-105 | one user's tracker never touches another user's cursor |
| StudentDashboard.LocalStorage.SetItem | frontend/src/pages/StudentDashboard.js:105 | exactly one key is written |
| StudentDashboard.AttendanceBySubject | frontend/src/pages/StudentDashboard.js:191-200 | one counter per subject in first-occurrence order, each holding that subject's total and present records |
| StudentDashboard.CountRecordStep | frontend/src/pages/StudentDashboard.js:192-198 | one step of the fold keeps every counter exact |
| StudentDashboard.PresentAtMostTotal | frontend/src/pages/StudentDashboard.js:191-200 | a subject's present count never exceeds its total |
| StudentDashboard.SubjectAbsent | frontend/src/pages/StudentDashboard.js:191-200 | a subject no record carries has zero counts |
| StudentDashboard.TotalsSumToLength | frontend/src/pages/StudentDashboard.js:191-200 | the per-subject totals add up to the number of records |
| StudentDashboard.EditFormFrom | frontend/src/pages/StudentDashboard.js:86-95 | the form shows the user's year in decimal, or "" when it is missing or 0 |
| StudentDashboard.ProfilePayloadOf | frontend/src/pages/StudentDashboard.js:168-175 | the year is sent as the parse of the field, or null iff the field is empty; the other fields as typed |
| StudentDashboard.UntouchedFormKeepsYear | frontend/src/pages/StudentDashboard.js:86-95 | saving an untouched form sends the year as the decimal spelling of the user's year, which a decimal parse reads back as that year; null when the user has no year or a year of 0 |
| StudentDashboard.Page.constructor | frontend/src/pages/StudentDashboard.js:27-51 | the page starts loading, with empty lists and an empty form |
| StudentDashboard.Page.LoadData | frontend/src/pages/StudentDashboard.js:53-72 | the four lists change together only when all four reads succeed; loading ends either way |
| StudentDashboard.Page.RequestPermissionOnMount | frontend/src/pages/StudentDashboard.js:80-84 | permission is asked for only while it is "default" |
| StudentDashboard.Page.OnUserChanged | frontend/src/pages/StudentDashboard.js:86-95 | a signed-in user's profile refills the edit form |
| StudentDashboard.Page.OnNoticesChanged | frontend/src/pages/StudentDashboard.js:97-115 | the store becomes the tracker's; on an alert the panel opens and a toast shows, and a system notification shows iff permission is granted; without an alert nothing happens |
| StudentDashboard.Page.Poll | frontend/src/pages/StudentDashboard.js:74-78 | a reload followed by the tracker on the resulting list |
| StudentDashboard.Page.HandleProfileUpdate | frontend/src/pages/StudentDashboard.js:164-181 | the payload is the shaped form; on success the server's user replaces the session's under the same token |
| StudentDashboard.Page.HandleProfileImageUpdate | frontend/src/pages/StudentDashboard.js:148-162 | on success the server's user replaces the session's under the same token; on failure the session is kept |
| FacultyDashboard.UniqueNonEmpty | frontend/src/pages/FacultyDashboard.js:116 | the option list has no duplicates and holds exactly the non-empty values |
| FacultyDashboard.UniqueNonEmptyOrder | frontend/src/pages/FacultyDashboard.js:116 | the options are in first-occurrence order |
| FacultyDashboard.KeepOrFirst | frontend/src/pages/FacultyDashboard.js:117-126 | a non-empty selection is kept; otherwise it becomes the first option, or "" |
| FacultyDashboard.SelectionIsAnOption | frontend/src/pages/FacultyDashboard.js:117-126 | a fresh selection is always one of the options |
| FacultyDashboard.FilteredStudents | frontend/src/pages/FacultyDashboard.js:436-445 | the kept students, sorted by roll number with a missing one as "" |
| FacultyDashboard.Page.VisibleStudents | frontend/src/pages/FacultyDashboard.js:436-445 | the table shows the fetched students whose year, section and roll number match the page's filters, sorted by roll number |
| FacultyDashboard.FilteredStudentsMembers | frontend/src/pages/FacultyDashboard.js:437-443 | a student is listed iff year, section and case-insensitive roll-number search all match |
| FacultyDashboard.NoFilterKeepsEveryone | frontend/src/pages/FacultyDashboard.js:437-443 | with every filter empty or "all", every student is listed |
| FacultyDashboard.SearchFindsOwnRollNumber | frontend/src/pages/FacultyDashboard.js:441-442 | searching for a student's own roll number keeps that student |
| FacultyDashboard.PresentAbsentPartition | frontend/src/pages/FacultyDashboard.js:407-408 | every record lands in exactly one of the present and absent lists |
| FacultyDashboard.PresentStudents | frontend/src/pages/FacultyDashboard.js:407 | a record is listed as present iff it is one of the records and its status is present |
| FacultyDashboard.AbsentStudents | frontend/src/pages/FacultyDashboard.js:408 | a record is listed as absent iff it is one of the records and its status is absent |
| FacultyDashboard.PresentAbsentInOrder | frontend/src/pages/FacultyDashboard.js:407-408 | both lists keep the records' order: appending a record appends it to exactly the list its status names |
| FacultyDashboard.InitialMap | frontend/src/pages/FacultyDashboard.js:256-259 | the map has exactly the fetched ids as keys, each set to the given value |
| FacultyDashboard.StatusEntries | frontend/src/pages/FacultyDashboard.js:284-291 | one line per key, in key order, with the key's status and the name of the first fetched student with that id; none iff some key has no such student |
| FacultyDashboard.AttendancePayload | frontend/src/pages/FacultyDashboard.js:284-297 | one entry per key of the status map, in key order, with that student's id, name and status, and the shared subject and date |
| FacultyDashboard.FreshAttendanceFormMarksEveryonePresent | frontend/src/pages/FacultyDashboard.js:256-297 | an untouched form posts every fetched student as present |
| FacultyDashboard.MarkedStudents | frontend/src/pages/FacultyDashboard.js:354-355 | a fetched student is kept iff their mark is present and non-empty |
| FacultyDashboard.MarkedStudentsInOrder | frontend/src/pages/FacultyDashboard.js:354-355 | the kept students stay in fetched order: appending a student appends them iff their mark is present and non-empty |
| FacultyDashboard.MarksEntries | frontend/src/pages/FacultyDashboard.js:354-360 | exactly the students with a non-empty mark, in fetched order |
| FacultyDashboard.FreshMarksFormIsRefused | frontend/src/pages/FacultyDashboard.js:326-365 | an untouched marks form is refused as having no marks |
| FacultyDashboard.AttendanceSubmission | frontend/src/pages/FacultyDashboard.js:275-297 | refused iff there are no students or no subject; otherwise posted, or thrown iff a key names no fetched student |
| FacultyDashboard.MarksSubmission | frontend/src/pages/FacultyDashboard.js:345-372 | refused iff there are no students, a field is empty, or no mark was entered; otherwise the payload of the marked students |
| FacultyDashboard.Page.constructor | frontend/src/pages/FacultyDashboard.js:39-56 | empty lists and forms, today's date, maximum marks "100" |
| FacultyDashboard.Page.ShowOptions | frontend/src/pages/FacultyDashboard.js:116-126 | the option lists and the kept-or-first selections |
| FacultyDashboard.Page.LoadData | frontend/src/pages/FacultyDashboard.js:98-133 | all six lists and the options change together only when all six reads succeed |
| FacultyDashboard.Page.FetchAttendanceStudents | frontend/src/pages/FacultyDashboard.js:244-267 | no request without year and section; on success the sorted class and an all-present status map |
| FacultyDashboard.Page.HandleAttendanceStatusChange | frontend/src/pages/FacultyDashboard.js:269-271 | exactly one key changes |
| FacultyDashboard.Page.ClearAttendanceForm | frontend/src/pages/FacultyDashboard.js:303-309 | the dialog closes and its fields return to their initial values |
| FacultyDashboard.Page.ClearMarksForm | frontend/src/pages/FacultyDashboard.js:378-385 | the dialog closes and its fields return to their initial values, maximum back to "100" |
| FacultyDashboard.Page.HandleBatchAttendanceSubmit | frontend/src/pages/FacultyDashboard.js:273-313 | the outcome is the submission rule; the form resets only after the server accepted it |
| FacultyDashboard.Page.FetchMarksStudents | frontend/src/pages/FacultyDashboard.js:315-337 | no request without year and section; on success the sorted class and an empty mark for everyone |
| FacultyDashboard.Page.HandleMarksChange | frontend/src/pages/FacultyDashboard.js:339-341 | exactly one key changes |
| FacultyDashboard.Page.HandleBatchMarksSubmit | frontend/src/pages/FacultyDashboard.js:343-389 | the outcome is the submission rule; the form resets only after the server accepted it |
| LoginPage.ErrorText | frontend/src/pages/Login.js:117 | the server's detail when it is non-empty, else the fallback |
| LoginPage.RouteFor | frontend/src/pages/Login.js:71-77 | student, faculty and admin each lead to their dashboard; any other role leads nowhere |
| LoginPage.EveryRoleHasItsOwnDashboard | frontend/src/pages/Login.js:113-115 | every role has a dashboard and distinct roles have distinct ones |
| LoginPage.Redirect | frontend/src/pages/Login.js:71-77 | a signed-in user is sent to their dashboard, replacing the history entry |
| LoginPage.Tick | frontend/src/pages/Login.js:79-84 | a positive cooldown drops by one, zero stays zero |
| LoginPage.AfterTicksCountsDown | frontend/src/pages/Login.js:79-84 | after n ticks the cooldown is max(c - n, 0) |
| LoginPage.ResendBlockedForThirtySeconds | frontend/src/pages/Login.js:96 | after a send the cooldown blocks resending for exactly 30 ticks |
| LoginPage.ValidRollNumber | frontend/src/pages/Login.js:356 | a valid roll number has ten characters, all letters or digits, in the pattern's positions |
| LoginPage.RollNumberInput | frontend/src/pages/Login.js:348-354 | the input keeps its length and character classes and contains no lower-case letter |
| LoginPage.RollNumberInputKeepsValidity | frontend/src/pages/Login.js:348-357 | upper-casing neither makes nor breaks a valid roll number, and is idempotent |
| LoginPage.RegisterPayload | frontend/src/pages/Login.js:127-136 | a student's body carries the OTP, the parsed year, roll number and section and no employee id; other roles the reverse; the rest as entered |
| LoginPage.Page.constructor | frontend/src/pages/Login.js:45-64 | the login tab with empty forms and role "student" |
| LoginPage.Page.HandleRoleSelect | frontend/src/pages/Login.js:66-69 | the role is selected and copied into the form; no other field changes |
| LoginPage.Page.OnUserChanged | frontend/src/pages/Login.js:71-77 | a signed-in user adds exactly one navigation |
| LoginPage.Page.OnCooldownTimer | frontend/src/pages/Login.js:79-84 | the cooldown takes one tick |
| LoginPage.Page.ResendDisabled | frontend/src/pages/Login.js:433 | the resend button is disabled while loading, while the email is empty or while the cooldown is positive, and enabled otherwise |
| LoginPage.Page.HandleSendOtp | frontend/src/pages/Login.js:86-102 | an empty email sends nothing; on success the OTP is marked sent and the cooldown is 30 |
| LoginPage.Page.HandleLogin | frontend/src/pages/Login.js:104-121 | on success token and user are stored together and the user is redirected; on failure the session is untouched and the error is shown |
| LoginPage.Page.OnRollNumberInput | frontend/src/pages/Login.js:348-354 | only the roll number changes, to the upper-cased input |
| LoginPage.Page.HandleRegister | frontend/src/pages/Login.js:123-161 | the shaped payload is posted; success resets the form, the OTP and the tab; failure leaves the form intact |

## Left out

- Server.Authenticate: the handler catches `jwt.JWTError`, which the PyJWT package does not define. The model assumes that a decode failure is answered with 401, as with python-jose. It also assumes every request carries a bearer token, though a missing header is refused by `HTTPBearer` with 403 "Not authenticated".
- Server.Database.Register: the email is pydantic's `EmailStr`. A malformed address such as "a@b" is refused with 422 before the handler runs, and the handler sees the address with its domain lower-cased. The model takes the address as already validated and normalised, so it stores the text it is given. It does not capture that the stored address can differ from the text typed at login, which `login` compares as typed: registering "Ann@Campus.EDU" stores "Ann@campus.edu", and logging in with "Ann@Campus.EDU" then gets 401.
- Server.Database.SendOtp: the same `EmailStr` validation. The model takes the address as already validated and normalised; a malformed address gets 422 before the handler, and the OTP is keyed by the address with a lower-cased domain.
- Server.Database.Register: the email check, the OTP check, the insert and the OTP deletion run as separate database calls, and no unique index is declared. EmailsUnique and OtpSingleUse therefore hold only when registrations are served one at a time. Overlapping requests are not modelled.
- StudentDashboard.AttendanceBySubject: the source's accumulator is a plain `{}`, which inherits the properties of `Object.prototype`. A subject spelled like one of them ("constructor", "toString", "__proto__", ...) finds an inherited value, gets no counter of its own, and leaves `Object.keys` without it. The model's accumulator has no inherited keys, so it counts such subjects like any other. Its "first-occurrence order" also ignores a rule of `Object.keys`: integer-like subject names such as "101" are listed first, in ascending numeric order, before the other names.
- StudentDashboard.TotalsSumToLength: holds for the model's accumulator. In the source it fails as soon as a subject is spelled like an `Object.prototype` property (see AttendanceBySubject).
- StudentDashboard.CountRecordStep: the same limit as AttendanceBySubject, for subjects spelled like inherited properties.
- LoginPage.RollNumberInput: `toUpperCase` is modelled on ASCII letters only. JavaScript maps all of Unicode, so "ß" becomes "SS" (the length changes) and "ı" becomes "I".
- LoginPage.RollNumberInputKeepsValidity: true of the ASCII-only upper-casing. In JavaScript "24ıK1A3001" upper-cases to the valid "24IK1A3001".
- LoginPage.Page.OnRollNumberInput: goes through the ASCII-only RollNumberInput.
- FacultyDashboard.FilteredStudentsMembers: the search lower-cases roll number and search text with ASCII-only `toLowerCase`. JavaScript also folds non-ASCII letters, e.g. the Kelvin sign to "k".
- FacultyDashboard.FilteredStudents: `Array.prototype.sort` is stable, so students with equal roll-number keys keep their fetched order. The model states only that the result is sorted and a permutation, not how equal keys are ordered.
- FacultyDashboard.Page.FetchAttendanceStudents: the same as FilteredStudents for the order of students with equal roll numbers.
- FacultyDashboard.Page.FetchMarksStudents: the same as FilteredStudents for the order of students with equal roll numbers.
- Server.SortedListing: how MongoDB orders documents with equal sort keys is not stated; the model promises only key order and which documents are kept.
- LoginPage.ErrorText: `detail` is modelled as a string. FastAPI's 422 validation errors carry a list, which the source hands to the toast unchanged, and the model cannot express that.
- `parseInt` is interpreted only on an optional minus sign followed by decimal digits (`DecimalValue`), which is enough to read back `String(year)`. On any other text it stays symbolic (`ParsedInt`).
- Passwords are hashed by an abstract function `hash`, and `checkpw` is equality of hashes. bcrypt's salt is not modelled.
- A JWT is modelled by its claims and by what decoding it yields. Signing, secrets and expiry times are not modelled.
- Sending the OTP email in the background is left out. It is I/O.
- The clock, `uuid4` ids and the OTP digits are parameters. `created_at` is an integer timestamp, assumed to order like the ISO strings the backend stores.
- Each batch endpoint reads the clock once per record. The model uses one reading for the whole batch.
- `get_all_attendance` and `get_all_marks` with a year or section use `$lookup` aggregation pipelines. These are not modelled; only the plain query is.
- The analytics per-section averages are left out. They use floating-point division and rounding. The rest of the attendance rate, average and chart arithmetic on the pages is left out for the same reason.
- Marks are `real` on the backend. On the pages `parseInt`/`parseFloat` results stay symbolic (`ParsedInt`/`ParsedFloat` of the typed text), because the parsers are not modelled.
- `localeCompare` is an abstract total preorder.
- Server.Database.UpdateProfileImage: the 404 raised when the user disappears between the update and the re-read is not modelled. Nothing runs concurrently in the model.
- StudentDashboard.Page.HandleProfileUpdate: the page sends `PUT /users/me`, but the backend defines no such route. The model follows the page and takes the server's reply as a parameter.
- JavaScript objects keep insertion order. The model does not capture the rule that integer-like keys sort first.
- The `Array.prototype.sort` calls on the fetched class and on the listings are modelled as a pure sort of a value. The in-place update of the array is not modelled.
- LoginPage.ValidRollNumber is only a predicate. The browser enforces the pattern on submit, and that enforcement is not modelled.
- LoginPage.RegisterPayload: a key deleted from the body is modelled as `None`. The order of the body's keys is not modelled.
- Polling intervals, effect scheduling, in-flight races, toasts as rendering, charts and JSX are left out. Toasts are kept only as a list of messages.
- Only the permission value of the browser `Notification` API is modelled.
- `App.js` keeps the session and guards the routes. It is not part of this model. Only `login`, `logout` and `user`, as the pages use them, are modelled (`Auth.Session`).
- The faculty page has other handlers: the filtered attendance and marks effects, viewing a profile, notices, complaints and request decisions. Each is a single request whose rules are the backend's, so only the backend side is modelled. The same holds for the student page's request and complaint forms.
- `frontend/src/pages/AdminDashboard.js` is presentational, apart from a batch load and chart labels. It is not part of this model.
- `frontend/src/config.js` only reads an environment variable, and `backend_test.py` is a test harness against a live server. Neither is part of this model.
- CORS, logging and the application wiring are left out.
