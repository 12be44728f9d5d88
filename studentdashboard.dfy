/** The student dashboard of frontend/src/pages/StudentDashboard.js: the all-or-nothing load of the
    four lists, the per-user "last seen notice" cursor kept in localStorage, the per-subject
    attendance counts, and the profile forms. Network replies are parameters of the handlers. */
module StudentDashboard {
  import opened Common
  import opened Seqs
  import opened Records
  import opened JsObjects
  import opened Auth

  const CursorPrefix: string := "lastSeenNoticeId_"
  const NewNoticeToast: string := "You have a new notice!"
  const LoadFailedToast: string := "Failed to load data"
  const ProfileUpdatedToast: string := "Profile details updated successfully."
  const ProfileFailedToast: string := "Failed to update profile details."
  const PhotoUpdatedToast: string := "Profile photo updated successfully."
  const PhotoFailedToast: string := "Failed to update profile photo."

  // ---------------------------------------------------------------- the notice cursor

  /** The localStorage entry that holds one user's cursor. */
  function StorageKey(userId: string): string
  {
    CursorPrefix + userId
  }

  lemma StorageKeyInjective(a: string, b: string)
    requires StorageKey(a) == StorageKey(b)
    ensures a == b
  {
    assert a == StorageKey(a)[|CursorPrefix|..];
    assert b == StorageKey(b)[|CursorPrefix|..];
  }

  /** The tracker alerts when the list has a head whose id is not the stored cursor; a missing
      cursor (getItem's null) differs from every id. */
  predicate RaisesAlert(items: map<string, string>, userId: string, notices: seq<Notice>)
    ensures notices == [] ==> !RaisesAlert(items, userId, notices)
    ensures notices != [] && StorageKey(userId) !in items ==> RaisesAlert(items, userId, notices)
    ensures notices != [] && StorageKey(userId) in items ==>
      (RaisesAlert(items, userId, notices) <==> items[StorageKey(userId)] != notices[0].id)
  {
    && notices != []
    && (StorageKey(userId) !in items || items[StorageKey(userId)] != notices[0].id)
  }

  /** The store after the tracker has looked at `notices`. */
  function CursorAfter(items: map<string, string>, userId: string, notices: seq<Notice>)
    : (r: map<string, string>)
    ensures !RaisesAlert(items, userId, notices) ==> r == items
    ensures notices != [] ==> StorageKey(userId) in r && r[StorageKey(userId)] == notices[0].id
    ensures forall k :: k != StorageKey(userId) ==> (k in r <==> k in items) && (k in r ==> r[k] == items[k])
  {
    if RaisesAlert(items, userId, notices) then items[StorageKey(userId) := notices[0].id] else items
  }

  /** Once a list has been seen, any list with the same head raises nothing and writes nothing. */
  lemma TrackerIdempotent(items: map<string, string>, userId: string, seen: seq<Notice>, later: seq<Notice>)
    requires seen != [] && later != [] && later[0].id == seen[0].id
    ensures !RaisesAlert(CursorAfter(items, userId, seen), userId, later)
    ensures CursorAfter(CursorAfter(items, userId, seen), userId, later) == CursorAfter(items, userId, seen)
  {
  }

  /** Only the head's id is looked at: the rest of the list never matters. */
  lemma OnlyHeadConsidered(items: map<string, string>, userId: string, a: seq<Notice>, b: seq<Notice>)
    requires a != [] && b != [] && a[0].id == b[0].id
    ensures RaisesAlert(items, userId, a) == RaisesAlert(items, userId, b)
    ensures CursorAfter(items, userId, a) == CursorAfter(items, userId, b)
  {
  }

  /** The tracker of one user never touches another user's cursor. */
  lemma CursorsArePerUser(items: map<string, string>, userId: string, other: string, notices: seq<Notice>)
    requires other != userId
    ensures StorageKey(other) in CursorAfter(items, userId, notices) <==> StorageKey(other) in items
    ensures StorageKey(other) in items ==>
      CursorAfter(items, userId, notices)[StorageKey(other)] == items[StorageKey(other)]
  {
    if StorageKey(other) == StorageKey(userId) {
      StorageKeyInjective(other, userId);
    }
  }

  /** window.localStorage, shared by every user of the browser. */
  class LocalStorage {
    var items: map<string, string>

    constructor ()
      ensures items == map[]
    {
      items := map[];
    }

    function GetItem(key: string): Option<string>
      reads this
    {
      if key in items then Some(items[key]) else None
    }

    method SetItem(key: string, value: string)
      modifies this
      ensures items == old(items)[key := value]
    {
      items := items[key := value];
    }
  }

  /** Notification.permission; Unsupported stands for a browser without the Notification API. */
  datatype Permission = Unsupported | Default | Granted | Denied

  datatype SystemNotification = SystemNotification(title: string, body: string)

  // ---------------------------------------------------------------- attendance per subject

  datatype SubjectCount = SubjectCount(total: nat, present: nat)

  function OfSubject(subject: string): AttendanceRecord -> bool
  {
    (a: AttendanceRecord) => a.subject == subject
  }

  function PresentIn(subject: string): AttendanceRecord -> bool
  {
    (a: AttendanceRecord) => a.subject == subject && a.status == Present
  }

  /** The counters the fold must reach for one subject. */
  function Tally(attendance: seq<AttendanceRecord>, subject: string): SubjectCount
  {
    SubjectCount(CountWhere(attendance, OfSubject(subject)), CountWhere(attendance, PresentIn(subject)))
  }

  /** `acc` holds exactly the counters of `attendance`: one entry per subject, in order of first
      occurrence, each with that subject's tally. */
  ghost predicate CountsOf(acc: Obj<SubjectCount>, attendance: seq<AttendanceRecord>)
  {
    && WellFormed(acc)
    && Keys(acc) == Distinct(AttendanceSubjects(attendance))
    && forall s :: s in Keys(acc) ==> Lookup(acc, s) == Some(Tally(attendance, s))
  }

  /** `if (!acc[subject]) acc[subject] = { total: 0, present: 0 }`. */
  function StartCount(acc: Obj<SubjectCount>, subject: string): Obj<SubjectCount>
  {
    if Lookup(acc, subject).None? then Put(acc, subject, SubjectCount(0, 0)) else acc
  }

  /** Starting a subject's counter keeps the counters exact and adds the subject if it is new. */
  lemma StartCountStep(acc: Obj<SubjectCount>, prefix: seq<AttendanceRecord>, subject: string)
    requires CountsOf(acc, prefix)
    ensures WellFormed(StartCount(acc, subject))
    ensures Keys(StartCount(acc, subject)) == Distinct(AttendanceSubjects(prefix) + [subject])
    ensures Lookup(StartCount(acc, subject), subject) == Some(Tally(prefix, subject))
    ensures Current(acc, subject) == Tally(prefix, subject)
    ensures forall s :: s != subject ==> Lookup(StartCount(acc, subject), s) == Lookup(acc, s)
  {
    DistinctAppend(AttendanceSubjects(prefix), subject);
    assert subject in Keys(acc) <==> subject in AttendanceSubjects(prefix);
    if Lookup(acc, subject).None? {
      PutWellFormed(acc, subject, SubjectCount(0, 0));
      SubjectAbsent(prefix, subject);
    }
  }

  /** What one step of the fold makes of the counters: `acc[subject] ??= {0, 0}`, then the
      increments. */
  function CountRecord(acc: Obj<SubjectCount>, record: AttendanceRecord): Obj<SubjectCount>
  {
    Put(StartCount(acc, record.subject), record.subject, Bump(Current(acc, record.subject), record))
  }

  /** The counter `acc[subject]` holds once it has been started. */
  function Current(acc: Obj<SubjectCount>, subject: string): SubjectCount
  {
    if Lookup(acc, subject).Some? then Lookup(acc, subject).value else SubjectCount(0, 0)
  }

  /** `acc[subject].total++` and, for a present record, `acc[subject].present++`. */
  function Bump(c: SubjectCount, record: AttendanceRecord): SubjectCount
  {
    SubjectCount(c.total + 1, c.present + if record.status == Present then 1 else 0)
  }

  /** The `reduce` of attendanceBySubject: one entry per subject, in order of first occurrence,
      counting that subject's records and those of them marked present. */
  method AttendanceBySubject(attendance: seq<AttendanceRecord>) returns (acc: Obj<SubjectCount>)
    ensures WellFormed(acc)
    ensures Keys(acc) == Distinct(AttendanceSubjects(attendance))
    ensures forall s :: s in Keys(acc) ==> Lookup(acc, s) == Some(Tally(attendance, s))
  {
    acc := [];
    var i := 0;
    assert AttendanceSubjects(attendance[..0]) == [];
    while i < |attendance|
      invariant 0 <= i <= |attendance|
      invariant CountsOf(acc, attendance[..i])
    {
      var record := attendance[i];
      assert attendance[..i + 1] == attendance[..i] + [record];
      CountRecordStep(acc, attendance[..i], record);
      acc := CountRecord(acc, record);
      i := i + 1;
    }
    assert attendance[..i] == attendance;
  }

  /** One step of the fold keeps the counters exact. */
  lemma CountRecordStep(acc: Obj<SubjectCount>, prefix: seq<AttendanceRecord>, record: AttendanceRecord)
    requires CountsOf(acc, prefix)
    ensures CountsOf(CountRecord(acc, record), prefix + [record])
  {
    var next := CountRecord(acc, record);
    CountRecordKeys(acc, prefix, record);
    forall s | s in Keys(next)
      ensures Lookup(next, s) == Some(Tally(prefix + [record], s))
    {
      if s == record.subject {
        CountRecordSubject(acc, prefix, record);
      } else {
        CountRecordOther(acc, prefix, record, s);
      }
    }
  }

  lemma CountRecordKeys(acc: Obj<SubjectCount>, prefix: seq<AttendanceRecord>, record: AttendanceRecord)
    requires CountsOf(acc, prefix)
    ensures WellFormed(CountRecord(acc, record))
    ensures Keys(CountRecord(acc, record)) == Distinct(AttendanceSubjects(prefix + [record]))
  {
    assert AttendanceSubjects(prefix + [record]) == AttendanceSubjects(prefix) + [record.subject];
    StartCountStep(acc, prefix, record.subject);
    PutWellFormed(StartCount(acc, record.subject), record.subject, Bump(Current(acc, record.subject), record));
  }

  /** The record's own subject gains one record, and one present record if it is marked present. */
  lemma CountRecordSubject(acc: Obj<SubjectCount>, prefix: seq<AttendanceRecord>, record: AttendanceRecord)
    requires CountsOf(acc, prefix)
    ensures Lookup(CountRecord(acc, record), record.subject) == Some(Tally(prefix + [record], record.subject))
  {
    StartCountStep(acc, prefix, record.subject);
    CountWhereAppend(prefix, record, OfSubject(record.subject));
    CountWhereAppend(prefix, record, PresentIn(record.subject));
  }

  /** Every other subject keeps its counts. */
  lemma CountRecordOther(acc: Obj<SubjectCount>, prefix: seq<AttendanceRecord>, record: AttendanceRecord, s: string)
    requires CountsOf(acc, prefix)
    requires s != record.subject && s in Keys(CountRecord(acc, record))
    ensures Lookup(CountRecord(acc, record), s) == Some(Tally(prefix + [record], s))
  {
    CountRecordKeys(acc, prefix, record);
    StartCountStep(acc, prefix, record.subject);
    assert s in AttendanceSubjects(prefix + [record]);
    assert AttendanceSubjects(prefix + [record]) == AttendanceSubjects(prefix) + [record.subject];
    CountWhereAppend(prefix, record, OfSubject(s));
    CountWhereAppend(prefix, record, PresentIn(s));
  }

  /** A subject that no record carries has no records and no present records. */
  lemma {:induction false} SubjectAbsent(attendance: seq<AttendanceRecord>, subject: string)
    requires subject !in AttendanceSubjects(attendance)
    ensures Tally(attendance, subject) == SubjectCount(0, 0)
    decreases |attendance|
  {
    if attendance != [] {
      assert AttendanceSubjects(attendance)[0] == attendance[0].subject;
      assert forall i :: 0 <= i < |attendance| - 1 ==> AttendanceSubjects(attendance[1..])[i] == AttendanceSubjects(attendance)[i + 1];
      SubjectAbsent(attendance[1..], subject);
    }
  }

  /** A subject's present count never exceeds its total. */
  lemma {:induction false} PresentAtMostTotal(attendance: seq<AttendanceRecord>, subject: string)
    ensures Tally(attendance, subject).present <= Tally(attendance, subject).total
    decreases |attendance|
  {
    if attendance != [] {
      PresentAtMostTotal(attendance[1..], subject);
    }
  }

  /** The sum of the totals of `subjects`. */
  function SumOfTotals(attendance: seq<AttendanceRecord>, subjects: seq<string>): nat
    decreases |subjects|
  {
    if subjects == [] then 0
    else SumOfTotals(attendance, subjects[..|subjects| - 1]) + Tally(attendance, subjects[|subjects| - 1]).total
  }

  /** One more record adds one to the sum when its subject is listed (once) and nothing otherwise. */
  lemma {:induction false} SumOfTotalsAppendRecord(attendance: seq<AttendanceRecord>, x: AttendanceRecord,
                                                   subjects: seq<string>)
    requires NoDuplicates(subjects)
    ensures SumOfTotals(attendance + [x], subjects) ==
      SumOfTotals(attendance, subjects) + if x.subject in subjects then 1 else 0
    decreases |subjects|
  {
    if subjects != [] {
      var init, last := subjects[..|subjects| - 1], subjects[|subjects| - 1];
      assert subjects == init + [last];
      assert NoDuplicates(init);
      SumOfTotalsAppendRecord(attendance, x, init);
      CountWhereAppend(attendance, x, OfSubject(last));
      assert x.subject in subjects <==> x.subject in init || x.subject == last;
      assert last !in init;
    }
  }

  /** The per-subject totals add up to the number of attendance records. */
  lemma {:induction false} TotalsSumToLength(attendance: seq<AttendanceRecord>)
    ensures SumOfTotals(attendance, Distinct(AttendanceSubjects(attendance))) == |attendance|
    decreases |attendance|
  {
    if attendance != [] {
      var init, x := attendance[..|attendance| - 1], attendance[|attendance| - 1];
      assert attendance == init + [x];
      assert AttendanceSubjects(init + [x]) == AttendanceSubjects(init) + [x.subject];
      TotalsSumToLength(init);
      DistinctAppend(AttendanceSubjects(init), x.subject);
      var d := Distinct(AttendanceSubjects(init));
      SumOfTotalsAppendRecord(init, x, d);
      if x.subject !in AttendanceSubjects(init) {
        SumOfTotalsAppendRecord(init, x, d);
        assert d + [x.subject] != [] && (d + [x.subject])[..|d|] == d;
        CountWhereAppend(init, x, OfSubject(x.subject));
        SubjectAbsent(init, x.subject);
      }
    }
  }

  // ---------------------------------------------------------------- profile forms

  /** The "edit profile" form: four text fields. */
  datatype EditForm = EditForm(rollNumber: string, year: string, section: string, mobileNumber: string)

  /** The body of PUT /users/me: the form with `year` parsed, or null when the field is empty. */
  datatype ProfilePayload = ProfilePayload(
    rollNumber: string, year: Option<ParsedNumber>, section: string, mobileNumber: string)

  /** The form filled from the signed-in user; missing values and a year of 0 show as "". */
  function EditFormFrom(u: User): (f: EditForm)
    ensures f.year == "" <==> u.base.year.None? || u.base.year.value == 0
    ensures f.year != "" ==> f.year == IntToDecimal(u.base.year.value)
  {
    EditForm(OrEmpty(u.base.rollNumber),
             if u.base.year.Some? && u.base.year.value != 0 then IntToDecimal(u.base.year.value) else "",
             OrEmpty(u.base.section), OrEmpty(u.base.mobileNumber))
  }

  function ProfilePayloadOf(f: EditForm): (p: ProfilePayload)
    ensures p.year.None? <==> f.year == ""
    ensures p.year.Some? ==> p.year.value == ParsedInt(f.year)
    ensures p.rollNumber == f.rollNumber && p.section == f.section && p.mobileNumber == f.mobileNumber
  {
    ProfilePayload(f.rollNumber, if f.year != "" then Some(ParsedInt(f.year)) else None,
                   f.section, f.mobileNumber)
  }

  /** Saving an untouched form sends the user's year back as the parse of its decimal spelling,
      which parseInt reads as that year, and null when the user has none (or a year of 0). */
  lemma UntouchedFormKeepsYear(u: User)
    ensures u.base.year.Some? && u.base.year.value != 0 ==>
      && ProfilePayloadOf(EditFormFrom(u)).year == Some(ParsedInt(IntToDecimal(u.base.year.value)))
      && DecimalValue(ProfilePayloadOf(EditFormFrom(u)).year.value.text) == u.base.year
    ensures u.base.year.None? || u.base.year.value == 0 ==> ProfilePayloadOf(EditFormFrom(u)).year.None?
  {
  }

  // ---------------------------------------------------------------- the page

  class Page {
    const session: Session
    const storage: LocalStorage
    var attendance: seq<AttendanceRecord>
    var marks: seq<MarksRecord>
    var notices: seq<Notice>
    var requests: seq<Request>
    var loading: bool
    var noticesOpen: bool
    var permission: Permission
    var editForm: EditForm
    var isEditingProfile: bool
    var profileImageDialogOpen: bool
    /** The toasts and the system notifications shown so far, oldest first. */
    var toasts: seq<string>
    var shown: seq<SystemNotification>

    constructor (session: Session, storage: LocalStorage, permission: Permission)
      ensures this.session == session && this.storage == storage && this.permission == permission
      ensures attendance == [] && marks == [] && notices == [] && requests == []
      ensures loading && !noticesOpen && !isEditingProfile && !profileImageDialogOpen
      ensures editForm == EditForm("", "", "", "") && toasts == [] && shown == []
    {
      this.session, this.storage, this.permission := session, storage, permission;
      attendance, marks, notices, requests := [], [], [], [];
      loading, noticesOpen, isEditingProfile, profileImageDialogOpen := true, false, false, false;
      editForm, toasts, shown := EditForm("", "", "", ""), [], [];
    }

    /** loadData: the four lists are replaced together only when all four reads succeed. */
    method LoadData(a: Reply<seq<AttendanceRecord>>, m: Reply<seq<MarksRecord>>,
                    n: Reply<seq<Notice>>, q: Reply<seq<Request>>)
      modifies this`attendance, this`marks, this`notices, this`requests, this`loading, this`toasts
      ensures !loading
      ensures a.Received? && m.Received? && n.Received? && q.Received? ==>
        && attendance == a.data && marks == m.data && notices == n.data && requests == q.data
        && toasts == old(toasts)
      ensures !(a.Received? && m.Received? && n.Received? && q.Received?) ==>
        && attendance == old(attendance) && marks == old(marks)
        && notices == old(notices) && requests == old(requests)
        && toasts == old(toasts) + [LoadFailedToast]
    {
      if a.Received? && m.Received? && n.Received? && q.Received? {
        attendance := a.data;
        marks := m.data;
        notices := n.data;
        requests := q.data;
      } else {
        toasts := toasts + [LoadFailedToast];
      }
      loading := false;
    }

    /** The mount effect: permission is asked for only while it is still "default". */
    method RequestPermissionOnMount(answer: Permission)
      modifies this`permission
      ensures old(permission) == Default ==> permission == answer
      ensures old(permission) != Default ==> permission == old(permission)
    {
      if permission == Default {
        permission := answer;
      }
    }

    /** The effect that fills the edit form whenever the user changes. */
    method OnUserChanged()
      modifies this`editForm
      ensures session.user.Some? ==> editForm == EditFormFrom(session.user.value)
      ensures session.user.None? ==> editForm == old(editForm)
    {
      if session.user.Some? {
        editForm := EditFormFrom(session.user.value);
      }
    }

    /** The notice effect: on a new head, open the panel, move the cursor, show a toast, and a
        system notification only when permission is granted. */
    method OnNoticesChanged()
      requires session.user.Some?
      modifies this`noticesOpen, this`toasts, this`shown, storage
      ensures storage.items == CursorAfter(old(storage.items), session.user.value.id, notices)
      ensures RaisesAlert(old(storage.items), session.user.value.id, notices) ==>
        && noticesOpen
        && toasts == old(toasts) + [NewNoticeToast]
        && shown == old(shown) +
             if permission == Granted
             then [SystemNotification("New Notice: " + notices[0].title, notices[0].content)]
             else []
      ensures !RaisesAlert(old(storage.items), session.user.value.id, notices) ==>
        noticesOpen == old(noticesOpen) && toasts == old(toasts) && shown == old(shown)
    {
      if |notices| > 0 {
        var latest := notices[0];
        var key := StorageKey(session.user.value.id);
        var lastSeen := storage.GetItem(key);
        if lastSeen != Some(latest.id) {
          noticesOpen := true;
          storage.SetItem(key, latest.id);
          if permission == Granted {
            shown := shown + [SystemNotification("New Notice: " + latest.title, latest.content)];
          }
          toasts := toasts + [NewNoticeToast];
        }
      }
    }

    /** One polling round: reload, then let the notice effect look at the result. */
    method Poll(a: Reply<seq<AttendanceRecord>>, m: Reply<seq<MarksRecord>>,
                n: Reply<seq<Notice>>, q: Reply<seq<Request>>)
      requires session.user.Some?
      modifies this`attendance, this`marks, this`notices, this`requests, this`loading
      modifies this`toasts, this`noticesOpen, this`shown, storage
      ensures !loading
      ensures notices == if a.Received? && m.Received? && n.Received? && q.Received? then n.data else old(notices)
      ensures storage.items == CursorAfter(old(storage.items), session.user.value.id, notices)
    {
      LoadData(a, m, n, q);
      OnNoticesChanged();
    }

    /** handleProfileUpdate: on success the server's user replaces the session's user under the
        same token; on failure nothing but a toast changes. */
    method HandleProfileUpdate(reply: Reply<User>) returns (payload: ProfilePayload)
      requires session.token.Some?
      modifies session, this`isEditingProfile, this`toasts
      ensures payload == ProfilePayloadOf(editForm)
      ensures reply.Received? ==>
        && session.token == old(session.token) && session.user == Some(reply.data)
        && !isEditingProfile && toasts == old(toasts) + [ProfileUpdatedToast]
      ensures reply.Failed? ==>
        && session.token == old(session.token) && session.user == old(session.user)
        && isEditingProfile == old(isEditingProfile) && toasts == old(toasts) + [ProfileFailedToast]
    {
      payload := ProfilePayloadOf(editForm);
      if reply.Received? {
        session.Login(session.token.value, reply.data);
        toasts := toasts + [ProfileUpdatedToast];
        isEditingProfile := false;
      } else {
        toasts := toasts + [ProfileFailedToast];
      }
    }

    /** handleProfileImageUpdate: the same exchange for the photo URL. */
    method HandleProfileImageUpdate(reply: Reply<User>)
      requires session.token.Some?
      modifies session, this`profileImageDialogOpen, this`toasts
      ensures reply.Received? ==>
        && session.token == old(session.token) && session.user == Some(reply.data)
        && !profileImageDialogOpen && toasts == old(toasts) + [PhotoUpdatedToast]
      ensures reply.Failed? ==>
        && session.token == old(session.token) && session.user == old(session.user)
        && profileImageDialogOpen == old(profileImageDialogOpen) && toasts == old(toasts) + [PhotoFailedToast]
    {
      if reply.Received? {
        session.Login(session.token.value, reply.data);
        toasts := toasts + [PhotoUpdatedToast];
        profileImageDialogOpen := false;
      } else {
        toasts := toasts + [PhotoFailedToast];
      }
    }
  }
}
