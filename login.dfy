/** The sign-in and registration page of frontend/src/pages/Login.js: the redirect by role, the OTP
    button and its resend cooldown, the login and register handlers, the shaping of the register
    payload and the roll-number input. Network replies are parameters of the handlers; `navigate`
    calls are recorded in order. */
module LoginPage {
  import opened Common
  import opened Records
  import Auth

  const StudentHome: string := "/student/dashboard"
  const FacultyHome: string := "/faculty/dashboard"
  const AdminHome: string := "/admin/dashboard"
  const EmailFirstToast: string := "Please enter your email address first"
  const OtpSentPrefix: string := "OTP sent to "
  const OtpFailedToast: string := "Failed to send OTP"
  const LoginSucceededToast: string := "Login successful!"
  const LoginFailedToast: string := "Login failed"
  const RegisteredToast: string := "Registration successful! Please login."
  const RegisterFailedToast: string := "Registration failed"
  /** Seconds before the OTP may be sent again. */
  const ResendCooldown: nat := 30

  /** `error.response?.data?.detail || fallback`. */
  function ErrorText(detail: Option<string>, fallback: string): (r: string)
    ensures detail.Some? && detail.value != "" ==> r == detail.value
    ensures detail.None? || detail.value == "" ==> r == fallback
  {
    if detail.Some? && detail.value != "" then detail.value else fallback
  }

  // ---------------------------------------------------------------- redirect by role

  /** A call `navigate(path, { replace })`. */
  datatype Navigation = Navigation(path: string, replace: bool)

  /** The dashboard a role string leads to; any other string leads nowhere. */
  function RouteFor(role: string): (r: Option<string>)
    ensures role == "student" <==> r == Some(StudentHome)
    ensures role == "faculty" <==> r == Some(FacultyHome)
    ensures role == "admin" <==> r == Some(AdminHome)
    ensures r.None? <==> role !in {"student", "faculty", "admin"}
  {
    if role == "student" then Some(StudentHome)
    else if role == "faculty" then Some(FacultyHome)
    else if role == "admin" then Some(AdminHome)
    else None
  }

  /** Every role the server issues has a dashboard, and distinct roles have distinct ones. */
  lemma EveryRoleHasItsOwnDashboard(a: Role, b: Role)
    ensures RouteFor(RoleName(a)).Some?
    ensures RouteFor(RoleName(a)) == RouteFor(RoleName(b)) ==> a == b
  {
    if RouteFor(RoleName(a)) == RouteFor(RoleName(b)) {
      RoleNameInjective(a, b);
    }
  }

  /** What the page does with a signed-in user: replace the history entry with their dashboard. */
  function Redirect(user: Option<User>): (r: Option<Navigation>)
    ensures user.None? ==> r.None?
    ensures user.Some? ==> r == Some(Navigation(RouteFor(RoleName(user.value.base.role)).value, true))
  {
    match user
    case None => None
    case Some(u) =>
      var route := RouteFor(RoleName(u.base.role));
      if route.Some? then Some(Navigation(route.value, true)) else None
  }

  // ---------------------------------------------------------------- resend cooldown

  /** One firing of the one-second timer: while positive, the cooldown drops by one. */
  function Tick(cooldown: nat): (r: nat)
    ensures cooldown > 0 ==> r == cooldown - 1
    ensures cooldown == 0 ==> r == 0
  {
    if cooldown > 0 then cooldown - 1 else cooldown
  }

  /** The cooldown after `n` timer firings. */
  function AfterTicks(cooldown: nat, n: nat): nat
  {
    if n == 0 then cooldown else AfterTicks(Tick(cooldown), n - 1)
  }

  /** The countdown goes down one per second and stops at zero. */
  lemma {:induction false} AfterTicksCountsDown(cooldown: nat, n: nat)
    ensures AfterTicks(cooldown, n) == if cooldown >= n then cooldown - n else 0
  {
    if n > 0 {
      AfterTicksCountsDown(Tick(cooldown), n - 1);
    }
  }

  /** After a send the button stays blocked by the cooldown for exactly 30 seconds. */
  lemma ResendBlockedForThirtySeconds(n: nat)
    ensures AfterTicks(ResendCooldown, n) > 0 <==> n < ResendCooldown
  {
    AfterTicksCountsDown(ResendCooldown, n);
  }

  // ---------------------------------------------------------------- roll numbers

  /** The input's pattern `^[0-9]{2}[a-zA-Z]{2}[0-9]{1}[a-zA-Z]{1}[0-9]{2}[a-zA-Z0-9]{2}$`. */
  predicate ValidRollNumber(s: string)
    ensures ValidRollNumber(s) ==> |s| == 10 && forall i :: 0 <= i < |s| ==> IsAlphanumeric(s[i])
  {
    && |s| == 10
    && IsDigit(s[0]) && IsDigit(s[1])
    && IsLetter(s[2]) && IsLetter(s[3])
    && IsDigit(s[4])
    && IsLetter(s[5])
    && IsDigit(s[6]) && IsDigit(s[7])
    && IsAlphanumeric(s[8]) && IsAlphanumeric(s[9])
  }

  /** The roll-number field keeps what was typed, upper-cased. */
  function RollNumberInput(typed: string): (r: string)
    ensures |r| == |typed|
    ensures forall i :: 0 <= i < |r| ==> !IsLower(r[i])
    ensures forall i :: 0 <= i < |r| ==> (IsLetter(r[i]) <==> IsLetter(typed[i])) && (IsDigit(r[i]) <==> IsDigit(typed[i]))
  {
    ToUpper(typed)
  }

  /** Upper-casing does not change whether a roll number fits the pattern, and typing into the
      field again leaves an upper-cased value as it is. */
  lemma RollNumberInputKeepsValidity(typed: string)
    ensures ValidRollNumber(RollNumberInput(typed)) <==> ValidRollNumber(typed)
    ensures RollNumberInput(RollNumberInput(typed)) == RollNumberInput(typed)
  {
    ToUpperIdempotent(typed);
  }

  // ---------------------------------------------------------------- the register form

  datatype LoginForm = LoginForm(email: string, password: string, rollNumber: string)

  datatype RegisterForm = RegisterForm(
    email: string, password: string, name: string, role: string, department: string, year: string,
    employeeId: string, rollNumber: string, section: string, mobileNumber: string)

  const EmptyLoginForm: LoginForm := LoginForm("", "", "")
  const EmptyRegisterForm: RegisterForm := RegisterForm("", "", "", "student", "", "", "", "", "", "")

  /** The body of POST /auth/register. A field that is None is a key the body does not carry. */
  datatype RegisterBody = RegisterBody(
    email: string, password: string, name: string, role: string, department: string,
    year: Option<ParsedNumber>, employeeId: Option<string>, rollNumber: Option<string>,
    section: Option<string>, mobileNumber: string, otp: Option<string>)

  /** `{ ...registerData }` shaped by role: a student adds the OTP, sends the year as
      `parseInt(year)` and drops the employee id; anyone else drops year, roll number and section. */
  function RegisterPayload(f: RegisterForm, otp: string): (r: RegisterBody)
    ensures r.otp.Some? <==> f.role == "student"
    ensures r.year.Some? <==> f.role == "student"
    ensures r.rollNumber.Some? <==> f.role == "student"
    ensures r.section.Some? <==> f.role == "student"
    ensures r.employeeId.Some? <==> f.role != "student"
    ensures r.otp.Some? ==> r.otp.value == otp && r.year.value == ParsedInt(f.year)
    ensures r.rollNumber.Some? ==> r.rollNumber.value == f.rollNumber && r.section.value == f.section
    ensures r.employeeId.Some? ==> r.employeeId.value == f.employeeId
    ensures r.email == f.email && r.password == f.password && r.name == f.name && r.role == f.role
    ensures r.department == f.department && r.mobileNumber == f.mobileNumber
  {
    var student := f.role == "student";
    RegisterBody(
      f.email, f.password, f.name, f.role, f.department,
      if student then Some(ParsedInt(f.year)) else None,
      if student then None else Some(f.employeeId),
      if student then Some(f.rollNumber) else None,
      if student then Some(f.section) else None,
      f.mobileNumber,
      if student then Some(otp) else None)
  }

  // ---------------------------------------------------------------- the page

  class Page {
    const session: Auth.Session
    var loading: bool
    var selectedRole: Option<Role>
    var otp: string
    var otpSent: bool
    var resendCooldown: nat
    var activeTab: string
    var loginData: LoginForm
    var registerData: RegisterForm
    /** The toasts shown so far, oldest first. */
    var toasts: seq<string>
    /** The `navigate` calls made so far, oldest first. */
    var navigations: seq<Navigation>

    constructor (session: Auth.Session)
      ensures this.session == session
      ensures !loading && selectedRole.None? && otp == "" && !otpSent && resendCooldown == 0
      ensures activeTab == "login" && loginData == EmptyLoginForm && registerData == EmptyRegisterForm
      ensures toasts == [] && navigations == []
    {
      this.session := session;
      loading, selectedRole, otp, otpSent, resendCooldown := false, None, "", false, 0;
      activeTab, loginData, registerData := "login", EmptyLoginForm, EmptyRegisterForm;
      toasts, navigations := [], [];
    }

    /** handleRoleSelect: the chosen role is remembered and copied into the form, and nothing
        else in the form changes. */
    method HandleRoleSelect(role: Role)
      modifies this`selectedRole, this`registerData
      ensures selectedRole == Some(role)
      ensures registerData == old(registerData).(role := RoleName(role))
    {
      selectedRole := Some(role);
      registerData := registerData.(role := RoleName(role));
    }

    /** The effect on `user`: a signed-in user is sent to their dashboard. */
    method OnUserChanged()
      modifies this`navigations
      ensures navigations == old(navigations) + (if Redirect(session.user).Some? then [Redirect(session.user).value] else [])
    {
      var target := Redirect(session.user);
      if target.Some? {
        navigations := navigations + [target.value];
      }
    }

    /** The effect on `resendCooldown`, as one firing of its timer. */
    method OnCooldownTimer()
      modifies this`resendCooldown
      ensures resendCooldown == Tick(old(resendCooldown))
    {
      if resendCooldown > 0 {
        resendCooldown := resendCooldown - 1;
      }
    }

    /** The send button's `disabled`. */
    predicate ResendDisabled()
      reads this
      ensures loading ==> ResendDisabled()
      ensures registerData.email == "" ==> ResendDisabled()
      ensures resendCooldown > 0 ==> ResendDisabled()
      ensures !loading && registerData.email != "" && resendCooldown == 0 ==> !ResendDisabled()
    {
      loading || registerData.email == "" || resendCooldown > 0
    }

    /** handleSendOTP: returns the address the OTP was requested for, if any. */
    method HandleSendOtp(reply: Reply<()>) returns (sentTo: Option<string>)
      modifies this`loading, this`otpSent, this`resendCooldown, this`toasts
      ensures old(registerData.email) == "" ==>
        && sentTo.None? && toasts == old(toasts) + [EmailFirstToast]
        && unchanged(this`loading, this`otpSent, this`resendCooldown)
      ensures old(registerData.email) != "" ==> sentTo == Some(registerData.email) && !loading
      ensures old(registerData.email) != "" && reply.Received? ==>
        && otpSent && resendCooldown == ResendCooldown && ResendDisabled()
        && toasts == old(toasts) + [OtpSentPrefix + registerData.email]
      ensures old(registerData.email) != "" && reply.Failed? ==>
        && unchanged(this`otpSent, this`resendCooldown)
        && toasts == old(toasts) + [ErrorText(reply.detail, OtpFailedToast)]
    {
      if registerData.email == "" {
        toasts := toasts + [EmailFirstToast];
        return None;
      }
      loading := true;
      sentTo := Some(registerData.email);
      if reply.Received? {
        toasts := toasts + [OtpSentPrefix + registerData.email];
        otpSent := true;
        resendCooldown := ResendCooldown;
      } else {
        toasts := toasts + [ErrorText(reply.detail, OtpFailedToast)];
      }
      loading := false;
    }

    /** handleLogin: posts the login form; on success the token and the user are stored together
        and the user is sent to their dashboard; on failure the session is left as it was. */
    method HandleLogin(reply: Reply<(string, User)>) returns (sent: LoginForm)
      modifies this`loading, this`toasts, this`navigations, session
      ensures sent == loginData && !loading
      ensures reply.Received? ==>
        && session.Valid() && session.token == Some(reply.data.0) && session.user == Some(reply.data.1)
        && toasts == old(toasts) + [LoginSucceededToast]
        && navigations == old(navigations) + [Redirect(Some(reply.data.1)).value]
      ensures reply.Failed? ==>
        && unchanged(session) && navigations == old(navigations)
        && toasts == old(toasts) + [ErrorText(reply.detail, LoginFailedToast)]
    {
      loading := true;
      sent := loginData;
      if reply.Received? {
        var (token, user) := reply.data;
        session.Login(token, user);
        toasts := toasts + [LoginSucceededToast];
        var target := Redirect(Some(user));
        navigations := navigations + [target.value];
      } else {
        toasts := toasts + [ErrorText(reply.detail, LoginFailedToast)];
      }
      loading := false;
    }

    /** The roll-number field's onChange. */
    method OnRollNumberInput(typed: string)
      modifies this`registerData
      ensures registerData == old(registerData).(rollNumber := RollNumberInput(typed))
    {
      registerData := registerData.(rollNumber := RollNumberInput(typed));
    }

    /** handleRegister: posts the shaped payload; success resets the whole form and returns to the
        sign-in tab, failure keeps everything that was entered. */
    method HandleRegister(reply: Reply<()>) returns (payload: RegisterBody)
      modifies this`loading, this`registerData, this`otp, this`otpSent, this`activeTab, this`toasts
      ensures payload == RegisterPayload(old(registerData), old(otp)) && !loading
      ensures reply.Received? ==>
        && registerData == EmptyRegisterForm && otp == "" && !otpSent && activeTab == "login"
        && toasts == old(toasts) + [RegisteredToast]
      ensures reply.Failed? ==>
        && unchanged(this`registerData, this`otp, this`otpSent, this`activeTab)
        && toasts == old(toasts) + [ErrorText(reply.detail, RegisterFailedToast)]
    {
      loading := true;
      payload := RegisterPayload(registerData, otp);
      if reply.Received? {
        toasts := toasts + [RegisteredToast];
        registerData := EmptyRegisterForm;
        otp, otpSent, activeTab := "", false, "login";
      } else {
        toasts := toasts + [ErrorText(reply.detail, RegisterFailedToast)];
      }
      loading := false;
    }
  }
}
