/**
 * The combined sign-in and sign-up page. Its state is the mode, the sign-up form
 * and the sign-in form, each a record from input name to text; keystrokes go to
 * one record or the other by mode. `validateForm` builds its error record check
 * by check; the error shown is the first one recorded.
 */
module AuthPage {
  import opened Wrappers
  import ListOps
  import opened Text

  /** A form's state: input name to the text typed, `''` when untouched. */
  type Form = map<string, string>

  /** The text of an input. */
  function Get(f: Form, name: string): string {
    if name in f then f[name] else ""
  }

  /** The sign-up form's initial state: every input empty. */
  const InitialForm: Form := map[
    "firstName" := "", "lastName" := "", "email" := "", "phoneNumber" := "", "password" := "",
    "confirmPassword" := "", "course" := "", "tenthMarks" := "", "twelfthMarks" := "", "cpi" := "",
    "yearOfStudy" := "", "achievements" := "", "certifications" := "", "projects" := "", "interests" := ""]

  /** The sign-in form's initial state. */
  const InitialLogin: Form := map["email" := "", "password" := ""]

  datatype PageState = PageState(isLogin: bool, formData: Form, loginData: Form)

  /** The page opens in sign-in mode with both forms empty. */
  const Initial: PageState := PageState(true, InitialForm, InitialLogin)

  /** `handleInputChange`: write the input into the sign-in form in sign-in mode and into the sign-up form otherwise. */
  function HandleInputChange(s: PageState, name: string, value: string): (r: PageState)
    ensures r.isLogin == s.isLogin
    ensures s.isLogin ==> r.formData == s.formData && Get(r.loginData, name) == value
    ensures !s.isLogin ==> r.loginData == s.loginData && Get(r.formData, name) == value
    ensures forall other :: other != name ==> Get(r.formData, other) == Get(s.formData, other) &&
                                              Get(r.loginData, other) == Get(s.loginData, other)
  {
    if s.isLogin then s.(loginData := s.loginData[name := value])
    else s.(formData := s.formData[name := value])
  }

  /** A user action: typing into an input, or the link that switches mode. */
  datatype Event = Input(name: string, value: string) | SwitchMode

  /** The state after a sequence of actions. */
  function Replay(s: PageState, events: seq<Event>): PageState
    decreases |events|
  {
    if events == [] then s
    else
      var next := match events[0]
        case Input(name, value) => HandleInputChange(s, name, value)
        case SwitchMode => s.(isLogin := !s.isLogin);
      Replay(next, events[1..])
  }

  /** The sign-up inputs that must not be empty, with their messages, in check order. */
  const RequiredInSignup: seq<(string, string)> := [
    ("firstName", "First name is required"), ("lastName", "Last name is required"),
    ("phoneNumber", "Phone number is required"), ("course", "Course is required"),
    ("tenthMarks", "10th marks are required"), ("twelfthMarks", "12th marks are required"),
    ("cpi", "CPI is required"), ("yearOfStudy", "Year of study is required"),
    ("interests", "Interests are required")]

  /** The required check fails for an input of `f`. */
  function IsEmptyIn(f: Form): ((string, string)) -> bool {
    (check: (string, string)) => Get(f, check.0) == ""
  }

  /** The email check's entry, if any. */
  function EmailError(email: string): (e: seq<(string, string)>)
    ensures e == [] <==> email != "" && LooseEmail(email)
  {
    if email == "" then [("email", "Email is required")]
    else if !LooseEmail(email) then [("email", "Email is invalid")]
    else []
  }

  /** The password check's entry, if any. */
  function PasswordError(password: string): (e: seq<(string, string)>)
    ensures e == [] <==> |password| >= 6
  {
    if password == "" then [("password", "Password is required")]
    else if |password| < 6 then [("password", "Password must be at least 6 characters")]
    else []
  }

  /**
   * The entries of the error record, in insertion order: the failing required
   * checks (sign-up only), then email, password and, in sign-up mode, the
   * confirmation.
   */
  function FormErrors(isLogin: bool, f: Form): seq<(string, string)> {
    (if isLogin then [] else ListOps.Filter(RequiredInSignup, IsEmptyIn(f))) +
    EmailError(Get(f, "email")) + PasswordError(Get(f, "password")) +
    (if !isLogin && Get(f, "password") != Get(f, "confirmPassword") then [("confirmPassword", "Passwords do not match")] else [])
  }

  /** The required-field checks of `validateForm`: the failing ones, in check order. */
  method RequiredErrors(f: Form) returns (errors: seq<(string, string)>)
    ensures errors == ListOps.Filter(RequiredInSignup, IsEmptyIn(f))
  {
    errors := [];
    var i := 0;
    while i < |RequiredInSignup|
      invariant 0 <= i <= |RequiredInSignup|
      invariant errors == ListOps.Filter(RequiredInSignup[..i], IsEmptyIn(f))
    {
      var check := RequiredInSignup[i];
      ListOps.FilterAppend(RequiredInSignup[..i], [check], IsEmptyIn(f));
      assert RequiredInSignup[..i + 1] == RequiredInSignup[..i] + [check];
      if Get(f, check.0) == "" {
        errors := errors + [check];
      }
      i := i + 1;
    }
    assert RequiredInSignup[..i] == RequiredInSignup;
  }

  /** `validateForm`: record the failing checks in order; valid exactly when none failed, showing the first message otherwise. */
  method ValidateForm(isLogin: bool, f: Form) returns (valid: bool, error: Option<string>)
    ensures valid <==> FormErrors(isLogin, f) == []
    ensures error == if valid then None else Some(FormErrors(isLogin, f)[0].1)
  {
    var errors: seq<(string, string)> := [];
    if !isLogin {
      errors := RequiredErrors(f);
    }
    errors := errors + EmailError(Get(f, "email"));
    errors := errors + PasswordError(Get(f, "password"));
    if !isLogin && Get(f, "password") != Get(f, "confirmPassword") {
      errors := errors + [("confirmPassword", "Passwords do not match")];
    }
    valid := |errors| == 0;
    error := if valid then None else Some(errors[0].1);
  }

  /** The form passes exactly when the email and password pass and, in sign-up mode, every required input is filled and the confirmation matches. */
  lemma FormErrorsExact(isLogin: bool, f: Form)
    ensures FormErrors(isLogin, f) == [] <==>
              Get(f, "email") != "" && LooseEmail(Get(f, "email")) && |Get(f, "password")| >= 6 &&
              (!isLogin ==> Get(f, "password") == Get(f, "confirmPassword") &&
                            forall i :: 0 <= i < |RequiredInSignup| ==> Get(f, RequiredInSignup[i].0) != "")
  {
    ListOps.FilterEmptyIff(RequiredInSignup, IsEmptyIn(f));
  }

  /** In sign-in mode only the email and password are checked. */
  lemma SignInChecksOnlyCredentials(f: Form)
    ensures FormErrors(true, f) == EmailError(Get(f, "email")) + PasswordError(Get(f, "password"))
    ensures forall i :: 0 <= i < |FormErrors(true, f)| ==> FormErrors(true, f)[i].0 in {"email", "password"}
  {
    assert FormErrors(true, f) == [] + EmailError(Get(f, "email")) + PasswordError(Get(f, "password"));
  }

  /** The service call a submission makes, or the message it shows instead. */
  datatype Submission = Blocked(message: string) | SignIn(email: string, password: string) | Register(form: Form)

  /** `handleSubmit` as written: the sign-up form is validated in both modes, and sign-in sends the sign-in form. */
  function HandleSubmit(s: PageState): (r: Submission)
    ensures r.Blocked? <==> FormErrors(s.isLogin, s.formData) != []
    ensures r.Blocked? ==> r.message == FormErrors(s.isLogin, s.formData)[0].1
    ensures r.SignIn? ==> s.isLogin && r == SignIn(Get(s.loginData, "email"), Get(s.loginData, "password"))
    ensures r.Register? ==> !s.isLogin && r.form == s.formData
  {
    var errors := FormErrors(s.isLogin, s.formData);
    if errors != [] then Blocked(errors[0].1)
    else if s.isLogin then SignIn(Get(s.loginData, "email"), Get(s.loginData, "password"))
    else Register(s.formData)
  }

  /** Typing in sign-in mode never changes the sign-up form. */
  lemma {:induction false} SignInTypingKeepsForm(s: PageState, events: seq<Event>)
    requires s.isLogin && forall i :: 0 <= i < |events| ==> events[i].Input?
    ensures Replay(s, events).formData == s.formData && Replay(s, events).isLogin
    decreases |events|
  {
    if events != [] {
      var next := HandleInputChange(s, events[0].name, events[0].value);
      assert Replay(s, events) == Replay(next, events[1..]);
      SignInTypingKeepsForm(next, events[1..]);
    }
  }

  /** From the opening state, whatever is typed into the sign-in form, sign-in is blocked with 'Email is required'. */
  lemma SignInAlwaysBlocked(events: seq<Event>)
    requires forall i :: 0 <= i < |events| ==> events[i].Input?
    ensures HandleSubmit(Replay(Initial, events)) == Blocked("Email is required")
  {
    SignInTypingKeepsForm(Initial, events);
    var s := Replay(Initial, events);
    InitialFormEmpty();
    SignInChecksOnlyCredentials(s.formData);
  }

  /** The opening sign-up form has an empty email. */
  lemma InitialFormEmpty()
    ensures Get(InitialForm, "email") == ""
  {
    assert "email" in InitialForm;
  }

  /** The form a submission validates: the one the current mode types into. */
  function ActiveForm(s: PageState): Form {
    if s.isLogin then s.loginData else s.formData
  }

  /** The corrected submission: sign-in validates the sign-in form it sends. */
  function HandleSubmitFixed(s: PageState): (r: Submission)
    ensures r.Blocked? <==> FormErrors(s.isLogin, ActiveForm(s)) != []
    ensures r.Blocked? ==> r.message == FormErrors(s.isLogin, ActiveForm(s))[0].1
    ensures r.SignIn? ==> s.isLogin && r == SignIn(Get(s.loginData, "email"), Get(s.loginData, "password"))
    ensures r.Register? ==> !s.isLogin && r.form == s.formData
  {
    var errors := FormErrors(s.isLogin, ActiveForm(s));
    if errors != [] then Blocked(errors[0].1)
    else if s.isLogin then SignIn(Get(s.loginData, "email"), Get(s.loginData, "password"))
    else Register(s.formData)
  }

  /** With the correction, typing a well-formed email and a long enough password signs in with exactly them. */
  lemma FixedSignInSendsTyped(email: string, password: string)
    requires LooseEmail(email) && |password| >= 6
    ensures HandleSubmitFixed(Replay(Initial, [Input("email", email), Input("password", password)])) ==
            SignIn(email, password)
  {
    var events := [Input("email", email), Input("password", password)];
    var s1 := HandleInputChange(Initial, "email", email);
    var s2 := HandleInputChange(s1, "password", password);
    assert events[1..] == [Input("password", password)];
    assert Replay(Initial, events) == Replay(s1, events[1..]);
    assert Replay(s1, events[1..]) == Replay(s2, []);
    assert email != "" by {
      assert email[0] == email[0];
    }
    SignInChecksOnlyCredentials(s2.loginData);
  }

  /** The two submissions differ only in sign-in mode; a sign-up submission is the same. */
  lemma FixOnlyAffectsSignIn(s: PageState)
    requires !s.isLogin
    ensures HandleSubmitFixed(s) == HandleSubmit(s)
  {
  }

  /** Where a forgot-password submission ends. */
  datatype ForgotOutcome = ForgotBlocked(message: string) | RequestReset(email: string)

  /** `handleForgotPassword`: an empty or malformed email is refused before the reset is requested. */
  function HandleForgotPassword(resetEmail: string): (r: ForgotOutcome)
    ensures r.RequestReset? <==> resetEmail != "" && LooseEmail(resetEmail)
    ensures r.RequestReset? ==> r.email == resetEmail
    ensures resetEmail == "" ==> r == ForgotBlocked("Email is required")
    ensures resetEmail != "" && !LooseEmail(resetEmail) ==> r == ForgotBlocked("Invalid email format")
  {
    if resetEmail == "" then ForgotBlocked("Email is required")
    else if !LooseEmail(resetEmail) then ForgotBlocked("Invalid email format")
    else RequestReset(resetEmail)
  }

  /** The forgot-password form and the sign-in check accept the same emails, with different wording for a malformed one. */
  lemma ForgotAndSignInAgree(email: string)
    ensures HandleForgotPassword(email).RequestReset? <==> EmailError(email) == []
    ensures email != "" && !LooseEmail(email) ==>
              HandleForgotPassword(email).message != EmailError(email)[0].1
  {
    if email != "" && !LooseEmail(email) {
      assert "Invalid email format"[0] != "Email is invalid"[0];
    }
  }
}
