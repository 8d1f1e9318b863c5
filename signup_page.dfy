/**
 * The stand-alone sign-up page. `validateForm` builds a fresh error record check
 * by check; submission goes ahead only when the record has no keys; typing into
 * an input clears that input's error. `Number(...)` is a parameter that gives
 * `None` for text that is not a number (`NaN`, which fails every comparison).
 */
module SignupPage {
  import opened Wrappers
  import opened Text

  /** The inputs of the form, one per field of its `FormData`. */
  datatype Input =
    | FirstName | LastName | PhoneNumber | Email | Course
    | TenthMarks | TwelfthMarks | CurrentCGPA | Achievements | Certifications

  /** The `name` attribute of an input, the key a change event carries. */
  function Name(i: Input): string {
    match i
    case FirstName => "firstName"
    case LastName => "lastName"
    case PhoneNumber => "phoneNumber"
    case Email => "email"
    case Course => "course"
    case TenthMarks => "tenthMarks"
    case TwelfthMarks => "twelfthMarks"
    case CurrentCGPA => "currentCGPA"
    case Achievements => "achievements"
    case Certifications => "certifications"
  }

  /** The form: input to the text typed. */
  type Form = map<Input, string>

  /** The text of an input, `''` when untouched. */
  function Get(f: Form, i: Input): string {
    if i in f then f[i] else ""
  }

  /**
   * The error record, keyed by input name: `None` where the record has no such key,
   * `Some('')` for an error that typing cleared.
   */
  datatype Errors = Errors(
    firstName: Option<string>, lastName: Option<string>, phoneNumber: Option<string>, email: Option<string>,
    course: Option<string>, tenthMarks: Option<string>, twelfthMarks: Option<string>,
    currentCGPA: Option<string>, achievements: Option<string>, certifications: Option<string>)

  /** `{}`. */
  const NoErrors := Errors(None, None, None, None, None, None, None, None, None, None)

  /** `errors[name]`. */
  function Lookup(e: Errors, i: Input): Option<string> {
    match i
    case FirstName => e.firstName
    case LastName => e.lastName
    case PhoneNumber => e.phoneNumber
    case Email => e.email
    case Course => e.course
    case TenthMarks => e.tenthMarks
    case TwelfthMarks => e.twelfthMarks
    case CurrentCGPA => e.currentCGPA
    case Achievements => e.achievements
    case Certifications => e.certifications
  }

  /** `{...errors, [name]: message}`. */
  function Assign(e: Errors, i: Input, message: string): (r: Errors)
    ensures Lookup(r, i) == Some(message)
    ensures forall j :: j != i ==> Lookup(r, j) == Lookup(e, j)
  {
    match i
    case FirstName => e.(firstName := Some(message))
    case LastName => e.(lastName := Some(message))
    case PhoneNumber => e.(phoneNumber := Some(message))
    case Email => e.(email := Some(message))
    case Course => e.(course := Some(message))
    case TenthMarks => e.(tenthMarks := Some(message))
    case TwelfthMarks => e.(twelfthMarks := Some(message))
    case CurrentCGPA => e.(currentCGPA := Some(message))
    case Achievements => e.(achievements := Some(message))
    case Certifications => e.(certifications := Some(message))
  }

  /** `Object.keys(errors).length === 0`. */
  predicate HasNoKeys(e: Errors) {
    forall i :: Lookup(e, i).None?
  }

  /** The messages of `validateForm`. */
  const FirstNameRequired := "First name is required"
  const LastNameRequired := "Last name is required"
  const EmailRequired := "Email is required"
  const CourseRequired := "Course selection is required"
  const PhoneRequired := "Phone number is required"
  const PhoneNotTenDigits := "Phone number must be 10 digits"
  const InvalidEmail := "Invalid email format"
  const MarksOutOfRange := "Marks must be between 0 and 100"
  const CgpaOutOfRange := "CGPA must be between 0 and 10"

  /** `Number(text)`; `None` stands for `NaN`. */
  type ToNumber = string -> Option<real>

  /** A non-empty input whose number lies outside `[lo, hi]`; text that is not a number is never out of range. */
  predicate OutOfRange(text: string, toNumber: ToNumber, lo: real, hi: real) {
    text != "" && toNumber(text).Some? && (toNumber(text).value < lo || toNumber(text).value > hi)
  }

  /** The form `validateForm` accepts. */
  predicate Acceptable(f: Form, toNumber: ToNumber) {
    Get(f, FirstName) != "" && Get(f, LastName) != "" && Get(f, Course) != "" &&
    Get(f, Email) != "" && StrictEmail(Get(f, Email)) && IsTenDigits(Get(f, PhoneNumber)) &&
    !OutOfRange(Get(f, TenthMarks), toNumber, 0.0, 100.0) &&
    !OutOfRange(Get(f, TwelfthMarks), toNumber, 0.0, 100.0) &&
    !OutOfRange(Get(f, CurrentCGPA), toNumber, 0.0, 10.0)
  }

  /**
   * What the record holds for each input once every check has run: the message of
   * the last check that failed for it. Achievements and certifications are not checked.
   */
  function Expected(f: Form, toNumber: ToNumber, i: Input): Option<string> {
    match i
    case FirstName => if Get(f, FirstName) == "" then Some(FirstNameRequired) else None
    case LastName => if Get(f, LastName) == "" then Some(LastNameRequired) else None
    case Email =>
      if Get(f, Email) == "" then Some(EmailRequired)
      else if !StrictEmail(Get(f, Email)) then Some(InvalidEmail)
      else None
    case Course => if Get(f, Course) == "" then Some(CourseRequired) else None
    case PhoneNumber =>
      if Get(f, PhoneNumber) == "" then Some(PhoneRequired)
      else if !IsTenDigits(Get(f, PhoneNumber)) then Some(PhoneNotTenDigits)
      else None
    case TenthMarks =>
      if OutOfRange(Get(f, TenthMarks), toNumber, 0.0, 100.0) then Some(MarksOutOfRange) else None
    case TwelfthMarks =>
      if OutOfRange(Get(f, TwelfthMarks), toNumber, 0.0, 100.0) then Some(MarksOutOfRange) else None
    case CurrentCGPA =>
      if OutOfRange(Get(f, CurrentCGPA), toNumber, 0.0, 10.0) then Some(CgpaOutOfRange) else None
    case Achievements => None
    case Certifications => None
  }

  /** The required-field section of `validateForm`, on a fresh record. */
  method RequiredChecks(f: Form) returns (errors: Errors)
    ensures errors.firstName == (if Get(f, FirstName) == "" then Some(FirstNameRequired) else None)
    ensures errors.lastName == (if Get(f, LastName) == "" then Some(LastNameRequired) else None)
    ensures errors.email == (if Get(f, Email) == "" then Some(EmailRequired) else None)
    ensures errors.course == (if Get(f, Course) == "" then Some(CourseRequired) else None)
    ensures errors.(firstName := None, lastName := None, email := None, course := None) == NoErrors
  {
    errors := NoErrors;
    if Get(f, FirstName) == "" { errors := errors.(firstName := Some(FirstNameRequired)); }
    if Get(f, LastName) == "" { errors := errors.(lastName := Some(LastNameRequired)); }
    if Get(f, Email) == "" { errors := errors.(email := Some(EmailRequired)); }
    if Get(f, Course) == "" { errors := errors.(course := Some(CourseRequired)); }
  }

  /** The phone-number and email-format sections: the phone check sets its own message; a malformed email overwrites the email entry. */
  method FormatChecks(f: Form, prior: Errors) returns (errors: Errors)
    ensures errors.phoneNumber ==
              if Get(f, PhoneNumber) == "" then Some(PhoneRequired)
              else if !IsTenDigits(Get(f, PhoneNumber)) then Some(PhoneNotTenDigits)
              else prior.phoneNumber
    ensures errors.email == if Get(f, Email) != "" && !StrictEmail(Get(f, Email)) then Some(InvalidEmail) else prior.email
    ensures errors.(phoneNumber := prior.phoneNumber, email := prior.email) == prior
  {
    errors := prior;
    var phone := Get(f, PhoneNumber);
    if phone == "" {
      errors := errors.(phoneNumber := Some(PhoneRequired));
    } else if !IsTenDigits(phone) {
      errors := errors.(phoneNumber := Some(PhoneNotTenDigits));
    }
    var email := Get(f, Email);
    if email != "" && !StrictEmail(email) {
      errors := errors.(email := Some(InvalidEmail));
    }
  }

  /** The marks and CGPA sections: an input outside its range gets its message. */
  method RangeChecks(f: Form, toNumber: ToNumber, prior: Errors) returns (errors: Errors)
    ensures errors.tenthMarks ==
              if OutOfRange(Get(f, TenthMarks), toNumber, 0.0, 100.0) then Some(MarksOutOfRange) else prior.tenthMarks
    ensures errors.twelfthMarks ==
              if OutOfRange(Get(f, TwelfthMarks), toNumber, 0.0, 100.0) then Some(MarksOutOfRange) else prior.twelfthMarks
    ensures errors.currentCGPA ==
              if OutOfRange(Get(f, CurrentCGPA), toNumber, 0.0, 10.0) then Some(CgpaOutOfRange) else prior.currentCGPA
    ensures errors.(tenthMarks := prior.tenthMarks, twelfthMarks := prior.twelfthMarks,
                    currentCGPA := prior.currentCGPA) == prior
  {
    errors := prior;
    if OutOfRange(Get(f, TenthMarks), toNumber, 0.0, 100.0) {
      errors := errors.(tenthMarks := Some(MarksOutOfRange));
    }
    if OutOfRange(Get(f, TwelfthMarks), toNumber, 0.0, 100.0) {
      errors := errors.(twelfthMarks := Some(MarksOutOfRange));
    }
    if OutOfRange(Get(f, CurrentCGPA), toNumber, 0.0, 10.0) {
      errors := errors.(currentCGPA := Some(CgpaOutOfRange));
    }
  }

  /** `validateForm`: the error record, built check by check, holds for each input the message of the last check it failed. */
  method ValidateForm(f: Form, toNumber: ToNumber) returns (errors: Errors)
    ensures forall i :: Lookup(errors, i) == Expected(f, toNumber, i)
  {
    errors := RequiredChecks(f);
    errors := FormatChecks(f, errors);
    errors := RangeChecks(f, toNumber, errors);
    forall i
      ensures Lookup(errors, i) == Expected(f, toNumber, i)
    {
      match i
      case FirstName =>
      case LastName =>
      case PhoneNumber =>
      case Email =>
      case Course =>
      case TenthMarks =>
      case TwelfthMarks =>
      case CurrentCGPA =>
      case Achievements =>
      case Certifications =>
    }
  }

  /** Every recorded message is non-empty, and the record has no keys exactly when the form is acceptable. */
  lemma ExpectedExact(f: Form, toNumber: ToNumber)
    ensures forall i :: Expected(f, toNumber, i).Some? ==> Expected(f, toNumber, i).value != ""
    ensures (forall i :: Expected(f, toNumber, i).None?) <==> Acceptable(f, toNumber)
  {
    if !Acceptable(f, toNumber) {
      if Get(f, FirstName) == "" { assert Expected(f, toNumber, FirstName).Some?; }
      else if Get(f, LastName) == "" { assert Expected(f, toNumber, LastName).Some?; }
      else if Get(f, Course) == "" { assert Expected(f, toNumber, Course).Some?; }
      else if Get(f, Email) == "" || !StrictEmail(Get(f, Email)) { assert Expected(f, toNumber, Email).Some?; }
      else if !IsTenDigits(Get(f, PhoneNumber)) { assert Expected(f, toNumber, PhoneNumber).Some?; }
      else if OutOfRange(Get(f, TenthMarks), toNumber, 0.0, 100.0) { assert Expected(f, toNumber, TenthMarks).Some?; }
      else if OutOfRange(Get(f, TwelfthMarks), toNumber, 0.0, 100.0) { assert Expected(f, toNumber, TwelfthMarks).Some?; }
      else { assert Expected(f, toNumber, CurrentCGPA).Some?; }
    }
  }

  /** A record has no keys exactly when it is `{}`. */
  lemma NoKeysIsEmpty(e: Errors)
    ensures HasNoKeys(e) <==> e == NoErrors
  {
    if HasNoKeys(e) {
      assert Lookup(e, FirstName).None? && Lookup(e, LastName).None? && Lookup(e, PhoneNumber).None?;
      assert Lookup(e, Email).None? && Lookup(e, Course).None? && Lookup(e, TenthMarks).None?;
      assert Lookup(e, TwelfthMarks).None? && Lookup(e, CurrentCGPA).None?;
      assert Lookup(e, Achievements).None? && Lookup(e, Certifications).None?;
    }
  }

  /** `handleSubmit`: show the fresh errors, and go ahead exactly when the record has no keys. */
  method HandleSubmit(f: Form, toNumber: ToNumber) returns (errors: Errors, proceeds: bool)
    ensures forall i :: Lookup(errors, i) == Expected(f, toNumber, i)
    ensures proceeds <==> HasNoKeys(errors)
    ensures proceeds <==> Acceptable(f, toNumber)
  {
    errors := ValidateForm(f, toNumber);
    proceeds := errors == NoErrors;
    ExpectedExact(f, toNumber);
    NoKeysIsEmpty(errors);
  }

  /** A well-formed complete form goes ahead; one with a malformed email does not. */
  lemma AcceptsWellFormed(f: Form, toNumber: ToNumber)
    requires Get(f, FirstName) != "" && Get(f, LastName) != "" && Get(f, Course) != ""
    requires Get(f, Email) == "a@b.c" && Get(f, PhoneNumber) == "0123456789"
    requires forall i :: i in f && i != FirstName && i != LastName && i != Course && i != Email && i != PhoneNumber ==> f[i] == ""
    ensures Acceptable(f, toNumber)
    ensures !Acceptable(f[Email := "a@b@c.d"], toNumber)
  {
    var s := "a@b.c";
    assert s[1] == '@' && s[3] == '.' && OnlyAtSignAt(s, 1) && NoSpaceIn(s, 0, |s|);
    StrictAndLooseDiffer();
    assert Get(f, TenthMarks) == "" && Get(f, TwelfthMarks) == "" && Get(f, CurrentCGPA) == "";
  }

  /** The page's state: the form and the errors on show. */
  datatype PageState = PageState(formData: Form, errors: Errors)

  /** `handleInputChange`: store the text, and clear the input's error if one is shown. */
  function HandleInputChange(s: PageState, name: Input, value: string): (r: PageState)
    ensures Get(r.formData, name) == value
    ensures forall other :: other != name ==> Get(r.formData, other) == Get(s.formData, other)
    ensures forall other :: other != name ==> Lookup(r.errors, other) == Lookup(s.errors, other)
    ensures Lookup(s.errors, name).Some? && Lookup(s.errors, name).value != "" ==> Lookup(r.errors, name) == Some("")
    ensures !(Lookup(s.errors, name).Some? && Lookup(s.errors, name).value != "") ==> r.errors == s.errors
  {
    var form := s.formData[name := value];
    if Lookup(s.errors, name).Some? && Lookup(s.errors, name).value != "" then PageState(form, Assign(s.errors, name, ""))
    else PageState(form, s.errors)
  }

  /** After typing into an input, no error is shown for it. */
  lemma TypingHidesOwnError(s: PageState, name: Input, value: string)
    ensures var e := Lookup(HandleInputChange(s, name, value).errors, name); e.None? || e.value == ""
  {
  }

  /** A cleared error keeps its key, so typing never empties a non-empty record; only a new validation does. */
  lemma ClearedErrorsKeepKeys(s: PageState, name: Input, value: string)
    requires !HasNoKeys(s.errors)
    ensures !HasNoKeys(HandleInputChange(s, name, value).errors)
  {
    var i :| Lookup(s.errors, i).Some?;
    assert Lookup(HandleInputChange(s, name, value).errors, i).Some?;
  }
}
