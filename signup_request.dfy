/**
 * The registration request body that both signup handlers check: eleven named
 * fields, any of which may be missing. JavaScript's falsiness decides presence:
 * a missing value, the empty string and the number 0 are all "not given".
 */
module SignupRequest {
  import opened Wrappers
  import ListOps
  import UserService

  datatype SignupData = SignupData(
    email: Option<string>, password: Option<string>, firstName: Option<string>, lastName: Option<string>,
    phoneNumber: Option<string>, course: Option<string>, tenthMarks: Option<real>, twelfthMarks: Option<real>,
    cpi: Option<real>, yearOfStudy: Option<real>, interests: Option<string>)

  /** The fields of the request. */
  datatype Field =
    | Email | Password | FirstName | LastName | PhoneNumber | Course
    | TenthMarks | TwelfthMarks | Cpi | YearOfStudy | Interests

  /** The key of a field in the request body, as the messages print it. */
  function Name(f: Field): string {
    match f
    case Email => "email"
    case Password => "password"
    case FirstName => "firstName"
    case LastName => "lastName"
    case PhoneNumber => "phoneNumber"
    case Course => "course"
    case TenthMarks => "tenthMarks"
    case TwelfthMarks => "twelfthMarks"
    case Cpi => "cpi"
    case YearOfStudy => "yearOfStudy"
    case Interests => "interests"
  }

  /** The fields both handlers require, in the order they check them. */
  const RequiredFields: seq<Field> := [
    Email, Password, FirstName, LastName, PhoneNumber, Course,
    TenthMarks, TwelfthMarks, Cpi, YearOfStudy, Interests
  ]

  /** A string field is truthy when it is given and not empty. */
  predicate TruthyText(v: Option<string>) {
    v.Some? && v.value != ""
  }

  /** A number field is truthy when it is given and not 0. */
  predicate TruthyNumber(v: Option<real>) {
    v.Some? && v.value != 0.0
  }

  /** `!!userData[field]`. */
  predicate Present(d: SignupData, f: Field) {
    match f
    case Email => TruthyText(d.email)
    case Password => TruthyText(d.password)
    case FirstName => TruthyText(d.firstName)
    case LastName => TruthyText(d.lastName)
    case PhoneNumber => TruthyText(d.phoneNumber)
    case Course => TruthyText(d.course)
    case TenthMarks => TruthyNumber(d.tenthMarks)
    case TwelfthMarks => TruthyNumber(d.twelfthMarks)
    case Cpi => TruthyNumber(d.cpi)
    case YearOfStudy => TruthyNumber(d.yearOfStudy)
    case Interests => TruthyText(d.interests)
  }

  /** `field => !userData[field]`. */
  function IsMissing(d: SignupData): Field -> bool {
    (f: Field) => !Present(d, f)
  }

  /** `requiredFields.filter(field => !userData[field])`. */
  function Missing(d: SignupData): seq<Field> {
    ListOps.Filter(RequiredFields, IsMissing(d))
  }

  /** Every required field is truthy. */
  predicate Complete(d: SignupData) {
    TruthyText(d.email) && TruthyText(d.password) && TruthyText(d.firstName) && TruthyText(d.lastName) &&
    TruthyText(d.phoneNumber) && TruthyText(d.course) && TruthyNumber(d.tenthMarks) &&
    TruthyNumber(d.twelfthMarks) && TruthyNumber(d.cpi) && TruthyNumber(d.yearOfStudy) && TruthyText(d.interests)
  }

  /** Every field is required. */
  lemma EveryFieldRequired(f: Field)
    ensures f in RequiredFields
  {
    match f
    case Email => assert RequiredFields[0] == f;
    case Password => assert RequiredFields[1] == f;
    case FirstName => assert RequiredFields[2] == f;
    case LastName => assert RequiredFields[3] == f;
    case PhoneNumber => assert RequiredFields[4] == f;
    case Course => assert RequiredFields[5] == f;
    case TenthMarks => assert RequiredFields[6] == f;
    case TwelfthMarks => assert RequiredFields[7] == f;
    case Cpi => assert RequiredFields[8] == f;
    case YearOfStudy => assert RequiredFields[9] == f;
    case Interests => assert RequiredFields[10] == f;
  }

  /** A request is complete exactly when every field is present. */
  lemma CompleteIsAllPresent(d: SignupData)
    ensures Complete(d) <==> forall f :: Present(d, f)
  {
    if forall f :: Present(d, f) {
      assert Present(d, Email) && Present(d, Password) && Present(d, FirstName) && Present(d, LastName);
      assert Present(d, PhoneNumber) && Present(d, Course) && Present(d, TenthMarks) && Present(d, TwelfthMarks);
      assert Present(d, Cpi) && Present(d, YearOfStudy) && Present(d, Interests);
    }
  }

  /** What is reported missing is exactly what is not present; nothing is missing exactly when the request is complete. */
  lemma MissingIsExact(d: SignupData)
    ensures forall f :: f in Missing(d) <==> !Present(d, f)
    ensures Missing(d) == [] <==> Complete(d)
  {
    forall f | !Present(d, f)
      ensures f in Missing(d)
    {
      EveryFieldRequired(f);
      var i :| 0 <= i < |RequiredFields| && RequiredFields[i] == f;
    }
    CompleteIsAllPresent(d);
    if !Complete(d) {
      var f :| !Present(d, f);
      assert f in Missing(d);
    }
  }

  /** The missing fields are reported in the order of the list. */
  lemma MissingInOrder(d: SignupData)
    ensures ListOps.IsSublist(Missing(d), RequiredFields)
  {
    ListOps.FilterIsOrderedSelection(RequiredFields, IsMissing(d));
  }

  /** The first field reported missing is the first field of the list that is not present. */
  lemma FirstMissingIsHead(d: SignupData, i: int)
    requires 0 <= i < |RequiredFields| && !Present(d, RequiredFields[i])
    requires forall j :: 0 <= j < i ==> Present(d, RequiredFields[j])
    ensures Missing(d) != [] && Missing(d)[0] == RequiredFields[i]
  {
    var before, after := RequiredFields[..i], RequiredFields[i..];
    assert before + after == RequiredFields;
    ListOps.FilterAppend(before, after, IsMissing(d));
    ListOps.FilterDropsAll(before, IsMissing(d));
    assert after[0] == RequiredFields[i];
  }

  /** A number 0 counts as not given: a request whose tenth marks are 0 reports that field missing. */
  lemma ZeroMarksAreMissing(d: SignupData)
    requires d.tenthMarks == Some(0.0)
    ensures TenthMarks in Missing(d) && !Complete(d)
  {
    assert RequiredFields[6] == TenthMarks && IsMissing(d)(RequiredFields[6]);
  }

  /**
   * The range checks in order: tenth and twelfth marks in [0, 100], CPI in [0, 10]
   * and year of study in [1, 4]; the first failure is reported.
   */
  function RangeError(tenthMarks: real, twelfthMarks: real, cpi: real, yearOfStudy: real): (e: Option<string>)
    ensures e.None? <==> 0.0 <= tenthMarks <= 100.0 && 0.0 <= twelfthMarks <= 100.0 && 0.0 <= cpi <= 10.0 &&
                         1.0 <= yearOfStudy <= 4.0
    ensures !(0.0 <= tenthMarks <= 100.0) ==> e == Some("10th marks must be between 0 and 100")
    ensures 0.0 <= tenthMarks <= 100.0 && !(0.0 <= twelfthMarks <= 100.0) ==>
              e == Some("12th marks must be between 0 and 100")
    ensures 0.0 <= tenthMarks <= 100.0 && 0.0 <= twelfthMarks <= 100.0 && !(0.0 <= cpi <= 10.0) ==>
              e == Some("CPI must be between 0 and 10")
    ensures (0.0 <= tenthMarks <= 100.0 && 0.0 <= twelfthMarks <= 100.0 && 0.0 <= cpi <= 10.0 &&
             !(1.0 <= yearOfStudy <= 4.0)) ==> e == Some("Year of study must be between 1 and 4")
  {
    if tenthMarks < 0.0 || tenthMarks > 100.0 then Some("10th marks must be between 0 and 100")
    else if twelfthMarks < 0.0 || twelfthMarks > 100.0 then Some("12th marks must be between 0 and 100")
    else if cpi < 0.0 || cpi > 10.0 then Some("CPI must be between 0 and 10")
    else if yearOfStudy < 1.0 || yearOfStudy > 4.0 then Some("Year of study must be between 1 and 4")
    else None
  }

  /** The ranges of a complete request. */
  function RangeErrorOf(d: SignupData): Option<string>
    requires Complete(d)
  {
    RangeError(d.tenthMarks.value, d.twelfthMarks.value, d.cpi.value, d.yearOfStudy.value)
  }

  /** The fields `userService.register` receives from a complete request. */
  function AsRegistration(d: SignupData): (u: UserService.Registration)
    requires Complete(d)
    ensures u.email == d.email.value && u.password == d.password.value && u.phoneNumber == d.phoneNumber.value
    ensures u.firstName == d.firstName.value && u.lastName == d.lastName.value && u.course == d.course.value
    ensures u.tenthMarks == d.tenthMarks.value && u.twelfthMarks == d.twelfthMarks.value
    ensures u.cpi == d.cpi.value && u.yearOfStudy == d.yearOfStudy.value && u.interests == d.interests.value
  {
    UserService.Registration(
      d.email.value, d.password.value, d.firstName.value, d.lastName.value, d.phoneNumber.value,
      d.course.value, d.tenthMarks.value, d.twelfthMarks.value, d.cpi.value, d.yearOfStudy.value,
      d.interests.value)
  }
}
