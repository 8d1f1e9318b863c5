/**
 * `signup` of `api/auth/signup.ts`: a loop that rejects the first required field
 * that is not given, then the password, phone and range guards, and only then
 * `userService.register`. Each rejection is a thrown error; here it is a `Failure`.
 */
module SignupApi {
  import opened Wrappers
  import ListOps
  import opened Text
  import opened UsersTable
  import opened SignupRequest
  import UserService

  const PasswordTooShort := "Password must be at least 6 characters long"
  const BadPhoneNumber := "Phone number must be exactly 10 digits"

  /** The first error `signup` throws for a request, or `None` when it reaches `register`. */
  function SignupError(d: SignupData): (e: Option<string>)
    ensures e.None? <==> Complete(d) && |d.password.value| >= 6 && IsTenDigits(d.phoneNumber.value) &&
                         RangeErrorOf(d).None?
    ensures Missing(d) != [] ==> e == Some(Name(Missing(d)[0]) + " is required")
    ensures Complete(d) && |d.password.value| < 6 ==> e == Some(PasswordTooShort)
    ensures Complete(d) && |d.password.value| >= 6 && !IsTenDigits(d.phoneNumber.value) ==> e == Some(BadPhoneNumber)
    ensures Complete(d) && |d.password.value| >= 6 && IsTenDigits(d.phoneNumber.value) ==> e == RangeErrorOf(d)
  {
    MissingIsExact(d);
    if Missing(d) != [] then Some(Name(Missing(d)[0]) + " is required")
    else if |d.password.value| < 6 then Some(PasswordTooShort)
    else if !IsTenDigits(d.phoneNumber.value) then Some(BadPhoneNumber)
    else RangeErrorOf(d)
  }

  /** The `for (const field of requiredFields)` loop: the first field that is not given. */
  method FirstMissing(d: SignupData) returns (r: Option<Field>)
    ensures r.None? <==> Complete(d)
    ensures r.Some? ==> Missing(d) != [] && r.value == Missing(d)[0] && !Present(d, r.value)
  {
    for i := 0 to |RequiredFields|
      invariant forall j :: 0 <= j < i ==> Present(d, RequiredFields[j])
    {
      if !Present(d, RequiredFields[i]) {
        FirstMissingIsHead(d, i);
        MissingIsExact(d);
        return Some(RequiredFields[i]);
      }
    }
    ListOps.FilterDropsAll(RequiredFields, IsMissing(d));
    MissingIsExact(d);
    return None;
  }

  /**
   * `signup`: the checks in order, then the insert. The caller receives the new
   * row's id, the `userId` of `{success: true, userId}`.
   */
  method Signup(t: Table, d: SignupData, c: Crypto) returns (r: Result<int>)
    requires t.Valid()
    modifies t
    ensures t.Valid()
    ensures r.Failure? <==> SignupError(d).Some?
    ensures r.Failure? ==> r.error == SignupError(d).value && t.rows == old(t.rows) && t.nextId == old(t.nextId)
    ensures r.Success? ==> Complete(d) && r.value == old(t.nextId) && r.value !in old(t.rows) &&
                           t.rows == old(t.rows)[r.value := UserService.RegisteredRow(AsRegistration(d), c)] &&
                           t.nextId == r.value + 1
  {
    var missing := FirstMissing(d);
    if missing.Some? {
      return Failure(Name(missing.value) + " is required");
    }
    if |d.password.value| < 6 {
      return Failure(PasswordTooShort);
    }
    if !IsTenDigits(d.phoneNumber.value) {
      return Failure(BadPhoneNumber);
    }
    var range := RangeErrorOf(d);
    if range.Some? {
      return Failure(range.value);
    }
    var user := UserService.Register(t, AsRegistration(d), c);
    r := Success(user.id);
  }

  /** A request whose tenth marks are 0 is rejected as missing that field, never by the range check. */
  lemma ZeroMarksReportedAsRequired(d: SignupData)
    requires d.tenthMarks == Some(0.0)
    ensures TenthMarks in Missing(d) && SignupError(d) == Some(Name(Missing(d)[0]) + " is required")
  {
    ZeroMarksAreMissing(d);
  }

  /** When the fields before field `i` are given and field `i` is not, `signup` names field `i`. */
  lemma FirstFalsyFieldIsNamed(d: SignupData, i: int)
    requires 0 <= i < |RequiredFields| && !Present(d, RequiredFields[i])
    requires forall j :: 0 <= j < i ==> Present(d, RequiredFields[j])
    ensures SignupError(d) == Some(Name(RequiredFields[i]) + " is required")
  {
    FirstMissingIsHead(d, i);
  }

  /** A registered request stores the password only as its digest. */
  lemma SignupStoresDigest(d: SignupData, c: Crypto)
    requires Complete(d)
    ensures Col(UserService.RegisteredRow(AsRegistration(d), c), "password") == Hashed(c.hash(d.password.value))
  {
    UserService.RegisteredRowHidesPassword(AsRegistration(d), d.password.value, c);
  }
}
