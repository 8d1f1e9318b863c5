/**
 * The `pages/api/auth/signup.js` handler: the method check, every missing field
 * listed at once, then the password, phone and range guards, each answered with
 * 400, and the registration answered with 201 or, when it throws, 500. The
 * registration callee is a parameter.
 */
module SignupRoute {
  import opened Wrappers
  import opened Text
  import opened SignupRequest
  import UserService
  import SignupApi

  /** A response: the status and the `message` of its JSON body, with `userId` on success. */
  datatype Response = Response(status: int, message: string, userId: Option<UserService.PublicUser>)

  const MethodNotAllowed := "Method not allowed"
  const PasswordTooShort := "Password must be at least 6 characters long"
  const BadPhoneNumber := "Phone number must be 10 digits"
  const Registered := "User registered successfully"
  const RegisterFailed := "Failed to register user"

  /** A 400 response with the given message. */
  function BadRequest(message: string): Response {
    Response(400, message, None)
  }

  /** The keys of the given fields, in order. */
  function Names(fs: seq<Field>): (r: seq<string>)
    ensures |r| == |fs|
    ensures forall i :: 0 <= i < |fs| ==> r[i] == Name(fs[i])
  {
    if fs == [] then [] else [Name(fs[0])] + Names(fs[1..])
  }

  /** The check that rejects a POST body before registration, if any. */
  function RequestError(d: SignupData): (e: Option<string>)
    ensures e.None? <==> Complete(d) && |d.password.value| >= 6 && IsTenDigits(d.phoneNumber.value) &&
                         RangeErrorOf(d).None?
    ensures Missing(d) != [] ==> e == Some("Missing required fields: " + Join(Names(Missing(d)), ", "))
    ensures Complete(d) && |d.password.value| < 6 ==> e == Some(PasswordTooShort)
    ensures Complete(d) && |d.password.value| >= 6 && !IsTenDigits(d.phoneNumber.value) ==> e == Some(BadPhoneNumber)
    ensures Complete(d) && |d.password.value| >= 6 && IsTenDigits(d.phoneNumber.value) ==> e == RangeErrorOf(d)
  {
    MissingIsExact(d);
    var missing := Missing(d);
    if missing != [] then Some("Missing required fields: " + Join(Names(missing), ", "))
    else if |d.password.value| < 6 then Some(PasswordTooShort)
    else if !IsTenDigits(d.phoneNumber.value) then Some(BadPhoneNumber)
    else RangeErrorOf(d)
  }

  /** `error.message || 'Failed to register user'`. */
  function FailureMessage(message: string): (m: string)
    ensures m != ""
    ensures message != "" ==> m == message
  {
    if message == "" then RegisterFailed else message
  }

  /** The response of the handler for a method, a body and the registration callee. */
  function Handle(httpMethod: string, d: SignupData, register: UserService.Registration -> Result<UserService.PublicUser>): (r: Response)
    ensures httpMethod != "POST" ==> r == Response(405, MethodNotAllowed, None)
    ensures httpMethod == "POST" && RequestError(d).Some? ==> r == BadRequest(RequestError(d).value)
    ensures r.status == 201 <==> httpMethod == "POST" && RequestError(d).None? && register(AsRegistration(d)).Success?
    ensures r.status == 201 ==> r == Response(201, Registered, Some(register(AsRegistration(d)).value))
    ensures r.status == 500 ==> r.message == FailureMessage(register(AsRegistration(d)).error) && r.message != ""
    ensures httpMethod == "POST" && RequestError(d).None? && register(AsRegistration(d)).Failure? ==>
              r == Response(500, FailureMessage(register(AsRegistration(d)).error), None)
    ensures r.status in {201, 400, 405, 500}
    ensures r.status in {201, 500} ==> httpMethod == "POST" && RequestError(d).None?
  {
    if httpMethod != "POST" then Response(405, MethodNotAllowed, None)
    else match RequestError(d)
      case Some(message) => BadRequest(message)
      case None =>
        match register(AsRegistration(d))
        case Success(user) => Response(201, Registered, Some(user))
        case Failure(message) => Response(500, FailureMessage(message), None)
  }

  /**
   * The route and `signup.ts` accept the same bodies. Where `signup.ts` names one
   * missing field, the route lists every missing field, starting with that one.
   */
  lemma RouteAgreesWithApi(d: SignupData)
    ensures RequestError(d).None? <==> SignupApi.SignupError(d).None?
    ensures Complete(d) && |d.password.value| < 6 ==> RequestError(d) == SignupApi.SignupError(d)
    ensures Complete(d) && |d.password.value| >= 6 && IsTenDigits(d.phoneNumber.value) ==>
              RequestError(d) == SignupApi.SignupError(d)
    ensures Missing(d) != [] ==>
              SignupApi.SignupError(d) == Some(Name(Missing(d)[0]) + " is required") &&
              StartsWith(RequestError(d).value, "Missing required fields: " + Name(Missing(d)[0]))
  {
    var missing := Missing(d);
    if missing != [] {
      var names := Names(missing);
      JoinStartsWithHead(names, ", ");
      var prefix := "Missing required fields: ";
      var joined := Join(names, ", ");
      assert StartsWith(prefix + joined, prefix + names[0]) by {
        assert (prefix + joined)[..|prefix + names[0]|] == prefix + joined[..|names[0]|];
      }
    }
  }

  /** A joined list starts with its first element. */
  lemma JoinStartsWithHead(xs: seq<string>, sep: string)
    requires xs != []
    ensures StartsWith(Join(xs, sep), xs[0])
  {
    if |xs| > 1 {
      assert Join(xs, sep)[..|xs[0]|] == xs[0];
    }
  }
}
