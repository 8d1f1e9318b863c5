/**
 * The `pages/api/auth/login.js` handler: the method and missing-credential
 * checks, the lookup through a login callee, the token signed over the user's id
 * and email, the session cookie, and the body that names the user. The login and
 * signing callees are parameters; every error they raise becomes a 401.
 */
module LoginRoute {
  import opened Wrappers
  import opened UsersTable
  import UserService
  import AuthService

  /** The claims signed into the token, with the `expiresIn` option. */
  datatype Payload = Payload(userId: int, email: Value, expiresIn: string)

  /** The `user` object of a successful response. */
  datatype UserView = UserView(id: int, email: Value, firstName: Value, lastName: Value)

  /** A response: status, `message`, the `Set-Cookie` header when one is set, and `user`. */
  datatype Response = Response(status: int, message: string, cookie: Option<string>, user: Option<UserView>)

  const MethodNotAllowed := "Method not allowed"
  const CredentialsRequired := "Email and password are required"
  const LoginSuccessful := "Login successful"
  const InvalidCredentials := "Invalid credentials"
  /** The `TypeError` that reading `user.id` of a `null` user raises. */
  const NullUser := "Cannot read properties of null (reading 'id')"

  /** `24 * 60 * 60`: the cookie lives one day. */
  const MaxAgeSeconds: nat := 24 * 60 * 60

  /** The decimal digit for `d`. */
  function DigitChar(d: nat): char
    requires d < 10
  {
    ('0' as int + d) as char
  }

  /** The decimal numeral of `n`, as a template literal prints it. */
  function Decimal(n: nat): (s: string)
    ensures s != []
    ensures forall i :: 0 <= i < |s| ==> '0' <= s[i] <= '9'
    ensures n >= 10 ==> s[0] != '0'
  {
    if n < 10 then [DigitChar(n)] else Decimal(n / 10) + [DigitChar(n % 10)]
  }

  /** The value of a decimal numeral. */
  function ValueOf(s: string): int
    requires forall i :: 0 <= i < |s| ==> '0' <= s[i] <= '9'
  {
    if s == [] then 0 else ValueOf(s[..|s| - 1]) * 10 + (s[|s| - 1] as int - '0' as int)
  }

  /** `Decimal` writes the numeral that reads back as `n`. */
  lemma {:induction false} DecimalReadsBack(n: nat)
    ensures ValueOf(Decimal(n)) == n
  {
    if n >= 10 {
      DecimalReadsBack(n / 10);
      var s := Decimal(n);
      assert s[..|s| - 1] == Decimal(n / 10);
    }
  }

  /** The `Set-Cookie` header for a token. */
  function Cookie(token: string): string {
    "token=" + token + "; Path=/; HttpOnly; SameSite=Strict; Max-Age=" + Decimal(MaxAgeSeconds)
  }

  /** The header is exactly the token followed by the fixed attributes (RFC 6265 section 4.1). */
  lemma CookieIsExact(token: string)
    ensures Cookie(token) == "token=" + token + "; Path=/; HttpOnly; SameSite=Strict; Max-Age=86400"
  {
    assert Decimal(MaxAgeSeconds) == "86400";
  }

  /** A string field is truthy when it is given and not empty. */
  predicate Truthy(v: Option<string>) {
    v.Some? && v.value != ""
  }

  /** `error.message || 'Invalid credentials'`. */
  function ErrorMessage(message: string): (m: string)
    ensures m != ""
    ensures message != "" ==> m == message
  {
    if message == "" then InvalidCredentials else message
  }

  /** The `user` object: the id, the email and the two name columns, nothing else. */
  function View(u: User): (v: UserView)
    ensures v.id == u.id && v.email == Col(u.row, "email")
    ensures v.firstName == Col(u.row, "first_name") && v.lastName == Col(u.row, "last_name")
  {
    UserView(u.id, Col(u.row, "email"), Col(u.row, "first_name"), Col(u.row, "last_name"))
  }

  /** A 401 response. */
  function Unauthorized(message: string): Response {
    Response(401, message, None, None)
  }

  /** The response for a method, the body's credentials, and the two callees. */
  function Handle(httpMethod: string, email: Option<string>, password: Option<string>,
                  login: (string, string) -> Result<Option<User>>, sign: Payload -> Result<string>): (r: Response)
    ensures httpMethod != "POST" ==> r == Response(405, MethodNotAllowed, None, None)
    ensures httpMethod == "POST" && !(Truthy(email) && Truthy(password)) ==> r == Response(400, CredentialsRequired, None, None)
    ensures r.status in {200, 400, 401, 405}
    ensures r.cookie.Some? <==> r.status == 200
    ensures r.status == 200 ==>
              httpMethod == "POST" && Truthy(email) && Truthy(password) &&
              var found := login(email.value, password.value);
              found.Success? && found.value.Some? &&
              var u := found.value.value;
              sign(Payload(u.id, Col(u.row, "email"), "24h")).Success? &&
              r == Response(200, LoginSuccessful, Some(Cookie(sign(Payload(u.id, Col(u.row, "email"), "24h")).value)), Some(View(u)))
    ensures httpMethod == "POST" && Truthy(email) && Truthy(password) && login(email.value, password.value) == Success(None) ==>
              r == Unauthorized(NullUser)
    ensures httpMethod == "POST" && Truthy(email) && Truthy(password) && login(email.value, password.value).Failure? ==>
              r == Unauthorized(ErrorMessage(login(email.value, password.value).error))
    ensures httpMethod == "POST" && Truthy(email) && Truthy(password) &&
            login(email.value, password.value).Success? && login(email.value, password.value).value.Some? ==>
              var u := login(email.value, password.value).value.value;
              var signed := sign(Payload(u.id, Col(u.row, "email"), "24h"));
              (signed.Success? ==> r == Response(200, LoginSuccessful, Some(Cookie(signed.value)), Some(View(u)))) &&
              (signed.Failure? ==> r == Unauthorized(ErrorMessage(signed.error)))
    ensures r.status == 401 ==> r.message != "" && r.user.None?
  {
    if httpMethod != "POST" then Response(405, MethodNotAllowed, None, None)
    else if !(Truthy(email) && Truthy(password)) then Response(400, CredentialsRequired, None, None)
    else match login(email.value, password.value)
      case Failure(message) => Unauthorized(ErrorMessage(message))
      case Success(None) => Unauthorized(NullUser)
      case Success(Some(u)) =>
        match sign(Payload(u.id, Col(u.row, "email"), "24h"))
        case Failure(message) => Unauthorized(ErrorMessage(message))
        case Success(token) => Response(200, LoginSuccessful, Some(Cookie(token)), Some(View(u)))
  }

  /** `userService.login` over a table, as the login callee. */
  function ServiceLogin(rows: map<int, Row>, c: Crypto): (string, string) -> Result<Option<User>> {
    (email: string, password: string) => Success(UserService.Login(rows, email, password, c))
  }

  /**
   * With `userService.login` as the callee, an unknown email and a wrong password
   * get the same 401 response, so the response does not say which emails exist.
   */
  lemma NoEnumerationSignal(rows: map<int, Row>, c: Crypto, sign: Payload -> Result<string>,
                            unknown: string, known: string, wrong: string)
    requires unknown != "" && known != "" && wrong != ""
    requires forall k :: k in rows ==> Col(rows[k], "email") != Text(unknown)
    requires forall k :: AuthService.IsFirstWithEmail(rows, known, k) ==>
                           !Verifies(c, wrong, Col(rows[k], "password"))
    ensures Handle("POST", Some(unknown), Some(wrong), ServiceLogin(rows, c), sign) ==
            Handle("POST", Some(known), Some(wrong), ServiceLogin(rows, c), sign)
    ensures Handle("POST", Some(known), Some(wrong), ServiceLogin(rows, c), sign) == Unauthorized(NullUser)
  {
    assert UserService.Login(rows, unknown, wrong, c).None?;
    assert UserService.Login(rows, known, wrong, c).None?;
  }
}
