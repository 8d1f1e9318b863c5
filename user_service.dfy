/**
 * The second account service. Its first half works on the Mongoose `User`
 * collection (create, find, update and delete by email); its second half, the
 * `userService` object, works on the MySQL `users` table with its own names for
 * the reset columns.
 */
module UserService {
  import opened Wrappers
  import opened UsersTable
  import AuthService

  /** A document of the Mongoose collection: field name to value. */
  type Doc = map<string, Value>

  /** The position of the first document whose `email` field is `email`. */
  function FindByEmail(docs: seq<Doc>, email: Value): (r: Option<nat>)
    ensures r.None? <==> forall i :: 0 <= i < |docs| ==> Col(docs[i], "email") != email
    ensures r.Some? ==> r.value < |docs| && Col(docs[r.value], "email") == email
    ensures r.Some? ==> forall i :: 0 <= i < r.value ==> Col(docs[i], "email") != email
  {
    if docs == [] then None
    else if Col(docs[0], "email") == email then Some(0)
    else
      match FindByEmail(docs[1..], email)
      case None => None
      case Some(i) => Some(i + 1)
  }

  const UserExists := "User with this email already exists"
  const UserNotFound := "User not found"

  /** The documents of the collection, in natural order. */
  class UserCollection {
    var docs: seq<Doc>

    constructor ()
      ensures docs == []
    {
      docs := [];
    }

    /** `createUser`: refuse an email already present, otherwise save one new document. */
    method CreateUser(data: Doc) returns (r: Result<Doc>)
      modifies this
      ensures FindByEmail(old(docs), Col(data, "email")).Some? ==> r == Failure(UserExists) && docs == old(docs)
      ensures FindByEmail(old(docs), Col(data, "email")).None? ==> r == Success(data) && docs == old(docs) + [data]
    {
      if FindByEmail(docs, Col(data, "email")).Some? {
        return Failure(UserExists);
      }
      docs := docs + [data];
      r := Success(data);
    }

    /** `getUserByEmail`: the first document with the email, or 'User not found'. */
    method GetUserByEmail(email: string) returns (r: Result<Doc>)
      ensures r.Failure? <==> forall i :: 0 <= i < |docs| ==> Col(docs[i], "email") != Text(email)
      ensures r.Failure? ==> r.error == UserNotFound
      ensures r.Success? ==> Col(r.value, "email") == Text(email) && r.value in docs
    {
      var found := FindByEmail(docs, Text(email));
      if found.None? {
        return Failure(UserNotFound);
      }
      r := Success(docs[found.value]);
    }

    /** `updateUser`: `$set` the given fields on the first document with the email and return the updated document. */
    method UpdateUser(email: string, update: Doc) returns (r: Result<Doc>)
      modifies this
      ensures FindByEmail(old(docs), Text(email)).None? ==> r == Failure(UserNotFound) && docs == old(docs)
      ensures FindByEmail(old(docs), Text(email)).Some? ==>
                var i := FindByEmail(old(docs), Text(email)).value;
                r == Success(old(docs)[i] + update) && docs == old(docs)[i := old(docs)[i] + update]
    {
      var found := FindByEmail(docs, Text(email));
      if found.None? {
        return Failure(UserNotFound);
      }
      var i := found.value;
      docs := docs[i := docs[i] + update];
      r := Success(docs[i]);
    }

    /** `deleteUser`: remove the first document with the email and return it; the others keep their order. */
    method DeleteUser(email: string) returns (r: Result<Doc>)
      modifies this
      ensures FindByEmail(old(docs), Text(email)).None? ==> r == Failure(UserNotFound) && docs == old(docs)
      ensures FindByEmail(old(docs), Text(email)).Some? ==>
                var i := FindByEmail(old(docs), Text(email)).value;
                r == Success(old(docs)[i]) && docs == old(docs)[..i] + old(docs)[i + 1..]
    {
      var found := FindByEmail(docs, Text(email));
      if found.None? {
        return Failure(UserNotFound);
      }
      var i := found.value;
      r := Success(docs[i]);
      docs := docs[..i] + docs[i + 1..];
    }
  }

  /** A document saved by `createUser` is what `getUserByEmail` finds next for its email. */
  lemma {:induction false} CreatedIsFound(docs: seq<Doc>, data: Doc, email: string)
    requires Col(data, "email") == Text(email) && FindByEmail(docs, Text(email)).None?
    ensures FindByEmail(docs + [data], Text(email)) == Some(|docs|)
  {
    if docs != [] {
      assert (docs + [data])[1..] == docs[1..] + [data];
      CreatedIsFound(docs[1..], data, email);
    }
  }

  /** Deleting drops exactly one document and keeps the rest in order. */
  lemma DeleteRemovesOne(docs: seq<Doc>, i: nat)
    requires i < |docs|
    ensures |docs[..i] + docs[i + 1..]| == |docs| - 1
    ensures multiset(docs[..i] + docs[i + 1..]) + multiset{docs[i]} == multiset(docs)
  {
    assert docs == docs[..i] + [docs[i]] + docs[i + 1..];
  }

  /** `userService.login`: the first row with the email, when the password matches it; null otherwise. */
  function Login(rows: map<int, Row>, email: string, password: string, c: Crypto): (r: Option<User>)
    ensures r.Some? ==> AuthService.IsFirstWithEmail(rows, email, r.value.id) && r.value.row == rows[r.value.id] &&
                        Verifies(c, password, Col(rows[r.value.id], "password"))
    ensures r.None? ==> forall k :: AuthService.IsFirstWithEmail(rows, email, k) ==>
                                      !Verifies(c, password, Col(rows[k], "password"))
  {
    AuthService.SelectByEmail(rows, email);
    match FirstWhere(rows, AuthService.ByEmail(email))
    case None => None
    case Some(k) => if Verifies(c, password, Col(rows[k], "password")) then Some(User(k, rows[k])) else None
  }

  /** The two services accept the same logins and return the same row. */
  lemma LoginAgreesWithAuthService(rows: map<int, Row>, email: string, password: string, c: Crypto,
                                   sign: AuthService.Claims -> string)
    ensures Login(rows, email, password, c).Some? <==> AuthService.LoginUser(rows, email, password, c, sign).Success?
    ensures Login(rows, email, password, c).Some? ==>
              Login(rows, email, password, c).value == AuthService.LoginUser(rows, email, password, c, sign).value.user
  {
    AuthService.SelectByEmail(rows, email);
  }

  /** The fields of `userService.register`. */
  datatype Registration = Registration(
    email: string, password: string, firstName: string, lastName: string, phoneNumber: string,
    course: string, tenthMarks: real, twelfthMarks: real, cpi: real, yearOfStudy: real, interests: string)

  /** What `register` returns: the id and every field given, with the password left undefined. */
  datatype PublicUser = PublicUser(
    id: int, email: string, firstName: string, lastName: string, phoneNumber: string,
    course: string, tenthMarks: real, twelfthMarks: real, cpi: real, yearOfStudy: real, interests: string)

  /** The row `register` inserts. */
  function RegisteredRow(u: Registration, c: Crypto): (row: Row)
    ensures "id" !in row
  {
    map[
      "email" := Text(u.email), "password" := Hashed(c.hash(u.password)),
      "first_name" := Text(u.firstName), "last_name" := Text(u.lastName),
      "phone_number" := Text(u.phoneNumber), "course" := Text(u.course),
      "tenth_marks" := Num(u.tenthMarks), "twelfth_marks" := Num(u.twelfthMarks),
      "cpi" := Num(u.cpi), "year_of_study" := Num(u.yearOfStudy), "interests" := Text(u.interests)]
  }

  /** `{id: insertId, ...userData, password: undefined}`. */
  function Published(id: int, u: Registration): (p: PublicUser)
    ensures p.id == id && p.email == u.email && p.firstName == u.firstName && p.lastName == u.lastName
    ensures p.phoneNumber == u.phoneNumber && p.course == u.course && p.interests == u.interests
    ensures p.tenthMarks == u.tenthMarks && p.twelfthMarks == u.twelfthMarks && p.cpi == u.cpi
    ensures p.yearOfStudy == u.yearOfStudy
  {
    PublicUser(id, u.email, u.firstName, u.lastName, u.phoneNumber, u.course,
               u.tenthMarks, u.twelfthMarks, u.cpi, u.yearOfStudy, u.interests)
  }

  /** The stored row depends on the password only through its digest. */
  lemma RegisteredRowHidesPassword(u: Registration, other: string, c: Crypto)
    requires c.hash(other) == c.hash(u.password)
    ensures Col(RegisteredRow(u, c), "password") == Hashed(c.hash(u.password))
    ensures RegisteredRow(u, c) == RegisteredRow(u.(password := other), c)
  {
  }

  /** `userService.register`: insert the row with the digest and answer without the password. */
  method Register(t: Table, u: Registration, c: Crypto) returns (p: PublicUser)
    requires t.Valid()
    modifies t
    ensures t.Valid()
    ensures p == Published(old(t.nextId), u) && old(t.nextId) !in old(t.rows)
    ensures t.rows == old(t.rows)[p.id := RegisteredRow(u, c)] && t.nextId == p.id + 1
    ensures OnlyDigests(old(t.rows)) ==> OnlyDigests(t.rows)
  {
    var id := t.Insert(RegisteredRow(u, c));
    p := Published(id, u);
  }

  /**
   * `userService.getUserById` runs the same statement as the auth service's, so it is
   * `AuthService.GetUserById`. Reading back the key `register` answered with gives the
   * row it inserted, whose columns agree with the answer; no other key's row changes.
   */
  lemma RegisteredIsFound(rows: map<int, Row>, id: int, u: Registration, c: Crypto, other: int)
    requires id !in rows
    ensures var found := AuthService.GetUserById(rows[id := RegisteredRow(u, c)], Published(id, u).id);
            found.Some? && found.value.id == id &&
            Col(found.value.row, "email") == Text(Published(id, u).email) &&
            Col(found.value.row, "course") == Text(Published(id, u).course) &&
            Col(found.value.row, "password") == Hashed(c.hash(u.password))
    ensures other != id ==> AuthService.GetUserById(rows[id := RegisteredRow(u, c)], other) == AuthService.GetUserById(rows, other)
  {
  }

  /** The table after row `k` gets `reset_token` and its expiry. */
  function IssueResetToken(rows: map<int, Row>, k: int, token: string, expires: int): (r: map<int, Row>)
    requires k in rows
    ensures r.Keys == rows.Keys
    ensures forall j :: j in rows && j != k ==> r[j] == rows[j]
    ensures Col(r[k], "reset_token") == Text(token) && Col(r[k], "reset_token_expiry") == Time(expires)
    ensures forall col :: col != "reset_token" && col != "reset_token_expiry" ==> Col(r[k], col) == Col(rows[k], col)
  {
    rows[k := rows[k] + map["reset_token" := Text(token), "reset_token_expiry" := Time(expires)]]
  }

  /** `userService.resetPassword`: 'User not found' for an unknown email; otherwise store a token valid for an hour and return it. */
  method ResetPassword(t: Table, email: string, token: string, now: int) returns (r: Result<string>)
    requires t.Valid()
    modifies t
    ensures t.Valid() && t.nextId == old(t.nextId)
    ensures FirstWhere(old(t.rows), AuthService.ByEmail(email)).None? ==>
              r == Failure(UserNotFound) && t.rows == old(t.rows)
    ensures FirstWhere(old(t.rows), AuthService.ByEmail(email)).Some? ==>
              r == Success(token) &&
              t.rows == IssueResetToken(old(t.rows), FirstWhere(old(t.rows), AuthService.ByEmail(email)).value, token, now + OneHour)
    ensures OnlyDigests(old(t.rows)) ==> OnlyDigests(t.rows)
  {
    var found := FirstWhere(t.rows, AuthService.ByEmail(email));
    if found.None? {
      return Failure(UserNotFound);
    }
    t.SetColumns(found.value, map["reset_token" := Text(token), "reset_token_expiry" := Time(now + OneHour)]);
    r := Success(token);
  }

  /** `WHERE reset_token = ? AND reset_token_expiry > NOW()`. */
  function ByLiveResetToken(token: string, now: int): Row -> bool {
    (row: Row) =>
      Col(row, "reset_token") == Text(token) &&
      Col(row, "reset_token_expiry").Time? && Col(row, "reset_token_expiry").ms > now
  }

  /** The table after row `k` gets the digest `d` and loses its reset token and expiry. */
  function CompleteReset(rows: map<int, Row>, k: int, d: Digest): (r: map<int, Row>)
    requires k in rows
    ensures r.Keys == rows.Keys
    ensures forall j :: j in rows && j != k ==> r[j] == rows[j]
    ensures Col(r[k], "password") == Hashed(d)
    ensures Col(r[k], "reset_token") == Null && Col(r[k], "reset_token_expiry") == Null
    ensures forall col :: col != "password" && col != "reset_token" && col != "reset_token_expiry" ==>
              Col(r[k], col) == Col(rows[k], col)
  {
    rows[k := rows[k] + map["password" := Hashed(d), "reset_token" := Null, "reset_token_expiry" := Null]]
  }

  /** `userService.updatePassword`: a matching unexpired token gets the new digest, clears the token and returns true. */
  method UpdatePassword(t: Table, token: string, newPassword: string, now: int, c: Crypto) returns (r: Result<bool>)
    requires t.Valid()
    modifies t
    ensures t.Valid() && t.nextId == old(t.nextId)
    ensures FirstWhere(old(t.rows), ByLiveResetToken(token, now)).None? ==>
              r == Failure(AuthService.InvalidResetToken) && t.rows == old(t.rows)
    ensures FirstWhere(old(t.rows), ByLiveResetToken(token, now)).Some? ==>
              r == Success(true) &&
              t.rows == CompleteReset(old(t.rows), FirstWhere(old(t.rows), ByLiveResetToken(token, now)).value, c.hash(newPassword))
    ensures OnlyDigests(old(t.rows)) ==> OnlyDigests(t.rows)
  {
    var found := FirstWhere(t.rows, ByLiveResetToken(token, now));
    if found.None? {
      return Failure(AuthService.InvalidResetToken);
    }
    t.SetColumns(found.value, map["password" := Hashed(c.hash(newPassword)), "reset_token" := Null,
                                  "reset_token_expiry" := Null]);
    r := Success(true);
  }

  /** No row other than `k` holds `token` as its `reset_token`. */
  predicate TokenOnlyAt(rows: map<int, Row>, token: string, k: int) {
    forall j :: j in rows && j != k ==> Col(rows[j], "reset_token") != Text(token)
  }

  /** A token issued at `issuedAt` is accepted exactly while `now` is before the end of its hour. */
  lemma IssuedTokenLivesOneHour(rows: map<int, Row>, k: int, token: string, issuedAt: int, now: int)
    requires k in rows && TokenOnlyAt(rows, token, k)
    ensures FirstWhere(IssueResetToken(rows, k, token, issuedAt + OneHour), ByLiveResetToken(token, now)) ==
            if now < issuedAt + OneHour then Some(k) else None
  {
    var issued := IssueResetToken(rows, k, token, issuedAt + OneHour);
    var p := ByLiveResetToken(token, now);
    forall j | j in issued && j != k
      ensures !p(issued[j])
    {
      assert issued[j] == rows[j];
    }
    if now < issuedAt + OneHour {
      FirstWhereOnly(issued, p, k);
    } else {
      assert !p(issued[k]);
    }
  }

  /** A completed `updatePassword` consumes the token: the same token is refused at any later time. */
  lemma ResetTokenSingleUse(rows: map<int, Row>, k: int, token: string, d: Digest, later: int)
    requires k in rows && TokenOnlyAt(rows, token, k)
    ensures FirstWhere(CompleteReset(rows, k, d), ByLiveResetToken(token, later)) == None
  {
    var done := CompleteReset(rows, k, d);
    var p := ByLiveResetToken(token, later);
    forall j | j in done
      ensures !p(done[j])
    {
      if j != k {
        assert done[j] == rows[j];
      }
    }
  }

  /**
   * The two services keep reset tokens in different columns: a token issued here is
   * refused by the other service's `resetPassword` unless some row already held it there.
   */
  lemma TokensDoNotCrossServices(rows: map<int, Row>, k: int, token: string, issuedAt: int, now: int)
    requires k in rows
    requires forall j :: j in rows ==> Col(rows[j], "reset_password_token") != Text(token)
    ensures FirstWhere(IssueResetToken(rows, k, token, issuedAt + OneHour), AuthService.ByLiveResetToken(token, now)) == None
  {
    var issued := IssueResetToken(rows, k, token, issuedAt + OneHour);
    var p := AuthService.ByLiveResetToken(token, now);
    forall j | j in issued
      ensures !p(issued[j])
    {
      if j != k {
        assert issued[j] == rows[j];
      }
    }
  }
}
