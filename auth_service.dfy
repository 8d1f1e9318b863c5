/**
 * The account service over the `users` table: registration, login, the reset-token
 * life cycle, profile updates and password changes. bcrypt, the JWT signer and
 * verifier, the random token, the clock and the mailer are parameters.
 */
module AuthService {
  import opened Wrappers
  import opened UsersTable
  import ListOps

  /** The fields `registerUser` receives. */
  datatype NewUser = NewUser(
    firstName: string, lastName: string, email: string, phoneNumber: string, password: string,
    course: string, tenthMarks: real, twelfthMarks: real, cpi: real, yearOfStudy: real,
    achievements: Option<string>, certifications: Option<string>, projects: Option<string>,
    interests: string)

  /** The claims a login token carries. */
  datatype Claims = Claims(userId: int, email: string, expiresIn: string)

  datatype Session = Session(user: User, token: string)

  /** The reset mail: its recipient, subject and the link it carries. */
  datatype Mail = Mail(to: string, subject: string, resetUrl: string)

  const InvalidCredentials := "Invalid email or password"
  const InvalidResetToken := "Invalid or expired reset token"

  /** `value || null` for the optional text columns. */
  function OrNull(s: Option<string>): (v: Value)
    ensures v == Null <==> s.None? || s.value == ""
    ensures v != Null ==> v == Text(s.value)
  {
    if s.Some? && s.value != "" then Text(s.value) else Null
  }

  /** The row `registerUser` inserts: the password goes in as its digest. */
  function RegisteredRow(u: NewUser, c: Crypto): (row: Row)
    ensures "id" !in row
  {
    map[
      "first_name" := Text(u.firstName), "last_name" := Text(u.lastName),
      "email" := Text(u.email), "phone_number" := Text(u.phoneNumber),
      "password" := Hashed(c.hash(u.password)), "course" := Text(u.course),
      "tenth_marks" := Num(u.tenthMarks), "twelfth_marks" := Num(u.twelfthMarks),
      "cpi" := Num(u.cpi), "year_of_study" := Num(u.yearOfStudy),
      "achievements" := OrNull(u.achievements), "certifications" := OrNull(u.certifications),
      "projects" := OrNull(u.projects), "interests" := Text(u.interests)]
  }

  /** The inserted row holds the digest of the password, and it is the same for any password with that digest. */
  lemma RegisteredRowHidesPassword(u: NewUser, other: string, c: Crypto)
    requires c.hash(other) == c.hash(u.password)
    ensures Col(RegisteredRow(u, c), "password") == Hashed(c.hash(u.password))
    ensures RegisteredRow(u, c) == RegisteredRow(u.(password := other), c)
  {
  }

  /** `registerUser`: insert the row, then read it back by its `insertId`. */
  method RegisterUser(t: Table, u: NewUser, c: Crypto) returns (user: User)
    requires t.Valid()
    modifies t
    ensures t.Valid()
    ensures user.id == old(t.nextId) && user.id !in old(t.rows)
    ensures user.row == RegisteredRow(u, c) && Col(user.row, "password") == Hashed(c.hash(u.password))
    ensures t.rows == old(t.rows)[user.id := user.row] && t.nextId == user.id + 1
    ensures OnlyDigests(old(t.rows)) ==> OnlyDigests(t.rows)
  {
    var id := t.Insert(RegisteredRow(u, c));
    user := User(id, t.rows[id]);
  }

  /** `WHERE email = ?`. */
  function ByEmail(email: string): Row -> bool {
    (row: Row) => Col(row, "email") == Text(email)
  }

  /** The first row whose email is `email`. */
  predicate IsFirstWithEmail(rows: map<int, Row>, email: string, k: int) {
    k in rows && Col(rows[k], "email") == Text(email) &&
    forall j :: j in rows && j < k ==> Col(rows[j], "email") != Text(email)
  }

  /** `WHERE email = ?` selects the first row with the email, and nothing when no row has it. */
  lemma SelectByEmail(rows: map<int, Row>, email: string)
    ensures FirstWhere(rows, ByEmail(email)).None? <==> forall j :: j in rows ==> Col(rows[j], "email") != Text(email)
    ensures forall k :: FirstWhere(rows, ByEmail(email)) == Some(k) <==> IsFirstWithEmail(rows, email, k)
  {
    var found := FirstWhere(rows, ByEmail(email));
    forall j | j in rows
      ensures ByEmail(email)(rows[j]) == (Col(rows[j], "email") == Text(email))
    {
    }
    forall k | IsFirstWithEmail(rows, email, k)
      ensures found == Some(k)
    {
      assert ByEmail(email)(rows[k]);
      var f := found.value;
      assert f <= k;
      assert Col(rows[f], "email") == Text(email);
    }
  }

  /** `loginUser`: the first row with the email must accept the password; the token is signed over `{userId, email}` for 24 hours. */
  function LoginUser(rows: map<int, Row>, email: string, password: string, c: Crypto, sign: Claims -> string)
    : (r: Result<Session>)
    ensures r.Failure? ==> r.error == InvalidCredentials
    ensures r.Success? ==>
              IsFirstWithEmail(rows, email, r.value.user.id) &&
              r.value.user.row == rows[r.value.user.id] &&
              Verifies(c, password, Col(rows[r.value.user.id], "password")) &&
              r.value.token == sign(Claims(r.value.user.id, email, "24h"))
    ensures r.Failure? ==>
              forall k :: IsFirstWithEmail(rows, email, k) ==> !Verifies(c, password, Col(rows[k], "password"))
  {
    SelectByEmail(rows, email);
    match FirstWhere(rows, ByEmail(email))
    case None => Failure(InvalidCredentials)
    case Some(k) =>
      if Verifies(c, password, Col(rows[k], "password")) then
        Success(Session(User(k, rows[k]), sign(Claims(k, email, "24h"))))
      else
        Failure(InvalidCredentials)
  }

  /** An unknown email and a wrong password give the very same outcome, so a caller cannot tell them apart. */
  lemma LoginGivesNoEnumerationSignal(rows: map<int, Row>, unknown: string, known: string, k: int,
                                      p1: string, p2: string, c: Crypto, sign: Claims -> string)
    requires forall j :: j in rows ==> Col(rows[j], "email") != Text(unknown)
    requires IsFirstWithEmail(rows, known, k) && !Verifies(c, p2, Col(rows[k], "password"))
    ensures LoginUser(rows, unknown, p1, c, sign) == LoginUser(rows, known, p2, c, sign)
    ensures LoginUser(rows, unknown, p1, c, sign) == Failure(InvalidCredentials)
  {
    SelectByEmail(rows, unknown);
    SelectByEmail(rows, known);
  }

  /** The table after a reset token with the given expiry is written to row `k`. */
  function IssueResetToken(rows: map<int, Row>, k: int, token: string, expires: int): (r: map<int, Row>)
    requires k in rows
    ensures r.Keys == rows.Keys
    ensures forall j :: j in rows && j != k ==> r[j] == rows[j]
    ensures Col(r[k], "reset_password_token") == Text(token) && Col(r[k], "reset_password_expires") == Time(expires)
    ensures forall col :: col != "reset_password_token" && col != "reset_password_expires" ==>
              Col(r[k], col) == Col(rows[k], col)
  {
    rows[k := rows[k] + map["reset_password_token" := Text(token), "reset_password_expires" := Time(expires)]]
  }

  /**
   * `requestPasswordReset`: an unknown email returns quietly with no write and no mail;
   * a known one gets a fresh token valid for an hour, and the reset link is mailed.
   */
  method RequestPasswordReset(t: Table, email: string, token: string, now: int, frontendUrl: string)
    returns (sent: Option<Mail>)
    requires t.Valid()
    modifies t
    ensures t.Valid() && t.nextId == old(t.nextId)
    ensures FirstWhere(old(t.rows), ByEmail(email)).None? ==> t.rows == old(t.rows) && sent == None
    ensures FirstWhere(old(t.rows), ByEmail(email)).Some? ==>
              t.rows == IssueResetToken(old(t.rows), FirstWhere(old(t.rows), ByEmail(email)).value, token, now + OneHour) &&
              sent == Some(Mail(email, "Password Reset Request", frontendUrl + "/reset-password/" + token))
    ensures OnlyDigests(old(t.rows)) ==> OnlyDigests(t.rows)
  {
    var found := FirstWhere(t.rows, ByEmail(email));
    if found.None? {
      return None;
    }
    t.SetColumns(found.value, map["reset_password_token" := Text(token), "reset_password_expires" := Time(now + OneHour)]);
    sent := Some(Mail(email, "Password Reset Request", frontendUrl + "/reset-password/" + token));
  }

  /** `WHERE reset_password_token = ? AND reset_password_expires > NOW()`; a `NULL` expiry never qualifies. */
  function ByLiveResetToken(token: string, now: int): Row -> bool {
    (row: Row) =>
      Col(row, "reset_password_token") == Text(token) &&
      Col(row, "reset_password_expires").Time? && Col(row, "reset_password_expires").ms > now
  }

  /** The table after row `k` gets the digest `d` and its reset token and expiry are cleared. */
  function CompleteReset(rows: map<int, Row>, k: int, d: Digest): (r: map<int, Row>)
    requires k in rows
    ensures r.Keys == rows.Keys
    ensures forall j :: j in rows && j != k ==> r[j] == rows[j]
    ensures Col(r[k], "password") == Hashed(d)
    ensures Col(r[k], "reset_password_token") == Null && Col(r[k], "reset_password_expires") == Null
    ensures forall col :: col != "password" && col != "reset_password_token" && col != "reset_password_expires" ==>
              Col(r[k], col) == Col(rows[k], col)
  {
    rows[k := rows[k] + map["password" := Hashed(d), "reset_password_token" := Null, "reset_password_expires" := Null]]
  }

  /** `resetPassword`: a row holding the token with an expiry after `now` gets the new digest and loses the token. */
  method ResetPassword(t: Table, token: string, newPassword: string, now: int, c: Crypto) returns (r: Result<()>)
    requires t.Valid()
    modifies t
    ensures t.Valid() && t.nextId == old(t.nextId)
    ensures FirstWhere(old(t.rows), ByLiveResetToken(token, now)).None? ==>
              r == Failure(InvalidResetToken) && t.rows == old(t.rows)
    ensures FirstWhere(old(t.rows), ByLiveResetToken(token, now)).Some? ==>
              r == Success(()) &&
              t.rows == CompleteReset(old(t.rows), FirstWhere(old(t.rows), ByLiveResetToken(token, now)).value, c.hash(newPassword))
    ensures OnlyDigests(old(t.rows)) ==> OnlyDigests(t.rows)
  {
    var found := FirstWhere(t.rows, ByLiveResetToken(token, now));
    if found.None? {
      return Failure(InvalidResetToken);
    }
    t.SetColumns(found.value, map["password" := Hashed(c.hash(newPassword)), "reset_password_token" := Null,
                                  "reset_password_expires" := Null]);
    r := Success(());
  }

  /** No row other than `k` holds `token` as its reset token. */
  predicate TokenOnlyAt(rows: map<int, Row>, token: string, k: int) {
    forall j :: j in rows && j != k ==> Col(rows[j], "reset_password_token") != Text(token)
  }

  /** A token issued at `issuedAt` is accepted exactly while `now` is before the end of its hour. */
  lemma IssuedTokenLivesOneHour(rows: map<int, Row>, k: int, token: string, issuedAt: int, now: int)
    requires k in rows && TokenOnlyAt(rows, token, k)
    ensures FirstWhere(IssueResetToken(rows, k, token, issuedAt + OneHour), ByLiveResetToken(token, now)) ==
            if now < issuedAt + OneHour then Some(k) else None
  {
    var issued := IssueResetToken(rows, k, token, issuedAt + OneHour);
    var p := ByLiveResetToken(token, now);
    forall j | j in issued && j != k
      ensures !p(issued[j])
    {
      assert issued[j] == rows[j];
    }
    if now < issuedAt + OneHour {
      FirstWhereOnly(issued, p, k);
    } else {
      assert !p(issued[k]);
    }
  }

  /** A completed reset consumes the token: the same token is refused at any later time. */
  lemma ResetTokenSingleUse(rows: map<int, Row>, k: int, token: string, d: Digest, later: int)
    requires k in rows && TokenOnlyAt(rows, token, k)
    ensures FirstWhere(CompleteReset(rows, k, d), ByLiveResetToken(token, later)) == None
  {
    var done := CompleteReset(rows, k, d);
    var p := ByLiveResetToken(token, later);
    forall j | j in done
      ensures !p(done[j])
    {
      if j != k {
        assert done[j] == rows[j];
      }
    }
  }

  /** After a reset the new password logs in, provided bcrypt accepts a password against its own digest. */
  lemma ResetPasswordLogsIn(rows: map<int, Row>, k: int, email: string, pw: string, c: Crypto, sign: Claims -> string)
    requires IsFirstWithEmail(rows, email, k) && c.compare(pw, c.hash(pw))
    ensures LoginUser(CompleteReset(rows, k, c.hash(pw)), email, pw, c, sign).Success?
  {
    var done := CompleteReset(rows, k, c.hash(pw));
    forall j | j in rows
      ensures ByEmail(email)(rows[j]) == ByEmail(email)(done[j])
    {
      if j != k {
        assert done[j] == rows[j];
      }
    }
    FirstWhereSameMatches(rows, ByEmail(email), done, ByEmail(email));
    SelectByEmail(rows, email);
  }

  /** `verifyToken`: the verifier's claims, or 'Invalid token' when it rejects the token. */
  function VerifyToken(token: string, verify: string -> Option<Claims>): (r: Result<Claims>)
    ensures r.Failure? <==> verify(token).None?
    ensures r.Failure? ==> r.error == "Invalid token"
    ensures r.Success? ==> r.value == verify(token).value
  {
    match verify(token)
    case None => Failure("Invalid token")
    case Some(claims) => Success(claims)
  }

  /** A token from a successful login verifies to `{userId, email}` when the verifier inverts the signer. */
  lemma LoginTokenVerifies(rows: map<int, Row>, email: string, password: string, c: Crypto,
                           sign: Claims -> string, verify: string -> Option<Claims>)
    requires forall claims :: verify(sign(claims)) == Some(claims)
    requires LoginUser(rows, email, password, c, sign).Success?
    ensures var s := LoginUser(rows, email, password, c, sign).value;
            VerifyToken(s.token, verify) == Success(Claims(s.user.id, email, "24h"))
  {
  }

  /** `getUserById`. */
  function GetUserById(rows: map<int, Row>, id: int): (u: Option<User>)
    ensures u.Some? <==> id in rows
    ensures u.Some? ==> u.value.id == id && u.value.row == rows[id]
  {
    if id in rows then Some(User(id, rows[id])) else None
  }

  /** An entry of `userData`: its key and its value, `None` for `undefined`. */
  type Entry = (string, Option<Value>)

  /** An entry `updateUser` writes: its value is defined and its key is not the string `password`. */
  predicate Writable(entry: Entry) {
    entry.1.Some? && entry.0 != "password"
  }

  /** The filter `updateUser` evidently intends: no key that MySQL reads as the `password` column is written. */
  predicate WritableFixed(entry: Entry) {
    entry.1.Some? && ColumnOf(entry.0) != Some("password")
  }

  /** The entries of `userData` that the filter `w` lets into the `SET` list, in order. */
  function Kept(entries: seq<Entry>, w: Entry -> bool): (r: seq<Entry>)
    ensures forall i :: 0 <= i < |r| ==> w(r[i]) && r[i] in entries
    ensures forall i :: 0 <= i < |entries| && w(entries[i]) ==> entries[i] in r
  {
    ListOps.Filter(entries, w)
  }

  /** The keys pasted into the `SET` list, one `<key> = ?` clause each. */
  function KeptKeys(entries: seq<Entry>, w: Entry -> bool): (ks: seq<string>)
    ensures |ks| == |Kept(entries, w)|
    ensures forall i :: 0 <= i < |ks| ==> w((ks[i], Kept(entries, w)[i].1))
  {
    var kept := Kept(entries, w);
    seq(|kept|, i requires 0 <= i < |kept| => kept[i].0)
  }

  /** A filter that only lets through entries whose value is defined. */
  ghost predicate DefinedOnly(w: Entry -> bool) {
    forall e :: w(e) ==> e.1.Some?
  }

  /** The values bound to the `SET` list's placeholders. */
  function KeptValues(entries: seq<Entry>, w: Entry -> bool): (vs: seq<Value>)
    requires DefinedOnly(w)
    ensures |vs| == |Kept(entries, w)|
    ensures forall i :: 0 <= i < |vs| ==> Some(vs[i]) == Kept(entries, w)[i].1
  {
    var kept := Kept(entries, w);
    seq(|kept|, i requires 0 <= i < |kept| => kept[i].1.value)
  }

  /** The key `password` itself never reaches the `SET` list of `updateUser`. */
  lemma KeptKeysOmitPassword(entries: seq<Entry>)
    ensures "password" !in KeptKeys(entries, Writable)
  {
    var ks := KeptKeys(entries, Writable);
    forall i | 0 <= i < |ks|
      ensures ks[i] != "password"
    {
      assert Writable((ks[i], Kept(entries, Writable)[i].1));
    }
  }

  /** Under the corrected filter no key in the `SET` list names the `password` column. */
  lemma FixedKeysOmitPasswordColumn(entries: seq<Entry>)
    ensures forall i :: 0 <= i < |KeptKeys(entries, WritableFixed)| ==>
              ColumnOf(KeptKeys(entries, WritableFixed)[i]) != Some("password")
  {
    var ks := KeptKeys(entries, WritableFixed);
    forall i | 0 <= i < |ks|
      ensures ColumnOf(ks[i]) != Some("password")
    {
      assert WritableFixed((ks[i], Kept(entries, WritableFixed)[i].1));
    }
  }

  /** Extending the entries by one extends what is kept by that entry when it is writable. */
  lemma KeptStep(entries: seq<Entry>, i: int)
    requires 0 <= i < |entries|
    ensures Kept(entries[..i + 1], Writable) == Kept(entries[..i], Writable) + (if Writable(entries[i]) then [entries[i]] else [])
  {
    assert entries[..i + 1] == entries[..i] + [entries[i]];
    ListOps.FilterAppend(entries[..i], [entries[i]], Writable);
  }

  /**
   * The `forEach` of `updateUser`: for each entry whose value is defined and whose key is
   * not `password`, one `<key> = ?` clause (recorded here by its key) and one value.
   */
  method CollectUpdates(entries: seq<Entry>) returns (keys: seq<string>, values: seq<Value>)
    ensures keys == KeptKeys(entries, Writable) && values == KeptValues(entries, Writable)
  {
    keys, values := [], [];
    var i := 0;
    while i < |entries|
      invariant 0 <= i <= |entries|
      invariant keys == KeptKeys(entries[..i], Writable) && values == KeptValues(entries[..i], Writable)
    {
      var (key, value) := entries[i];
      KeptStep(entries, i);
      if value.Some? && key != "password" {
        keys := keys + [key];
        values := values + [value.value];
      }
      i := i + 1;
    }
    assert entries[..i] == entries;
  }

  /** The row after `SET c1 = v1, c2 = v2, ...`, applied left to right. */
  function Apply(row: Row, columns: seq<string>, values: seq<Value>): (r: Row)
    requires |columns| == |values|
    ensures forall col :: col !in columns ==> Col(r, col) == Col(row, col)
    ensures r.Keys == row.Keys + set i | 0 <= i < |columns| :: columns[i]
    decreases |columns|
  {
    if columns == [] then row
    else
      var n := |columns| - 1;
      Apply(row, columns[..n], values[..n])[columns[n] := values[n]]
  }

  /** A column gets the value of its last assignment in the `SET` list. */
  lemma {:induction false} ApplyLastWins(row: Row, columns: seq<string>, values: seq<Value>, i: int)
    requires |columns| == |values| && 0 <= i < |columns|
    requires forall j :: i < j < |columns| ==> columns[j] != columns[i]
    ensures Col(Apply(row, columns, values), columns[i]) == values[i]
    decreases |columns|
  {
    var n := |columns| - 1;
    var cs, vs := columns[..n], values[..n];
    var before := Apply(row, cs, vs);
    assert Apply(row, columns, values) == before[columns[n] := values[n]];
    if i < n {
      assert columns[n] != columns[i];
      assert cs[i] == columns[i] && vs[i] == values[i];
      assert forall j :: i < j < |cs| ==> cs[j] == columns[j];
      ApplyLastWins(row, cs, vs, i);
    }
  }

  /** MySQL's error codes for the statements `updateUser` can build. */
  const UnknownColumn := "ER_BAD_FIELD_ERROR"
  const DuplicateKey := "ER_DUP_ENTRY"
  const NotAnInteger := "ER_TRUNCATED_WRONG_VALUE_FOR_FIELD"

  /** A value MySQL stores in the integer `id` column unchanged. */
  predicate IsInteger(v: Value) {
    v.Num? && v.n.Floor as real == v.n
  }

  function Max(a: int, b: int): int {
    if a < b then b else a
  }

  /** What `updateUser` returns, with the table and counter it leaves. */
  datatype UpdateResult = UpdateResult(reply: Result<Option<User>>, rows: map<int, Row>, nextId: int)

  /** The column each key of the `SET` list names, `None` when it names none. */
  function Resolve(keys: seq<string>): (cols: seq<Option<string>>)
    ensures |cols| == |keys|
    ensures forall i :: 0 <= i < |cols| && cols[i].Some? ==> IsColumn(cols[i].value) && cols[i].value == ColumnName(keys[i])
  {
    seq(|keys|, i requires 0 <= i < |keys| => ColumnOf(keys[i]))
  }

  /** Every key of the `SET` list names a column of the table. */
  predicate KnownColumns(cols: seq<Option<string>>) {
    forall i :: 0 <= i < |cols| ==> cols[i].Some?
  }

  /** No key of the `SET` list names the `password` column. */
  predicate SparesPassword(cols: seq<Option<string>>) {
    forall i :: 0 <= i < |cols| ==> cols[i] != Some("password")
  }

  /** The columns of a `SET` list whose keys all name one. */
  function Named(cols: seq<Option<string>>): (cs: seq<string>)
    requires KnownColumns(cols)
    ensures |cs| == |cols|
    ensures forall i :: 0 <= i < |cs| ==> Some(cs[i]) == cols[i]
  {
    seq(|cols|, i requires 0 <= i < |cols| => cols[i].value)
  }

  /** A `SET` list that spares the `password` column assigns no value to it. */
  lemma {:induction false} SparedListSkipsPassword(cols: seq<Option<string>>)
    requires KnownColumns(cols) && SparesPassword(cols)
    ensures "password" !in Named(cols)
  {
    var cs := Named(cols);
    forall i | 0 <= i < |cs|
      ensures cs[i] != "password"
    {
      assert Some(cs[i]) == cols[i] != Some("password");
    }
  }

  /**
   * `UPDATE users SET k1 = ?, ... WHERE id = ?`, its keys resolved to the columns `cols`,
   * then `getUserById`: an unknown column fails the statement; otherwise the named columns
   * are set on row `id` and the row is re-read by `id`. An `id` column renumbers the row.
   */
  function Execute(rows: map<int, Row>, nextId: int, id: int, cols: seq<Option<string>>, values: seq<Value>)
    : (u: UpdateResult)
    requires |cols| == |values|
    ensures !KnownColumns(cols) ==> u == UpdateResult(Failure(UnknownColumn), rows, nextId)
    ensures u.reply.Failure? ==> u.rows == rows && u.nextId == nextId
    ensures u.reply.Success? ==> u.reply.value == GetUserById(u.rows, id)
    ensures forall k :: k in rows && k != id ==> k in u.rows && u.rows[k] == rows[k]
    ensures forall k :: k in u.rows && !(k in rows && k != id) ==>
              id in rows &&
              (u.rows == rows || (KnownColumns(cols) && u.rows[k] - {"id"} == Apply(rows[id], Named(cols), values) - {"id"}))
    ensures KnownColumns(cols) && id in rows && "id" !in Apply(rows[id], Named(cols), values) ==>
              u.rows == rows[id := Apply(rows[id], Named(cols), values)] && u.nextId == nextId
  {
    if !KnownColumns(cols) then UpdateResult(Failure(UnknownColumn), rows, nextId)
    else if id !in rows then UpdateResult(Success(None), rows, nextId)
    else
      var row := Apply(rows[id], Named(cols), values);
      if "id" !in row then UpdateResult(Success(Some(User(id, row))), rows[id := row], nextId)
      else if !IsInteger(row["id"]) then UpdateResult(Failure(NotAnInteger), rows, nextId)
      else
        var n := row["id"].n.Floor;
        if n != id && n in rows then UpdateResult(Failure(DuplicateKey), rows, nextId)
        else
          var moved := (rows - {id})[n := row - {"id"}];
          assert moved[n] - {"id"} == row - {"id"};
          UpdateResult(if n == id then Success(Some(User(id, row - {"id"}))) else Success(None), moved, Max(nextId, n + 1))
  }

  /** A statement whose `SET` list spares the `password` column leaves every password where it was. */
  lemma ExecuteKeepsPassword(rows: map<int, Row>, nextId: int, id: int, cols: seq<Option<string>>, values: seq<Value>)
    requires |cols| == |values| && SparesPassword(cols)
    ensures var u := Execute(rows, nextId, id, cols, values);
      forall k :: k in u.rows && !(k in rows && k != id) ==>
        id in rows && Col(u.rows[k], "password") == Col(rows[id], "password")
  {
    var u := Execute(rows, nextId, id, cols, values);
    forall k | k in u.rows && !(k in rows && k != id)
      ensures id in rows && Col(u.rows[k], "password") == Col(rows[id], "password")
    {
      if u.rows != rows {
        SparedListSkipsPassword(cols);
        var row := Apply(rows[id], Named(cols), values);
        assert Col(row, "password") == Col(rows[id], "password");
        assert u.rows[k] - {"id"} == row - {"id"};
        assert Col(u.rows[k], "password") == Col(u.rows[k] - {"id"}, "password");
      }
    }
  }

  /** `updateUser` with the filter `w`: nothing to write returns null with no statement. */
  function Update(rows: map<int, Row>, nextId: int, id: int, entries: seq<Entry>, w: Entry -> bool): (u: UpdateResult)
    requires DefinedOnly(w)
    ensures Kept(entries, w) == [] ==> u == UpdateResult(Success(None), rows, nextId)
    ensures Kept(entries, w) != [] ==> u == Execute(rows, nextId, id, Resolve(KeptKeys(entries, w)), KeptValues(entries, w))
  {
    var keys, values := KeptKeys(entries, w), KeptValues(entries, w);
    if keys == [] then UpdateResult(Success(None), rows, nextId) else Execute(rows, nextId, id, Resolve(keys), values)
  }

  /** `updateUser` as written: the filter drops only the key spelled exactly `password`. */
  function UpdateOutcome(rows: map<int, Row>, nextId: int, id: int, entries: seq<Entry>): UpdateResult {
    Update(rows, nextId, id, entries, Writable)
  }

  /** `updateUser` with the corrected filter, which drops every key naming the `password` column. */
  function UpdateOutcomeFixed(rows: map<int, Row>, nextId: int, id: int, entries: seq<Entry>): UpdateResult {
    Update(rows, nextId, id, entries, WritableFixed)
  }

  /** The filter of `updateUser` lets the key `Password` through. */
  lemma CapitalisedKeyKept(x: string)
    ensures var entries := [("Password", Some(Text(x)))];
      Kept(entries, Writable) == entries &&
      KeptKeys(entries, Writable) == ["Password"] && KeptValues(entries, Writable) == [Text(x)]
  {
    var entries := [("Password", Some(Text(x)))];
    assert Writable(entries[0]);
    assert Kept(entries, Writable) == entries;
  }

  /** A `SET` list of one key names that key's column. */
  lemma ResolveSingle(key: string)
    ensures Resolve([key]) == [ColumnOf(key)]
  {
  }

  /** `SET password = ?` on a row without an `id` column stores the value as the password. */
  lemma ExecuteSetsPassword(rows: map<int, Row>, nextId: int, id: int, v: Value)
    requires id in rows && "id" !in rows[id]
    ensures var u := Execute(rows, nextId, id, [Some("password")], [v]);
      u.reply.Success? && id in u.rows && Col(u.rows[id], "password") == v
  {
    var cols := [Some("password")];
    assert Named(cols) == ["password"];
    var row := Apply(rows[id], ["password"], [v]);
    assert row == rows[id]["password" := v];
  }

  /** As written, `updateUser(id, {Password: x})` stores the plain text `x` as the password. */
  lemma CapitalisedKeyStoresPlainText(rows: map<int, Row>, nextId: int, id: int, x: string)
    requires id in rows && "id" !in rows[id]
    ensures var u := UpdateOutcome(rows, nextId, id, [("Password", Some(Text(x)))]);
      u.reply.Success? && id in u.rows && Col(u.rows[id], "password") == Text(x) && !OnlyDigests(u.rows)
  {
    CapitalisedKeyKept(x);
    ResolveSingle("Password");
    CapitalisedPasswordResolves();
    ExecuteSetsPassword(rows, nextId, id, Text(x));
  }

  /** Under the corrected filter the `SET` list spares the `password` column. */
  lemma FixedListSparesPassword(entries: seq<Entry>)
    ensures SparesPassword(Resolve(KeptKeys(entries, WritableFixed)))
  {
    FixedKeysOmitPasswordColumn(entries);
  }

  /** The corrected `updateUser` keeps every password where it was and never stores plain text in the `password` column. */
  lemma UpdateOutcomeFixedKeepsDigests(rows: map<int, Row>, nextId: int, id: int, entries: seq<Entry>)
    requires OnlyDigests(rows)
    ensures var u := UpdateOutcomeFixed(rows, nextId, id, entries);
      OnlyDigests(u.rows) &&
      forall k :: k in u.rows && !(k in rows && k != id) ==> Col(u.rows[k], "password") == Col(rows[id], "password")
  {
    if Kept(entries, WritableFixed) != [] {
      FixedListSparesPassword(entries);
      ExecuteKeepsPassword(rows, nextId, id, Resolve(KeptKeys(entries, WritableFixed)), KeptValues(entries, WritableFixed));
    }
  }

  /** As written, `updateUser` keeps the passwords only while no key of `userData` is another spelling of `password`. */
  lemma UpdateOutcomeKeepsDigests(rows: map<int, Row>, nextId: int, id: int, entries: seq<Entry>)
    requires OnlyDigests(rows)
    requires SparesPassword(Resolve(KeptKeys(entries, Writable)))
    ensures OnlyDigests(UpdateOutcome(rows, nextId, id, entries).rows)
  {
    if Kept(entries, Writable) != [] {
      ExecuteKeepsPassword(rows, nextId, id, Resolve(KeptKeys(entries, Writable)), KeptValues(entries, Writable));
    }
  }

  /** `pool.execute` of the `UPDATE` statement whose keys name the columns `cols`, then `getUserById`. */
  method ExecuteUpdate(t: Table, id: int, cols: seq<Option<string>>, values: seq<Value>) returns (r: Result<Option<User>>)
    requires t.Valid() && |cols| == |values|
    modifies t
    ensures t.Valid()
    ensures UpdateResult(r, t.rows, t.nextId) == Execute(old(t.rows), old(t.nextId), id, cols, values)
  {
    if exists i :: 0 <= i < |cols| && cols[i].None? {
      return Failure(UnknownColumn);
    }
    if id !in t.rows {
      return Success(None);
    }
    var row := Apply(t.rows[id], Named(cols), values);
    if "id" !in row {
      t.rows := t.rows[id := row];
      return Success(Some(User(id, row)));
    }
    if !IsInteger(row["id"]) {
      return Failure(NotAnInteger);
    }
    var n := row["id"].n.Floor;
    if n != id && n in t.rows {
      return Failure(DuplicateKey);
    }
    t.rows := (t.rows - {id})[n := row - {"id"}];
    t.nextId := Max(t.nextId, n + 1);
    r := if n == id then Success(Some(User(id, row - {"id"}))) else Success(None);
  }

  /** `updateUser`: the `forEach` that collects the `SET` list, an early null when it is empty, and the statement. */
  method UpdateUser(t: Table, id: int, entries: seq<Entry>) returns (r: Result<Option<User>>)
    requires t.Valid()
    modifies t
    ensures t.Valid()
    ensures UpdateResult(r, t.rows, t.nextId) == UpdateOutcome(old(t.rows), old(t.nextId), id, entries)
  {
    var keys, values := CollectUpdates(entries);
    if |keys| == 0 {
      return Success(None);
    }
    r := ExecuteUpdate(t, id, Resolve(keys), values);
  }

  /** The table after row `k` gets the digest `d` as its password. */
  function WithPassword(rows: map<int, Row>, k: int, d: Digest): (r: map<int, Row>)
    requires k in rows
    ensures r.Keys == rows.Keys
    ensures forall j :: j in rows && j != k ==> r[j] == rows[j]
    ensures Col(r[k], "password") == Hashed(d)
    ensures forall col :: col != "password" ==> Col(r[k], col) == Col(rows[k], col)
  {
    rows[k := rows[k] + map["password" := Hashed(d)]]
  }

  /**
   * `changePassword`: 'User not found' when there is no row, 'Invalid current password'
   * when the old password does not match, and otherwise the new digest is stored.
   */
  method ChangePassword(t: Table, id: int, oldPassword: string, newPassword: string, c: Crypto) returns (r: Result<bool>)
    requires t.Valid()
    modifies t
    ensures t.Valid() && t.nextId == old(t.nextId)
    ensures id !in old(t.rows) ==> r == Failure("User not found") && t.rows == old(t.rows)
    ensures id in old(t.rows) && !Verifies(c, oldPassword, Col(old(t.rows)[id], "password")) ==>
              r == Failure("Invalid current password") && t.rows == old(t.rows)
    ensures id in old(t.rows) && Verifies(c, oldPassword, Col(old(t.rows)[id], "password")) ==>
              r == Success(true) && t.rows == WithPassword(old(t.rows), id, c.hash(newPassword))
    ensures OnlyDigests(old(t.rows)) ==> OnlyDigests(t.rows)
  {
    var user := GetUserById(t.rows, id);
    if user.None? {
      return Failure("User not found");
    }
    if !Verifies(c, oldPassword, Col(user.value.row, "password")) {
      return Failure("Invalid current password");
    }
    t.SetColumns(id, map["password" := Hashed(c.hash(newPassword))]);
    r := Success(true);
  }

  /** After a password change the new password logs in and the old one no longer does, for a bcrypt that tells digests apart. */
  lemma ChangedPasswordLogsIn(rows: map<int, Row>, k: int, email: string, oldPw: string, newPw: string,
                              c: Crypto, sign: Claims -> string)
    requires IsFirstWithEmail(rows, email, k)
    requires c.compare(newPw, c.hash(newPw)) && !c.compare(oldPw, c.hash(newPw))
    ensures LoginUser(WithPassword(rows, k, c.hash(newPw)), email, newPw, c, sign).Success?
    ensures LoginUser(WithPassword(rows, k, c.hash(newPw)), email, oldPw, c, sign).Failure?
  {
    var changed := WithPassword(rows, k, c.hash(newPw));
    forall j | j in rows
      ensures ByEmail(email)(rows[j]) == ByEmail(email)(changed[j])
    {
      if j != k {
        assert changed[j] == rows[j];
      }
    }
    FirstWhereSameMatches(rows, ByEmail(email), changed, ByEmail(email));
    SelectByEmail(rows, email);
  }
}
