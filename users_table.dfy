/**
 * The MySQL `users` table that both account services read and write. The table
 * is a map from primary key to row, and a row maps column names to values. SQL
 * gives the rows of a `SELECT ... WHERE` without `ORDER BY` in no promised order;
 * this model takes `rows[0]` to be the matching row with the smallest key, the
 * order of a primary-key scan. The hash function and the password check of bcrypt
 * are parameters.
 */
module UsersTable {
  import opened Wrappers
  import Text

  /** A bcrypt digest. It is kept apart from plain text, so "stored only as a digest" is a statement about a value's form. */
  datatype Digest = Digest(text: string)

  /** `bcrypt.hash` and `bcrypt.compare`; the salt and the cost factor are left out. */
  datatype Crypto = Crypto(hash: string -> Digest, compare: (string, Digest) -> bool)

  /** A column value; `Time` is a `DATETIME` in milliseconds since the epoch. */
  datatype Value = Text(s: string) | Num(n: real) | Hashed(d: Digest) | Time(ms: int) | Null

  type Row = map<string, Value>

  /** A row read back from the table together with its key, the `id` column. */
  datatype User = User(id: int, row: Row)

  /** One hour in milliseconds: the lifetime of a reset token. */
  const OneHour: int := 3600000

  /** The value of a column; a column that was never written reads as `NULL`. */
  function Col(row: Row, column: string): Value {
    if column in row then row[column] else Null
  }

  /**
   * The columns the two services name. The table's schema is not part of this
   * model, so this is the union of the names in their statements, together with
   * `created_at`; the two services disagree on the names of the reset columns.
   */
  const ColumnList: seq<string> := [
    "id", "first_name", "last_name", "email", "phone_number", "password", "course",
    "tenth_marks", "twelfth_marks", "cpi", "year_of_study", "achievements",
    "certifications", "projects", "interests", "created_at",
    "reset_password_token", "reset_password_expires", "reset_token", "reset_token_expiry"
  ]

  /** `names` lists `name`. */
  predicate Listed(name: string, names: seq<string>)
    decreases |names|
  {
    names != [] && (names[0] == name || Listed(name, names[1..]))
  }

  /** `name` is a column of the table. */
  predicate IsColumn(name: string) {
    Listed(name, ColumnList)
  }

  /** The blank characters of MySQL's lexer, which separate tokens and are otherwise ignored. */
  predicate IsBlank(c: char) {
    c == ' ' || c == '\t' || c == '\n' || c == '\r' || c == '\U{000B}' || c == '\U{000C}'
  }

  /** `s` without its leading blanks. */
  function DropLeadingBlanks(s: string): (r: string)
    ensures |r| <= |s| && r == s[|s| - |r|..]
    ensures forall k :: 0 <= k < |s| - |r| ==> IsBlank(s[k])
    ensures r != [] ==> !IsBlank(r[0])
  {
    if s != [] && IsBlank(s[0]) then DropLeadingBlanks(s[1..]) else s
  }

  /** `s` without its trailing blanks. */
  function DropTrailingBlanks(s: string): (r: string)
    ensures |r| <= |s| && r == s[..|r|]
    ensures forall k :: |r| <= k < |s| ==> IsBlank(s[k])
    ensures r != [] ==> !IsBlank(r[|r| - 1])
  {
    if s != [] && IsBlank(s[|s| - 1]) then DropTrailingBlanks(s[..|s| - 1]) else s
  }

  /** The identifier MySQL reads from `key`: without the blanks around it, in lower case. */
  function ColumnName(key: string): string {
    Text.ToLower(DropTrailingBlanks(DropLeadingBlanks(key)))
  }

  /**
   * The column that `key` names when it is pasted into `SET key = ?`: MySQL ignores
   * the blanks around the identifier and compares column names without regard to
   * case. Other SQL text in a key (quotes, several assignments) names no column here.
   */
  function ColumnOf(key: string): (c: Option<string>)
    ensures c.Some? ==> IsColumn(c.value) && c.value == ColumnName(key)
    ensures c.None? ==> !IsColumn(ColumnName(key))
  {
    if IsColumn(ColumnName(key)) then Some(ColumnName(key)) else None
  }

  /** A key written in the table's own spelling, lower case and without blanks, names itself when it is a column. */
  lemma PlainNameResolves(key: string)
    requires forall i :: 0 <= i < |key| ==> 'a' <= key[i] <= 'z' || key[i] == '_'
    ensures ColumnOf(key) == if IsColumn(key) then Some(key) else None
  {
    assert DropLeadingBlanks(key) == key by {
      if key != [] {
        assert !IsBlank(key[0]);
      }
    }
    assert DropTrailingBlanks(key) == key by {
      if key != [] {
        assert !IsBlank(key[|key| - 1]);
      }
    }
    assert Text.ToLower(key) == key;
  }

  /** Lower-casing `s` character by character gives `t`. */
  lemma LowersTo(s: string, t: string)
    requires |s| == |t| && forall i :: 0 <= i < |s| ==> Text.LowerChar(s[i]) == t[i]
    ensures Text.ToLower(s) == t
  {
  }

  /** A key whose blank-stripped, lower-cased text is a column names that column. */
  lemma ResolvesTo(key: string, name: string)
    requires ColumnName(key) == name && IsColumn(name)
    ensures ColumnOf(key) == Some(name)
  {
  }

  /** `password` is a column of the table. */
  lemma PasswordIsColumn()
    ensures IsColumn("password")
  {
  }

  /** MySQL reads the key `Password` as the password column. */
  lemma CapitalisedPasswordResolves()
    ensures ColumnOf("Password") == Some("password")
  {
    var key := "Password";
    assert ColumnName(key) == "password" by {
      assert DropLeadingBlanks(key) == key by {
        assert !IsBlank(key[0]);
      }
      assert DropTrailingBlanks(key) == key by {
        assert !IsBlank(key[|key| - 1]);
      }
      LowersTo(key, "password");
    }
    PasswordIsColumn();
    ResolvesTo(key, "password");
  }

  /** Leading blanks are dropped up to the first non-blank character. */
  lemma {:induction false} DropLeadingPrefix(before: string, rest: string)
    requires forall i :: 0 <= i < |before| ==> IsBlank(before[i])
    requires rest == [] || !IsBlank(rest[0])
    ensures DropLeadingBlanks(before + rest) == rest
    decreases |before|
  {
    if before == [] {
      assert before + rest == rest;
    } else {
      assert (before + rest)[1..] == before[1..] + rest;
      DropLeadingPrefix(before[1..], rest);
    }
  }

  /** Trailing blanks are dropped back to the last non-blank character. */
  lemma {:induction false} DropTrailingSuffix(rest: string, after: string)
    requires forall i :: 0 <= i < |after| ==> IsBlank(after[i])
    requires rest == [] || !IsBlank(rest[|rest| - 1])
    ensures DropTrailingBlanks(rest + after) == rest
    decreases |after|
  {
    if after == [] {
      assert rest + after == rest;
    } else {
      var n := |after| - 1;
      assert (rest + after)[..|rest + after| - 1] == rest + after[..n];
      DropTrailingSuffix(rest, after[..n]);
    }
  }

  /** Keys with the same identifier name the same column. */
  lemma SameNameSameColumn(a: string, b: string)
    requires ColumnName(a) == ColumnName(b)
    ensures ColumnOf(a) == ColumnOf(b)
  {
  }

  /** Blanks around a key are cut off before MySQL reads the identifier. */
  lemma {:induction false} BlanksAroundIgnored(before: string, key: string, after: string)
    requires forall i :: 0 <= i < |before| ==> IsBlank(before[i])
    requires forall i :: 0 <= i < |after| ==> IsBlank(after[i])
    requires key != [] && !IsBlank(key[0]) && !IsBlank(key[|key| - 1])
    ensures ColumnName(before + key + after) == Text.ToLower(key)
  {
    assert before + key + after == before + (key + after);
    DropLeadingPrefix(before, key + after);
    DropTrailingSuffix(key, after);
  }

  /** MySQL reads the key `password ` (with a trailing blank) as the password column. */
  lemma PaddedPasswordResolves()
    ensures ColumnOf("password ") == Some("password")
  {
    var key := "password ";
    assert ColumnName(key) == "password" by {
      assert DropLeadingBlanks(key) == key by {
        assert !IsBlank(key[0]);
      }
      assert DropTrailingBlanks(key) == "password" by {
        assert IsBlank(key[|key| - 1]) && key[..|key| - 1] == "password";
        assert DropTrailingBlanks("password") == "password" by {
          assert !IsBlank("password"[7]);
        }
      }
      LowersTo("password", "password");
    }
    PasswordIsColumn();
    ResolvesTo(key, "password");
  }

  /** `bcrypt.compare(plain, stored)`; a stored value that is not a digest never matches. */
  predicate Verifies(c: Crypto, plain: string, stored: Value) {
    stored.Hashed? && c.compare(plain, stored.d)
  }

  /** Every row's `password` column holds a digest, never plain text. */
  predicate OnlyDigests(rows: map<int, Row>) {
    forall k :: k in rows ==> Col(rows[k], "password").Hashed?
  }

  /** The least element of a finite set of integers that holds `x`. */
  lemma {:induction false} LeastOf(s: set<int>, x: int) returns (m: int)
    requires x in s
    ensures m in s && forall k :: k in s ==> m <= k
    decreases |s|
  {
    if forall k :: k in s ==> x <= k {
      m := x;
    } else {
      var y :| y in s && y < x;
      var rest := s - {x};
      assert |rest| < |s|;
      m := LeastOf(rest, y);
      assert m <= y;
      forall k | k in s
        ensures m <= k
      {
        if k != x {
          assert k in rest;
        }
      }
    }
  }

  /** A finite set of integers that holds `x` has a least element. */
  lemma MinimumExists(s: set<int>, x: int)
    requires x in s
    ensures exists m :: m in s && forall k :: k in s ==> m <= k
  {
    var m := LeastOf(s, x);
  }

  /** `SELECT * FROM users WHERE <p>` and then `rows[0]`: the key of the first matching row, if any. */
  function FirstWhere(rows: map<int, Row>, p: Row -> bool): (r: Option<int>)
    ensures r.None? <==> forall k :: k in rows ==> !p(rows[k])
    ensures r.Some? ==> r.value in rows && p(rows[r.value])
    ensures r.Some? ==> forall k :: k in rows && p(rows[k]) ==> r.value <= k
  {
    if forall k :: k in rows ==> !p(rows[k]) then None
    else
      var k0 :| k0 in rows && p(rows[k0]);
      var keys := set k | k in rows && p(rows[k]);
      assert forall k :: k in rows && p(rows[k]) ==> k in keys;
      MinimumExists(keys, k0);
      var m :| m in keys && forall k :: k in keys ==> m <= k;
      assert m in rows && p(rows[m]);
      Some(m)
  }

  /** The first matching row depends only on which keys match. */
  lemma FirstWhereSameMatches(rows1: map<int, Row>, p1: Row -> bool, rows2: map<int, Row>, p2: Row -> bool)
    requires rows1.Keys == rows2.Keys
    requires forall k :: k in rows1 ==> p1(rows1[k]) == p2(rows2[k])
    ensures FirstWhere(rows1, p1) == FirstWhere(rows2, p2)
  {
    var a, b := FirstWhere(rows1, p1), FirstWhere(rows2, p2);
    if a.Some? && b.Some? {
      assert a.value <= b.value && b.value <= a.value;
    }
  }

  /** The single row that satisfies `p` is the first match. */
  lemma FirstWhereOnly(rows: map<int, Row>, p: Row -> bool, k: int)
    requires k in rows && p(rows[k])
    requires forall j :: j in rows && j != k ==> !p(rows[j])
    ensures FirstWhere(rows, p) == Some(k)
  {
  }

  /** The `users` table and its `AUTO_INCREMENT` counter. */
  class Table {
    var rows: map<int, Row>
    var nextId: int

    /** Every key was handed out before `nextId`, and the key is not also stored as an `id` column. */
    predicate Valid()
      reads this
    {
      (forall k :: k in rows ==> k < nextId) && (forall k :: k in rows ==> "id" !in rows[k])
    }

    constructor ()
      ensures Valid() && rows == map[] && nextId == 1
    {
      rows := map[];
      nextId := 1;
    }

    /** `INSERT INTO users (...) VALUES (...)`: the row gets the next `AUTO_INCREMENT` key, `insertId`. */
    method Insert(row: Row) returns (id: int)
      requires Valid() && "id" !in row
      modifies this
      ensures Valid()
      ensures id == old(nextId) && id !in old(rows)
      ensures rows == old(rows)[id := row] && nextId == id + 1
    {
      id := nextId;
      rows := rows[id := row];
      nextId := nextId + 1;
    }

    /** `UPDATE users SET <column = value, ...> WHERE id = ?` for columns other than `id`; no row matches an unknown key. */
    method SetColumns(id: int, assignments: map<string, Value>)
      requires Valid() && "id" !in assignments
      modifies this
      ensures Valid() && nextId == old(nextId)
      ensures rows == if id in old(rows) then old(rows)[id := old(rows)[id] + assignments] else old(rows)
    {
      if id in rows {
        rows := rows[id := rows[id] + assignments];
      }
    }
  }
}
