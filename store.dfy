/**
 * The Cassandra tables behind the server, as maps keyed by e-mail address, and the
 * `trim` helper of the database module.
 *
 * Every table's primary key is the e-mail column, so a query by e-mail returns at most
 * one row; the driver's "first row or null" becomes `Lookup`. Writes are upserts and
 * deletes on the map.
 */
module Store {
  import opened Common

  /** A row as the driver returns it: column name to the column's text. */
  type Row = map<string, string>

  const EmailColumn: string := "email"
  const PasswordColumn: string := "password"

  /** `row.name` inside a string concatenation: a column the row does not hold reads as null. */
  function Column(row: Row, name: string): string
  {
    if name in row then row[name] else "null"
  }

  /** `delete user['password']`: the row without its password column, every other column kept. */
  function WithoutPassword(row: Row): (r: Row)
    ensures PasswordColumn !in r
    ensures forall name :: name != PasswordColumn ==> (name in r <==> name in row)
    ensures forall name :: name in r ==> r[name] == row[name]
  {
    row - {PasswordColumn}
  }

  /** `rows.map(user => { delete user['password']; return user; })`, position by position. */
  function StripPasswords(rows: seq<Row>): (r: seq<Row>)
    ensures |r| == |rows|
    ensures forall i :: 0 <= i < |rows| ==> r[i] == WithoutPassword(rows[i])
  {
    if rows == [] then [] else [WithoutPassword(rows[0])] + StripPasswords(rows[1..])
  }

  /** A row of an access-token or registration-token table (the e-mail is its key). */
  datatype TokenRecord = TokenRecord(accessToken: string, created: int, ttl: int)

  // ---------------------------------------------------------------------------
  // trim: lower-case, then strip the surrounding white space

  /** ECMAScript white space and line terminators, the characters `String.prototype.trim` strips. */
  predicate IsSpace(c: char)
  {
    || c == '\t' || c == '\n' || c == '\U{B}' || c == '\U{C}' || c == '\r' || c == ' '
    || c == '\U{A0}' || c == '\U{1680}' || ('\U{2000}' <= c <= '\U{200A}')
    || c == '\U{2028}' || c == '\U{2029}' || c == '\U{202F}' || c == '\U{205F}'
    || c == '\U{3000}' || c == '\U{FEFF}'
  }

  predicate IsUpper(c: char)
  {
    'A' <= c <= 'Z'
  }

  function ToLower(c: char): (r: char)
    ensures !IsUpper(r)
    ensures !IsUpper(c) ==> r == c
  {
    if IsUpper(c) then (c as int + 32) as char else c
  }

  /** `s.toLowerCase()` on the ASCII letters. */
  function Lowercase(s: string): (r: string)
    ensures |r| == |s|
    ensures forall i :: 0 <= i < |s| ==> r[i] == ToLower(s[i])
  {
    if s == [] then [] else [ToLower(s[0])] + Lowercase(s[1..])
  }

  /** The first position at or after `i` that does not hold white space (`|s|` if there is none). */
  function SpanStart(s: string, i: nat): (lo: nat)
    requires i <= |s|
    ensures i <= lo <= |s|
    ensures forall k :: i <= k < lo ==> IsSpace(s[k])
    ensures lo < |s| ==> !IsSpace(s[lo])
    decreases |s| - i
  {
    if i < |s| && IsSpace(s[i]) then SpanStart(s, i + 1) else i
  }

  /** The end of the text in `s[lo..j]` once the white space before `j` is dropped. */
  function SpanEnd(s: string, lo: nat, j: nat): (hi: nat)
    requires lo <= j <= |s|
    ensures lo <= hi <= j
    ensures forall k :: hi <= k < j ==> IsSpace(s[k])
    ensures hi > lo ==> !IsSpace(s[hi - 1])
    decreases j
  {
    if j > lo && IsSpace(s[j - 1]) then SpanEnd(s, lo, j - 1) else j
  }

  /**
   * `s.trim()`: the infix of `s` left once the white space at both ends is removed. What it
   * keeps neither starts nor ends with white space, and everything it drops is white space.
   */
  function StripSpaces(s: string): (r: string)
    ensures r != [] ==> !IsSpace(r[0]) && !IsSpace(r[|r| - 1])
    ensures var lo := SpanStart(s, 0);
      && lo + |r| <= |s| && r == s[lo..lo + |r|]
      && (forall i :: 0 <= i < lo ==> IsSpace(s[i]))
      && (forall i :: lo + |r| <= i < |s| ==> IsSpace(s[i]))
  {
    var lo := SpanStart(s, 0);
    var hi := SpanEnd(s, lo, |s|);
    s[lo..hi]
  }

  /** What `trim` does to each argument: `arg.toLowerCase().trim()`. */
  function Normalize(s: string): (r: string)
    ensures |r| <= |s|
  {
    StripSpaces(Lowercase(s))
  }

  /** A normalized identifier holds no upper-case letter and no surrounding white space. */
  lemma NormalizeShape(s: string)
    ensures var r := Normalize(s);
      && (forall i :: 0 <= i < |r| ==> !IsUpper(r[i]))
      && (r != [] ==> !IsSpace(r[0]) && !IsSpace(r[|r| - 1]))
  {
    var l := Lowercase(s);
    var r := Normalize(s);
    var lo := SpanStart(l, 0);
    forall i | 0 <= i < |r| ensures !IsUpper(r[i]) {
      assert r[i] == l[lo + i];
    }
  }

  /** Normalizing twice is normalizing once. */
  lemma NormalizeIdempotent(s: string)
    ensures Normalize(Normalize(s)) == Normalize(s)
  {
    var r := Normalize(s);
    NormalizeShape(s);
    assert Lowercase(r) == r;
    assert SpanStart(r, 0) == 0;
    assert SpanEnd(r, 0, |r|) == |r|;
    assert r[0..|r|] == r;
  }

  /** The result of `trim(...args)`: one string for one argument, otherwise the list. */
  datatype Trimmed = One(text: string) | Several(texts: seq<string>)

  function Trim(args: seq<string>): (r: Trimmed)
    ensures r.One? <==> |args| == 1
    ensures r.One? ==> r.text == Normalize(args[0])
    ensures r.Several? ==> |r.texts| == |args|
    ensures r.Several? ==> forall i :: 0 <= i < |args| ==> r.texts[i] == Normalize(args[i])
  {
    var normalized := seq(|args|, i requires 0 <= i < |args| => Normalize(args[i]));
    if |normalized| == 1 then One(normalized[0]) else Several(normalized)
  }

  // ---------------------------------------------------------------------------
  // Queries and writes on one table

  /** `SELECT * FROM t WHERE email = ?`, then `rows[0]` or null. */
  function Lookup<V>(table: map<string, V>, key: string): (r: Option<V>)
    ensures r.Some? <==> key in table
    ensures r.Some? ==> r.value == table[key]
  {
    if key in table then Some(table[key]) else None
  }

  /** The effect of a token write: afterwards the key holds exactly the new record, and no other key changed. */
  function Upsert(table: map<string, TokenRecord>, key: string, record: TokenRecord): (t: map<string, TokenRecord>)
    ensures Lookup(t, key) == Some(record)
    ensures forall k :: k != key ==> Lookup(t, k) == Lookup(table, k)
  {
    table[key := record]
  }

  /** The effect of `DELETE ... WHERE email = ?`: the key reads as null afterwards, and no other key changed. */
  function Remove(table: map<string, TokenRecord>, key: string): (t: map<string, TokenRecord>)
    ensures Lookup(t, key) == None
    ensures forall k :: k != key ==> Lookup(t, k) == Lookup(table, k)
  {
    table - {key}
  }

  /**
   * `createAdminAccessToken` and its siblings: an UPDATE of the three columns when a row for
   * the key exists, an INSERT otherwise. Either way the table ends up as the upsert.
   */
  method WriteToken(table: map<string, TokenRecord>, key: string, accessToken: string, created: int, ttl: int)
    returns (t: map<string, TokenRecord>)
    ensures t == Upsert(table, key, TokenRecord(accessToken, created, ttl))
  {
    var existing := Lookup(table, key);
    if existing.Some? {
      var updated := existing.value.(accessToken := accessToken, created := created, ttl := ttl);
      t := table[key := updated];
    } else {
      t := table[key := TokenRecord(accessToken, created, ttl)];
    }
  }

  /** `rows` lists every row of `table` once, in the enumeration `order` of its keys. */
  ghost predicate Listing<V>(table: map<string, V>, rows: seq<V>, order: seq<string>)
  {
    && |order| == |rows|
    && (forall i, j :: 0 <= i < j < |order| ==> order[i] != order[j])
    && (forall k :: k in table <==> k in order)
    && (forall i :: 0 <= i < |order| ==> order[i] in table && rows[i] == table[order[i]])
  }

  /**
   * `SELECT * FROM t`: every row of the table, once each. The driver returns the rows in an
   * order of its own; the model lets that order be any enumeration of the keys.
   */
  method AllRows<V>(table: map<string, V>) returns (rows: seq<V>, ghost order: seq<string>)
    ensures Listing(table, rows, order)
  {
    rows, order := [], [];
    var pending := table.Keys;
    while pending != {}
      invariant pending <= table.Keys
      invariant |order| == |rows|
      invariant forall i, j :: 0 <= i < j < |order| ==> order[i] != order[j]
      invariant forall k :: k in order <==> k in table && k !in pending
      invariant forall i :: 0 <= i < |order| ==> order[i] in table && rows[i] == table[order[i]]
      decreases pending
    {
      var key :| key in pending;
      rows, order := rows + [table[key]], order + [key];
      pending := pending - {key};
    }
  }

  /**
   * The keyspace: the principal tables (users, admins) and the three token tables.
   * `admin_access_tokens` is the one the database module defines; the user access-token and
   * registration-token tables are written by the route handlers through functions of the same
   * shape, modelled here the same way in their own namespaces.
   */
  class Database {
    var users: map<string, Row>
    var admins: map<string, Row>
    var adminAccessTokens: map<string, TokenRecord>
    var userAccessTokens: map<string, TokenRecord>
    var registrationTokens: map<string, TokenRecord>

    constructor(users: map<string, Row>, admins: map<string, Row>)
      ensures this.users == users && this.admins == admins
      ensures adminAccessTokens == map[] && userAccessTokens == map[] && registrationTokens == map[]
    {
      this.users := users;
      this.admins := admins;
      adminAccessTokens, userAccessTokens, registrationTokens := map[], map[], map[];
    }

    method GetUsers() returns (rows: seq<Row>, ghost order: seq<string>)
      ensures Listing(users, rows, order)
    {
      rows, order := AllRows(users);
    }

    method GetAdmins() returns (rows: seq<Row>, ghost order: seq<string>)
      ensures Listing(admins, rows, order)
    {
      rows, order := AllRows(admins);
    }

    method GetAdminAccessTokens() returns (rows: seq<TokenRecord>, ghost order: seq<string>)
      ensures Listing(adminAccessTokens, rows, order)
    {
      rows, order := AllRows(adminAccessTokens);
    }

    function GetUser(email: string): Option<Row>
      reads this
    {
      Lookup(users, email)
    }

    function GetAdmin(email: string): Option<Row>
      reads this
    {
      Lookup(admins, email)
    }

    function GetAdminAccessToken(email: string): Option<TokenRecord>
      reads this
    {
      Lookup(adminAccessTokens, email)
    }

    function GetUserAccessToken(email: string): Option<TokenRecord>
      reads this
    {
      Lookup(userAccessTokens, email)
    }

    method CreateAdminAccessToken(email: string, accessToken: string, created: int, ttl: int)
      modifies this`adminAccessTokens
      ensures adminAccessTokens == Upsert(old(adminAccessTokens), email, TokenRecord(accessToken, created, ttl))
    {
      adminAccessTokens := WriteToken(adminAccessTokens, email, accessToken, created, ttl);
    }

    method RevokeAdminAccessToken(email: string)
      modifies this`adminAccessTokens
      ensures adminAccessTokens == Remove(old(adminAccessTokens), email)
    {
      adminAccessTokens := adminAccessTokens - {email};
    }

    method CreateUserAccessToken(email: string, accessToken: string, created: int, ttl: int)
      modifies this`userAccessTokens
      ensures userAccessTokens == Upsert(old(userAccessTokens), email, TokenRecord(accessToken, created, ttl))
    {
      userAccessTokens := WriteToken(userAccessTokens, email, accessToken, created, ttl);
    }

    method RevokeUserAccessToken(email: string)
      modifies this`userAccessTokens
      ensures userAccessTokens == Remove(old(userAccessTokens), email)
    {
      userAccessTokens := userAccessTokens - {email};
    }

    method CreateUserRegistrationToken(email: string, token: string, created: int, ttl: int)
      modifies this`registrationTokens
      ensures registrationTokens == Upsert(old(registrationTokens), email, TokenRecord(token, created, ttl))
    {
      registrationTokens := WriteToken(registrationTokens, email, token, created, ttl);
    }
  }
}
