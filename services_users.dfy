/**
 * services/users.js: the user-record service. It turns sparse field maps into
 * parameterised SELECT and UPDATE statements over the `users` table, inserts
 * new users, checks session tokens, computes token expiry, and filters field
 * maps and projection lists against the column allow-list.
 */
module UsersService {
  import opened Js
  import opened Text
  import opened Errors
  import opened Database

  /** `users.availableFields`: every column of `users`. */
  const AvailableFields: seq<string> :=
    ["id", "email", "name", "password", "type_user", "bio", "role", "location",
     "homepage", "company", "tags", "date_start", "token", "token_date_end"]

  const AvailableSet: set<string> := set f | f in AvailableFields

  /** Columns `getSecureFieldsToSave` always removes from a request body. */
  const ProtectedOnSave: set<string> := {"id", "type_user", "token", "token_date_end"}

  /** 31 days in milliseconds, as the source writes it. */
  const TokenLifetime: int := 2678400000

  // ---------------------------------------------------------------------
  // The WHERE clause: one ` key = ?` per search key, joined by ` AND`.
  // Every get and set, in both versions of the service, builds it alike.
  // ---------------------------------------------------------------------

  function Conditions(search: Props): seq<string>
  {
    seq(|search|, i requires 0 <= i < |search| => " " + search[i].0 + " = ?")
  }

  /** No WHERE at all for an empty search map. */
  function WhereText(search: Props): string
  {
    if search == [] then "" else " WHERE" + Join(Conditions(search), " AND")
  }

  /** The `for (let key in searchInfo)` loop and the slice of the last ` AND`. */
  method AppendWhere(query: string, parameters: seq<Value>, search: Props) returns (q: string, ps: seq<Value>)
    ensures q == query + WhereText(search)
    ensures ps == parameters + Values(search)
  {
    q, ps := query, parameters;
    var i := 0;
    while i < |search|
      invariant 0 <= i <= |search|
      invariant q == WhereSoFar(query, search, i)
      invariant ps == parameters + Values(search[..i])
    {
      if i == 0 {
        q := q + " WHERE";
      }
      var key := search[i].0;
      q := q + (" " + key + " = ? AND");
      WhereStep(query, search, i);
      ps := ps + [search[i].1];
      ValuesStep(search, i);
      i := i + 1;
    }
    assert search[..i] == search;
    if i != 0 {
      WhereTrim(query, search);
      q := q[..|q| - 4];
    }
  }

  /** The text the WHERE loop has built after `i` keys, before the trim. */
  ghost function WhereSoFar(query: string, search: Props, i: nat): string
    requires i <= |search|
  {
    if i == 0 then query else query + " WHERE" + Terminated(Conditions(search[..i]), " AND")
  }

  /** One iteration of the WHERE loop: ` WHERE` first, then the next
      condition and its separator. */
  lemma WhereStep(query: string, search: Props, i: nat)
    requires i < |search|
    ensures WhereSoFar(query, search, i) + (if i == 0 then " WHERE" else "") + (" " + search[i].0 + " = ? AND")
            == WhereSoFar(query, search, i + 1)
  {
    ConditionStep(query + " WHERE", search, i);
    if i == 0 {
      assert search[..0] == [];
    }
  }

  /** The slice after the loop leaves the text and the WHERE clause. */
  lemma WhereTrim(query: string, search: Props)
    requires |search| > 0
    ensures |WhereSoFar(query, search, |search|)| >= 4
    ensures WhereSoFar(query, search, |search|)[..|WhereSoFar(query, search, |search|)| - 4] == query + WhereText(search)
  {
    var n, parts := |search|, Conditions(search);
    assert search[..n] == search;
    assert WhereSoFar(query, search, n) == query + " WHERE" + Terminated(parts, " AND");
    TrimLastSeparator(query + " WHERE", parts, " AND");
    assert WhereText(search) == " WHERE" + Join(parts, " AND");
  }

  /** One iteration of the WHERE loop appends the next condition and its
      separator. */
  lemma ConditionStep(head: string, search: Props, i: nat)
    requires i < |search|
    ensures head + Terminated(Conditions(search[..i]), " AND") + (" " + search[i].0 + " = ? AND")
            == head + Terminated(Conditions(search[..i + 1]), " AND")
  {
    var cond := " " + search[i].0 + " = ?";
    assert Conditions(search[..i + 1]) == Conditions(search[..i]) + [cond];
    assert " " + search[i].0 + " = ? AND" == cond + " AND";
    AppendPiece(head, Conditions(search[..i]), cond, " AND");
  }

  lemma ValuesStep(p: Props, i: nat)
    requires i < |p|
    ensures Values(p[..i + 1]) == Values(p[..i]) + [p[i].1]
  {
  }

  // ---------------------------------------------------------------------
  // users.get
  // ---------------------------------------------------------------------

  function Coalesced(fields: seq<string>): seq<string>
  {
    seq(|fields|, i requires 0 <= i < |fields| => "IFNULL(" + fields[i] + ", \"\") as " + fields[i])
  }

  /** The projection: the token columns always, then each requested field
      with NULL read as the empty string. With no field requested the
      separator after `token_date_end` stays. */
  function ProjectionText(fields: seq<string>): string
  {
    "token, token_date_end, " + Join(Coalesced(fields), ", ")
  }

  /** A missing projection means every available field. */
  function Projected(retrieved: Option<seq<string>>): seq<string>
  {
    if retrieved.Some? then retrieved.value else AvailableFields
  }

  function SelectText(search: Props, retrieved: Option<seq<string>>): string
  {
    "SELECT " + ProjectionText(Projected(retrieved)) + " FROM users" + WhereText(search)
  }

  /** The statement `users.get` sends. */
  method BuildSelect(search: Props, retrieved: Option<seq<string>>) returns (text: string, params: seq<Value>)
    ensures text == SelectText(search, retrieved)
    ensures params == Values(search)
  {
    var fields := if retrieved.None? then AvailableFields else retrieved.value;
    text := AppendProjection("SELECT ", fields);
    text := text + " FROM users";
    text, params := AppendWhere(text, [], search);
    assert [] + Values(search) == Values(search);
  }

  /** The projection loop of `users.get` and the slice of its last `, `. */
  method AppendProjection(query: string, fields: seq<string>) returns (text: string)
    ensures text == query + ProjectionText(fields)
  {
    ghost var head := query + "token, token_date_end, ";
    text := query + "token, token_date_end, ";
    var i := 0;
    while i < |fields|
      invariant 0 <= i <= |fields|
      invariant text == head + Terminated(Coalesced(fields[..i]), ", ")
    {
      ColumnStep(head, fields, i);
      text := text + ("IFNULL(" + fields[i] + ", \"\") as " + fields[i] + ", ");
      i := i + 1;
    }
    assert fields[..i] == fields;
    if i != 0 {
      TrimLastSeparator(head, Coalesced(fields), ", ");
      text := text[..|text| - 2];
    } else {
      assert Coalesced(fields) == [];
    }
    assert ProjectionText(fields) == "token, token_date_end, " + Join(Coalesced(fields), ", ");
  }

  /** One iteration of the projection loop appends the next column and its
      separator. */
  lemma ColumnStep(head: string, fields: seq<string>, i: nat)
    requires i < |fields|
    ensures head + Terminated(Coalesced(fields[..i]), ", ") + ("IFNULL(" + fields[i] + ", \"\") as " + fields[i] + ", ")
            == head + Terminated(Coalesced(fields[..i + 1]), ", ")
  {
    var column := "IFNULL(" + fields[i] + ", \"\") as " + fields[i];
    assert Coalesced(fields[..i + 1]) == Coalesced(fields[..i]) + [column];
    assert column + ", " == "IFNULL(" + fields[i] + ", \"\") as " + fields[i] + ", ";
    AppendPiece(head, Coalesced(fields[..i]), column, ", ");
  }

  /** `buffer.toString()` in place of a Buffer cell; other cells as they are. */
  function DecodeCell(v: Value, fx: Foreign): Value
  {
    if v.Buf? then Str(fx.decode(v.bytes)) else v
  }

  function DecodeRow(row: Props, fx: Foreign): Props
  {
    seq(|row|, j requires 0 <= j < |row| => (row[j].0, DecodeCell(row[j].1, fx)))
  }

  function DecodeRows(rows: seq<Props>, fx: Foreign): seq<Props>
  {
    seq(|rows|, i requires 0 <= i < |rows| => DecodeRow(rows[i], fx))
  }

  /** The nested `for...in` loops of `users.get` that rewrite Buffer cells of
      the response in place. */
  method DecodeBuffers(response: seq<Props>, fx: Foreign) returns (rows: seq<Props>)
    ensures rows == DecodeRows(response, fx)
  {
    rows := response;
    var index := 0;
    while index < |rows|
      invariant 0 <= index <= |rows| == |response|
      invariant forall i :: 0 <= i < index ==> rows[i] == DecodeRow(response[i], fx)
      invariant forall i :: index <= i < |rows| ==> rows[i] == response[i]
    {
      var row := rows[index];
      var j := 0;
      while j < |row|
        invariant 0 <= j <= |row| == |response[index]|
        invariant forall k :: 0 <= k < j ==> row[k] == (response[index][k].0, DecodeCell(response[index][k].1, fx))
        invariant forall k :: j <= k < |row| ==> row[k] == response[index][k]
      {
        if row[j].1.Buf? {
          row := row[j := (row[j].0, Str(fx.decode(row[j].1.bytes)))];
        }
        j := j + 1;
      }
      assert row == DecodeRow(response[index], fx);
      rows := rows[index := row];
      index := index + 1;
    }
  }

  /** What `users.get` returns or throws, given the driver's answer. */
  function Retrieved(a: Answer, fx: Foreign): Result<Answer>
  {
    match a
    case Failed(e) => Throw(Api(GetError(DATABASE_ERROR, e.sqlState)))
    case Rows(rs) => Ok(Rows(DecodeRows(rs, fx)))
    case Packet(_) => Ok(a)
  }

  /** `users.get(db, searchInfo, retrievedInfo)` */
  method Get(db: Db, search: Props, retrieved: Option<seq<string>>, fx: Foreign) returns (r: Result<Answer>)
    modifies db
    ensures db.log == old(db.log) + [Statement(SelectText(search, retrieved), Values(search))]
    ensures r == Retrieved(db.oracle(db.log), fx)
  {
    var text, parameters := BuildSelect(search, retrieved);
    var response := db.Query(text, parameters);
    if response.Failed? {
      r := Throw(Api(GetError(DATABASE_ERROR, response.cause.sqlState)));
    } else if response.Rows? {
      var rows := DecodeBuffers(response.rows, fx);
      r := Ok(Rows(rows));
    } else {
      r := Ok(response);
    }
  }

  // ---------------------------------------------------------------------
  // users.set
  // ---------------------------------------------------------------------

  function Assignments(keys: seq<string>): seq<string>
  {
    seq(|keys|, i requires 0 <= i < |keys| => keys[i] + " = ?")
  }

  function UpdateText(keys: seq<string>, search: Props): string
  {
    "UPDATE users SET " + Join(Assignments(keys), ", ") + WhereText(search)
  }

  /** The value `set` stores for a column: a password is hashed with a fresh
      salt, tags are stored as JSON text, anything else as given. */
  function Stored(key: string, v: Value, salt: string, fx: Foreign): Value
  {
    if key == "password" then Str(fx.hash(v, salt))
    else if key == "tags" then Str(fx.stringify(v))
    else v
  }

  function Prepared(updates: Props, salt: string, fx: Foreign): Props
  {
    seq(|updates|, i requires 0 <= i < |updates| => (updates[i].0, Stored(updates[i].0, updates[i].1, salt, fx)))
  }

  /** One iteration of the SET loop: the i-th property, not yet visited,
      takes its stored value, and the parameters grow by that value. */
  lemma PreparedStep(original: Props, i: nat, salt: string, fx: Foreign, current: Props)
    requires i < |original| && current == Prepared(original[..i], salt, fx) + original[i..]
    ensures |current| == |original| && current[i] == original[i]
    ensures current[i := (original[i].0, Stored(original[i].0, original[i].1, salt, fx))]
            == Prepared(original[..i + 1], salt, fx) + original[i + 1..]
    ensures Values(Prepared(original[..i + 1], salt, fx))
            == Values(Prepared(original[..i], salt, fx)) + [Stored(original[i].0, original[i].1, salt, fx)]
  {
    var x := (original[i].0, Stored(original[i].0, original[i].1, salt, fx));
    assert Prepared(original[..i + 1], salt, fx) == Prepared(original[..i], salt, fx) + [x];
  }

  /** What `users.set` throws, given the driver's answer: a failed statement
      is a database error, and a result with a non-zero `length` is
      NOT_FOUND. An OK packet has no `length`. */
  function Updated(a: Answer): Result<()>
  {
    match a
    case Failed(e) => Throw(Api(GetError(DATABASE_ERROR, e.sqlState)))
    case Rows(rs) => if |rs| != 0 then Fail(NOT_FOUND) else Ok(())
    case Packet(_) => Ok(())
  }

  /** `users.set(db, searchInfo, updatedInfo)`; `salt` stands for
      `bcrypt.genSaltSync(10)`. The stored forms of password and tags are
      written back into `updatedInfo`. */
  method Set(db: Db, search: Props, updated: Record, salt: string, fx: Foreign) returns (r: Result<()>)
    modifies db, updated
    ensures updated.props == Prepared(old(updated.props), salt, fx)
    ensures db.log == old(db.log) + [Statement(UpdateText(Keys(old(updated.props)), search),
                                                Values(updated.props) + Values(search))]
    ensures r == Updated(db.oracle(db.log))
  {
    ghost var keys := Keys(updated.props);
    var query, parameters := BuildSet(updated, salt, fx);
    query, parameters := AppendWhere(query, parameters, search);
    assert query == UpdateText(keys, search);
    var response := db.Query(query, parameters);
    if response.Failed? {
      return Throw(Api(GetError(DATABASE_ERROR, response.cause.sqlState)));
    }
    if response.Rows? && |response.rows| != 0 {
      return Fail(NOT_FOUND);
    }
    r := Ok(());
  }

  /** The `SET` loop of `users.set` and the slice of its last `, `: one
      assignment per key of `updatedInfo`, whose password and tags values it
      rewrites in place, and their stored values as parameters. */
  method BuildSet(updated: Record, salt: string, fx: Foreign) returns (query: string, parameters: seq<Value>)
    modifies updated
    ensures updated.props == Prepared(old(updated.props), salt, fx)
    ensures query == "UPDATE users SET " + Join(Assignments(Keys(old(updated.props))), ", ")
    ensures parameters == Values(updated.props)
  {
    ghost var head := "UPDATE users SET ";
    query := "UPDATE users SET ";
    parameters := [];
    ghost var original := updated.props;
    var keys := Keys(updated.props);
    var i := 0;
    while i < |keys|
      invariant 0 <= i <= |keys| == |original|
      invariant keys == Keys(original)
      invariant updated.props == Prepared(original[..i], salt, fx) + original[i..]
      invariant query == head + Terminated(Assignments(keys[..i]), ", ")
      invariant parameters == Values(Prepared(original[..i], salt, fx))
    {
      var key := keys[i];
      AssignmentStep(head, keys, i);
      query := query + (key + " = ?, ");
      PreparedStep(original, i, salt, fx, updated.props);
      StoreAt(updated, i, salt, fx);
      parameters := parameters + [updated.props[i].1];
      i := i + 1;
    }
    assert keys[..i] == keys;
    assert original[..i] == original && original[i..] == [];
    if i != 0 {
      TrimLastSeparator(head, Assignments(keys), ", ");
      query := query[..|query| - 2];
    } else {
      assert Assignments(keys) == [];
    }
  }

  /** `updatedInfo[key] = ...` for the i-th key: a password is hashed and
      tags are stringified where they stand. */
  method StoreAt(updated: Record, i: nat, salt: string, fx: Foreign)
    requires i < |updated.props|
    modifies updated
    ensures updated.props == old(updated.props)[i := (old(updated.props)[i].0,
                                 Stored(old(updated.props)[i].0, old(updated.props)[i].1, salt, fx))]
  {
    var key := updated.props[i].0;
    if key == "password" {
      updated.props := updated.props[i := (key, Str(fx.hash(updated.props[i].1, salt)))];
    }
    if key == "tags" {
      updated.props := updated.props[i := (key, Str(fx.stringify(updated.props[i].1)))];
    }
  }

  /** One iteration of the SET loop appends the next assignment and its
      separator. */
  lemma AssignmentStep(head: string, keys: seq<string>, i: nat)
    requires i < |keys|
    ensures head + Terminated(Assignments(keys[..i]), ", ") + (keys[i] + " = ?, ")
            == head + Terminated(Assignments(keys[..i + 1]), ", ")
  {
    assert Assignments(keys[..i + 1]) == Assignments(keys[..i]) + [keys[i] + " = ?"];
    assert keys[i] + " = ?, " == (keys[i] + " = ?") + ", ";
    AppendPiece(head, Assignments(keys[..i]), keys[i] + " = ?", ", ");
  }

  // ---------------------------------------------------------------------
  // users.create, users.getDateEnd, users.getToken
  // ---------------------------------------------------------------------

  const InsertText: string :=
    "INSERT INTO users (email, name, password, type_user, token, token_date_end) VALUES (?, ?, ?, ?, ?, ?)"

  /** The instant `users.getDateEnd(currentTimestamp)` formats: 31 days
      after the argument, or after `clock` (`Date.now()`) when the argument
      is falsy (absent or 0). */
  function GetDateEnd(currentTimestamp: Option<int>, clock: int): int
  {
    var base := if currentTimestamp.None? || currentTimestamp.value == 0 then clock else currentTimestamp.value;
    base + TokenLifetime
  }

  /** `users.getDateEnd(currentTimestamp)`: that instant as
      `YYYY-MM-DD hh:mm:ss` text. */
  function DateEndText(currentTimestamp: Option<int>, clock: int, fx: Foreign): string
  {
    fx.format(Num(GetDateEnd(currentTimestamp, clock)))
  }

  /** `users.getToken(id)`: a digest of the id and a fresh expiry text. */
  function GetToken(id: Value, clock: int, fx: Foreign): string
  {
    fx.digest(id, DateEndText(None, clock, fx))
  }

  /** JavaScript's `v == 1062`, for the values the driver puts in `errno`. */
  predicate LooselyIs1062(v: Value)
  {
    match v
    case Num(n) => n == 1062
    case Str(s) => s == "1062"
    case _ => false
  }

  /** The classification in the `catch` of `users.create`. */
  function InsertFailure(e: DbError): ApiError
  {
    if e.code == Str("ER_DUP_ENTRY") || LooselyIs1062(e.errno) then GetError(DUPLICATED_EMAIL, Undefined)
    else GetError(UNDEFINED_PROBLEM, Undefined)
  }

  /** The token `create` stores: `users.getToken(salt)`. */
  function NewUserToken(salt: string, clock: int, fx: Foreign): string
  {
    GetToken(Str(salt), clock, fx)
  }

  function InsertParams(info: Props, salt: string, clock: int, fx: Foreign): seq<Value>
  {
    [Lookup(info, "email"), Lookup(info, "name"), Str(fx.hash(Lookup(info, "password"), salt)),
     Lookup(info, "type_user"), Str(NewUserToken(salt, clock, fx)), Str(DateEndText(None, clock, fx))]
  }

  /** What `users.create` returns (its `result.result`) or throws. */
  function Created(a: Answer, info: Props, salt: string, clock: int, fx: Foreign): Result<Value>
  {
    if a.Failed? then Throw(Api(InsertFailure(a.cause)))
    else Ok(Obj([("email", Lookup(info, "email")), ("name", Lookup(info, "name")),
                 ("token", Str(NewUserToken(salt, clock, fx))), ("dateEnd", Str(DateEndText(None, clock, fx)))]))
  }

  /** `users.create(db, info)`; `salt` stands for `bcrypt.genSaltSync(10)`
      and `clock` for `Date.now()`, read once for the expiry and the token. */
  method Create(db: Db, info: Props, salt: string, clock: int, fx: Foreign) returns (r: Result<Value>)
    modifies db
    ensures db.log == old(db.log) + [Statement(InsertText, InsertParams(info, salt, clock, fx))]
    ensures r == Created(db.oracle(db.log), info, salt, clock, fx)
  {
    var hash := fx.hash(Lookup(info, "password"), salt);
    var dateEnd := DateEndText(None, clock, fx);
    var token := GetToken(Str(salt), clock, fx);
    var response := db.Query(InsertText, [Lookup(info, "email"), Lookup(info, "name"), Str(hash),
                                          Lookup(info, "type_user"), Str(token), Str(dateEnd)]);
    if response.Failed? {
      var error := response.cause;
      if error.code == Str("ER_DUP_ENTRY") || LooselyIs1062(error.errno) {
        return Throw(Api(GetError(DUPLICATED_EMAIL, Undefined)));
      } else {
        return Throw(Api(GetError(UNDEFINED_PROBLEM, Undefined)));
      }
    }
    r := Ok(Obj([("email", Lookup(info, "email")), ("name", Lookup(info, "name")),
                 ("token", Str(token)), ("dateEnd", Str(dateEnd))]));
  }

  // ---------------------------------------------------------------------
  // users.verifyToken
  // ---------------------------------------------------------------------

  const TokenProjection: seq<string> := ["id", "token", "token_date_end"]

  /** The acceptance test of `verifyToken` on what `users.get` gave: exactly
      one row whose `token_date_end` is not before `now`. `rejection` is what
      the failing branch throws. A result that is not a row list has no
      first row, so reading its `token_date_end` is a TypeError. */
  function TokenCheck(g: Result<Answer>, now: int, fx: Foreign, rejection: Thrown): Result<Props>
  {
    match g
    case Throw(t) => Throw(t)
    case Ok(a) =>
      if !a.Rows? then Throw(Native("TypeError"))
      else if |a.rows| == 0 || |a.rows| > 1 || IsAfter(now, Lookup(a.rows[0], "token_date_end"), fx) then Throw(rejection)
      else Ok(a.rows[0])
  }

  /** The NOT_LOGGED_IN error the rejection branch means to throw. */
  function NotLoggedIn(): Thrown
  {
    Api(GetError(NOT_LOGGED_IN, Undefined))
  }

  method CheckToken(db: Db, token: Value, now: int, fx: Foreign, rejection: Thrown) returns (r: Result<Props>)
    modifies db
    ensures db.log == old(db.log) + [Statement(SelectText([("token", token)], Some(TokenProjection)), [token])]
    ensures r == TokenCheck(Retrieved(db.oracle(db.log), fx), now, fx, rejection)
  {
    var response := Get(db, [("token", token)], Some(TokenProjection), fx);
    assert Values([("token", token)]) == [token];
    if response.Throw? {
      return Throw(response.thrown);
    }
    var result := response.value;
    if !result.Rows? {
      return Throw(Native("TypeError"));
    }
    if |result.rows| == 0 || |result.rows| > 1 || IsAfter(now, Lookup(result.rows[0], "token_date_end"), fx) {
      return Throw(rejection);
    }
    r := Ok(result.rows[0]);
  }

  /** `users.verifyToken(db, token)` as written: the rejection calls a bare
      `getError`, which is not declared in the file, so it throws a
      ReferenceError. `now` is the instant `getCurrentDate()` names. */
  method VerifyTokenAsWritten(db: Db, token: Value, now: int, fx: Foreign) returns (r: Result<Props>)
    modifies db
    ensures db.log == old(db.log) + [Statement(SelectText([("token", token)], Some(TokenProjection)), [token])]
    ensures r == TokenCheck(Retrieved(db.oracle(db.log), fx), now, fx, Native("ReferenceError"))
  {
    r := CheckToken(db, token, now, fx, Native("ReferenceError"));
  }

  /** `users.verifyToken(db, token)` with the rejection throwing
      `errors.getError(errors.NOT_LOGGED_IN)`, as intended. */
  method VerifyToken(db: Db, token: Value, now: int, fx: Foreign) returns (r: Result<Props>)
    modifies db
    ensures db.log == old(db.log) + [Statement(SelectText([("token", token)], Some(TokenProjection)), [token])]
    ensures r == TokenCheck(Retrieved(db.oracle(db.log), fx), now, fx, NotLoggedIn())
  {
    r := CheckToken(db, token, now, fx, NotLoggedIn());
  }

  /** What the rejecting branch of `verifyToken` throws: the ReferenceError
      of the code as written, or the intended NOT_LOGGED_IN. */
  predicate TokenRejection(t: Thrown)
  {
    t == Native("ReferenceError") || t == NotLoggedIn()
  }

  /** `users.verifyToken(db, token)`, as written or as intended, by
      `rejection`. */
  method VerifyTokenWith(db: Db, token: Value, now: int, fx: Foreign, rejection: Thrown) returns (r: Result<Props>)
    requires TokenRejection(rejection)
    modifies db
    ensures db.log == old(db.log) + [Statement(SelectText([("token", token)], Some(TokenProjection)), [token])]
    ensures r == TokenCheck(Retrieved(db.oracle(db.log), fx), now, fx, rejection)
  {
    if rejection == NotLoggedIn() {
      r := VerifyToken(db, token, now, fx);
    } else {
      r := VerifyTokenAsWritten(db, token, now, fx);
    }
  }

  // ---------------------------------------------------------------------
  // Allow-list filters
  // ---------------------------------------------------------------------

  /** The object branch of `removeExtraFields`: deletes, in place, every
      property whose key is not an available field. */
  method RemoveExtraFieldsFromObject(fields: Record)
    requires DistinctKeys(fields.props)
    modifies fields
    ensures fields.props == Restrict(old(fields.props), AvailableSet)
  {
    ghost var original := fields.props;
    var keys := Keys(fields.props);
    var i := 0;
    while i < |keys|
      invariant 0 <= i <= |keys| == |original|
      invariant keys == Keys(original)
      invariant fields.props == Restrict(original[..i], AvailableSet) + original[i..]
    {
      var key := keys[i];
      VisitNextKey(original, i, AvailableSet);
      assert key in AvailableSet <==> key in AvailableFields;
      if IndexOf(AvailableFields, key) == -1 {
        fields.props := Without(fields.props, key);
      }
      i := i + 1;
    }
    assert original[..i] == original && original[i..] == [];
  }

  /** One iteration of the object branch: the next property stays when its
      key is allowed, and deleting its key removes exactly it otherwise. */
  lemma VisitNextKey(original: Props, i: nat, allowed: set<string>)
    requires DistinctKeys(original) && i < |original|
    ensures original[i].0 in allowed ==>
              Restrict(original[..i], allowed) + original[i..] == Restrict(original[..i + 1], allowed) + original[i + 1..]
    ensures original[i].0 !in allowed ==>
              Without(Restrict(original[..i], allowed) + original[i..], original[i].0)
              == Restrict(original[..i + 1], allowed) + original[i + 1..]
  {
    RestrictSnoc(original[..i], original[i], allowed);
    assert original[..i + 1] == original[..i] + [original[i]];
    assert original[i..] == [original[i]] + original[i + 1..];
    if original[i].0 !in allowed {
      RestrictKeys(original[..i], allowed, original[i].0);
      DistinctLater(original, i);
      WithoutOnly(Restrict(original[..i], allowed), original[i], original[i + 1..]);
    }
  }

  /** `users.getSecureFieldsToSave(fields)`: removes the identity and token
      columns and every unknown key from the object, in place, and returns
      the same object. */
  method GetSecureFieldsToSave(fields: Record) returns (same: Record)
    requires DistinctKeys(fields.props)
    modifies fields
    ensures same == fields
    ensures fields.props == SecureToSave(old(fields.props))
  {
    ghost var original := fields.props;
    // each `delete` is guarded by hasOwnProperty; deleting an absent key is a no-op anyway
    fields.props := Without(fields.props, "id");
    WithoutDistinct(original, "id");
    ghost var p1 := fields.props;
    fields.props := Without(fields.props, "type_user");
    WithoutDistinct(p1, "type_user");
    ghost var p2 := fields.props;
    fields.props := Without(fields.props, "token");
    WithoutDistinct(p2, "token");
    ghost var p3 := fields.props;
    fields.props := Without(fields.props, "token_date_end");
    WithoutDistinct(p3, "token_date_end");
    RemoveExtraFieldsFromObject(fields);
    RestrictWithout(p3, AvailableSet, "token_date_end");
    RestrictWithout(p2, AvailableSet - {"token_date_end"}, "token");
    RestrictWithout(p1, AvailableSet - {"token_date_end"} - {"token"}, "type_user");
    RestrictWithout(original, AvailableSet - {"token_date_end"} - {"token"} - {"type_user"}, "id");
    assert AvailableSet - {"token_date_end"} - {"token"} - {"type_user"} - {"id"} == AvailableSet - ProtectedOnSave;
    same := fields;
  }

  /** The properties a request body keeps after `getSecureFieldsToSave`. */
  function SecureToSave(p: Props): Props
  {
    Restrict(p, AvailableSet - ProtectedOnSave)
  }

  lemma {:induction false} WithoutKeys(p: Props, k: string, k': string)
    ensures k' in Keys(Without(p, k)) <==> k' in Keys(p) && k' != k
  {
    if p != [] {
      WithoutKeys(p[1..], k, k');
      var head := if p[0].0 == k then [] else [p[0]];
      assert Without(p, k) == head + Without(p[1..], k);
      KeysAppend(head, Without(p[1..], k));
      assert p == [p[0]] + p[1..];
      KeysCons(p[0], p[1..]);
      if p[0].0 == k {
        assert Keys(head) == [];
      } else {
        assert Keys(head) == [p[0].0];
      }
    }
  }

  lemma {:induction false} WithoutDistinct(p: Props, k: string)
    requires DistinctKeys(p)
    ensures DistinctKeys(Without(p, k))
  {
    if p != [] {
      WithoutDistinct(p[1..], k);
      var rest := Without(p[1..], k);
      if p[0].0 != k {
        forall j | 0 <= j < |rest| ensures rest[j].0 != p[0].0 {
          assert Keys(rest)[j] == rest[j].0;
          WithoutKeys(p[1..], k, rest[j].0);
          var m :| 0 <= m < |p[1..]| && Keys(p[1..])[m] == rest[j].0;
          assert p[m + 1].0 == rest[j].0;
        }
        assert Without(p, k) == [p[0]] + rest;
      } else {
        assert Without(p, k) == [] + rest;
      }
    }
  }

  /** `a.indexOf('id')` and `a.indexOf('password')`, each first occurrence
      spliced out. */
  function SecureToReturn(items: seq<string>): seq<string>
  {
    RemoveFirst(RemoveFirst(items, "id"), "password")
  }

  /** Every element of a projection list is an available field. */
  predicate AllAvailable(items: seq<string>)
  {
    forall i :: 0 <= i < |items| ==> items[i] in AvailableFields
  }

  /** The array branch of `removeExtraFields`. Its `splice(index, 1)` names
      an `index` that is not declared in the function, so the first element
      that is not an available field raises a ReferenceError before anything
      is removed. */
  method RemoveExtraFieldsFromList(fields: StringList) returns (failure: Option<Thrown>)
    ensures failure.None? <==> AllAvailable(fields.items)
    ensures failure.Some? ==> failure.value == Native("ReferenceError")
  {
    var items := fields.items;
    var i := 0;
    while i < |items|
      invariant 0 <= i <= |items|
      invariant AllAvailable(items[..i])
    {
      var f := items[i];
      if IndexOf(AvailableFields, f) == -1 {
        assert !AllAvailable(items) by {
          assert items[i] !in AvailableFields;
        }
        return Some(Native("ReferenceError"));
      }
      AvailableStep(items, i);
      i := i + 1;
    }
    AvailableWhole(items);
    failure := None;
  }

  /** One more element checked against the allow-list. */
  lemma AvailableStep(items: seq<string>, i: nat)
    requires i < |items| && AllAvailable(items[..i]) && items[i] in AvailableFields
    ensures AllAvailable(items[..i + 1])
  {
    assert items[..i + 1] == items[..i] + [items[i]];
  }

  /** The checked prefix that is the whole list. */
  lemma AvailableWhole(items: seq<string>)
    requires AllAvailable(items[..|items|])
    ensures AllAvailable(items)
  {
    assert items[..|items|] == items;
  }

  /** `users.getSecureFieldsToReturn(fields)`: splices `id` and `password`
      out of the array in place, then checks the rest against the allow-list. */
  method GetSecureFieldsToReturn(fields: StringList) returns (r: Result<StringList>)
    modifies fields
    ensures fields.items == SecureToReturn(old(fields.items))
    ensures r == if AllAvailable(fields.items) then Ok(fields)
                 else Throw(Native("ReferenceError"))
  {
    ghost var original := fields.items;
    var index := IndexOf(fields.items, "id");
    if index != -1 {
      fields.Splice(index);
    }
    assert fields.items == RemoveFirst(original, "id");
    ghost var once := fields.items;
    index := IndexOf(fields.items, "password");
    if index != -1 {
      fields.Splice(index);
    }
    assert fields.items == RemoveFirst(once, "password");
    var failure := RemoveExtraFieldsFromList(fields);
    r := if failure.None? then Ok(fields) else Throw(failure.value);
  }

  // ---------------------------------------------------------------------
  // Properties
  // ---------------------------------------------------------------------

  /** A text with no `?` in it. */
  predicate Plain(s: string)
  {
    '?' !in s
  }

  lemma PlainCount(s: string)
    requires Plain(s)
    ensures Count(s, '?') == 0
  {
    CountZeroIffAbsent(s, '?');
  }

  /** The WHERE clause has one placeholder per search key. */
  lemma WherePlaceholders(search: Props)
    requires forall i :: 0 <= i < |search| ==> Plain(search[i].0)
    ensures Count(WhereText(search), '?') == |search|
  {
    if search != [] {
      var conds := Conditions(search);
      forall i | 0 <= i < |conds| ensures Count(conds[i], '?') == 1 {
        PlainCount(search[i].0);
        PlainCount(" ");
        CountAppend(" ", search[i].0, '?');
        CountAppend(" " + search[i].0, " = ?", '?');
        assert Count(" = ?", '?') == 1;
      }
      PlainCount(" AND");
      CountJoin(conds, " AND", '?', 1);
      PlainCount(" WHERE");
      CountAppend(" WHERE", Join(conds, " AND"), '?');
    }
  }

  /** Each coalesced column expression is free of placeholders. */
  lemma CoalescedPlain(fields: seq<string>)
    requires forall i :: 0 <= i < |fields| ==> Plain(fields[i])
    ensures Count(Join(Coalesced(fields), ", "), '?') == 0
  {
    var parts := Coalesced(fields);
    forall i | 0 <= i < |parts| ensures Count(parts[i], '?') == 0 {
      var f := fields[i];
      PlainCount(f);
      PlainCount("IFNULL(");
      PlainCount(", \"\") as ");
      CountAppend("IFNULL(", f, '?');
      CountAppend("IFNULL(" + f, ", \"\") as ", '?');
      CountAppend("IFNULL(" + f + ", \"\") as ", f, '?');
    }
    PlainCount(", ");
    CountJoin(parts, ", ", '?', 0);
  }

  /** The SELECT has exactly as many placeholders as parameters, provided no
      field name or search key contains a `?` itself. */
  lemma SelectPlaceholders(search: Props, retrieved: Option<seq<string>>)
    requires forall i :: 0 <= i < |Projected(retrieved)| ==> Plain(Projected(retrieved)[i])
    requires forall i :: 0 <= i < |search| ==> Plain(search[i].0)
    ensures Count(SelectText(search, retrieved), '?') == |Values(search)|
  {
    var fields := Projected(retrieved);
    CoalescedPlain(fields);
    WherePlaceholders(search);
    CountPrefixed("token, token_date_end, ", Join(Coalesced(fields), ", "), '?');
    CountFramed("SELECT ", ProjectionText(fields), " FROM users", '?');
    CountAppend("SELECT " + ProjectionText(fields) + " FROM users", WhereText(search), '?');
  }

  /** The UPDATE has one placeholder per updated key and one per search key. */
  lemma UpdatePlaceholders(keys: seq<string>, search: Props)
    requires forall i :: 0 <= i < |keys| ==> Plain(keys[i])
    requires forall i :: 0 <= i < |search| ==> Plain(search[i].0)
    ensures Count(UpdateText(keys, search), '?') == |keys| + |search|
  {
    var parts := Assignments(keys);
    forall i | 0 <= i < |parts| ensures Count(parts[i], '?') == 1 {
      PlainCount(keys[i]);
      CountAppend(keys[i], " = ?", '?');
      assert Count(" = ?", '?') == 1;
    }
    PlainCount(", ");
    CountJoin(parts, ", ", '?', 1);
    WherePlaceholders(search);
    CountPrefixed("UPDATE users SET ", Join(parts, ", "), '?');
    CountAppend("UPDATE users SET " + Join(parts, ", "), WhereText(search), '?');
  }

  /** No available field name contains a placeholder. */
  lemma AvailableFieldsPlain()
    ensures forall i :: 0 <= i < |AvailableFields| ==> Plain(AvailableFields[i])
  {
  }

  /** Every SELECT starts with `SELECT ` and then the token columns. */
  lemma SelectShape(search: Props, retrieved: Option<seq<string>>)
    ensures "SELECT " <= SelectText(search, retrieved)
    ensures "token, token_date_end, " <= SelectText(search, retrieved)[7..]
  {
    var keyword, tokens := "SELECT ", "token, token_date_end, ";
    var fields := Projected(retrieved);
    var tail := " FROM users" + WhereText(search);
    var j := Join(Coalesced(fields), ", ");
    var projection := ProjectionText(fields);
    assert projection == tokens + j;
    ConcatAssoc(keyword + projection, " FROM users", WhereText(search));
    ConcatAssoc(keyword, projection, tail);
    ConcatAssoc(tokens, j, tail);
    PrefixOfConcat(keyword, tokens + (j + tail));
    PrefixOfConcat(tokens, j + tail);
  }

  /** Without a field list `users.get` projects every available field,
      `password` included: the line that would skip it is commented out. */
  lemma DefaultProjectionHasPassword()
    ensures "password" in Projected(None)
    ensures "IFNULL(" + "password" + ", \"\") as " + "password" in Coalesced(Projected(None))
  {
    assert AvailableFields[3] == "password";
    assert Coalesced(AvailableFields)[3] == "IFNULL(" + "password" + ", \"\") as " + "password";
  }

  /** With at least one field requested, the projection ends with the last
      field's alias: the separator after it was trimmed. With none, the
      projection is the token columns and their separator. */
  lemma ProjectionTrimmed(fields: seq<string>)
    ensures fields == [] ==> ProjectionText(fields) == "token, token_date_end, "
    ensures fields != [] ==>
              var t := ProjectionText(fields);
              var f := fields[|fields| - 1];
              |t| >= |f| && t[|t| - |f|..] == f
  {
    if fields != [] {
      var parts := Coalesced(fields);
      var f := fields[|fields| - 1];
      JoinEndsWithLast(parts, ", ");
      assert parts[|parts| - 1] == "IFNULL(" + f + ", \"\") as " + f;
      var j := Join(parts, ", ");
      var t := ProjectionText(fields);
      assert t == "token, token_date_end, " + j;
      assert t[|t| - |f|..] == j[|j| - |f|..];
    }
  }

  /** An empty search map yields no WHERE clause, any other one a WHERE. */
  lemma WhereShape(search: Props)
    ensures search == [] ==> WhereText(search) == ""
    ensures search != [] ==> WhereText(search)[..6] == " WHERE"
  {
  }

  /** A failed query surfaces as DATABASE_ERROR carrying `sqlState` when it
      is truthy; rows come back with every Buffer cell decoded and nothing
      else changed. */
  lemma RetrievedMeaning(a: Answer, fx: Foreign)
    ensures a.Failed? <==> Retrieved(a, fx).Throw?
    ensures a.Failed? ==> Retrieved(a, fx).thrown.Api? &&
                          Retrieved(a, fx).thrown.e.error.code == DATABASE_ERROR &&
                          Retrieved(a, fx).thrown.e.status == Some(500) &&
                          (Retrieved(a, fx).thrown.e.error.details.Some? <==> Truthy(a.cause.sqlState))
    ensures a.Rows? ==> Retrieved(a, fx).Ok? && Retrieved(a, fx).value.Rows? &&
                        |Retrieved(a, fx).value.rows| == |a.rows|
    ensures a.Rows? ==> forall i, j :: 0 <= i < |a.rows| && 0 <= j < |a.rows[i]| ==>
                          var cell := Retrieved(a, fx).value.rows[i][j];
                          && cell.0 == a.rows[i][j].0
                          && !cell.1.Buf?
                          && (a.rows[i][j].1.Buf? ==> cell.1 == Str(fx.decode(a.rows[i][j].1.bytes)))
                          && (!a.rows[i][j].1.Buf? ==> cell.1 == a.rows[i][j].1)
  {
  }

  /** `set` sends the stored forms of the update values, then the search
      values; passwords are hashed, tags stored as JSON, other values and
      every key as given. */
  lemma PreparedMeaning(updates: Props, salt: string, fx: Foreign)
    ensures Keys(Prepared(updates, salt, fx)) == Keys(updates)
    ensures forall i :: 0 <= i < |updates| ==>
              Prepared(updates, salt, fx)[i].1 ==
                if updates[i].0 == "password" then Str(fx.hash(updates[i].1, salt))
                else if updates[i].0 == "tags" then Str(fx.stringify(updates[i].1))
                else updates[i].1
  {
  }

  /** `set` throws NOT_FOUND exactly when the answer has a non-zero length,
      and DATABASE_ERROR exactly when the statement failed. */
  lemma UpdatedMeaning(a: Answer)
    ensures Updated(a) == Fail(NOT_FOUND) <==> a.Rows? && |a.rows| != 0
    ensures (Updated(a).Throw? && Updated(a).thrown.e.error.code == DATABASE_ERROR) <==> a.Failed?
  {
  }

  /** A duplicate key yields DUPLICATED_EMAIL (409); every other failure
      UNDEFINED_PROBLEM (500). */
  lemma InsertFailureClassification(e: DbError)
    ensures InsertFailure(e).error.code == DUPLICATED_EMAIL <==>
              e.code == Str("ER_DUP_ENTRY") || LooselyIs1062(e.errno)
    ensures InsertFailure(e).error.code != DUPLICATED_EMAIL ==> InsertFailure(e).error.code == UNDEFINED_PROBLEM
    ensures InsertFailure(e).status == if InsertFailure(e).error.code == DUPLICATED_EMAIL then Some(409) else Some(500)
  {
  }

  /** On success `create` echoes the email and name it was given and exactly
      the token and expiry it inserted. */
  lemma CreateEchoesInsert(a: Answer, info: Props, salt: string, clock: int, fx: Foreign)
    requires !a.Failed?
    ensures var params := InsertParams(info, salt, clock, fx);
            Created(a, info, salt, clock, fx) ==
              Ok(Obj([("email", params[0]), ("name", params[1]), ("token", params[4]), ("dateEnd", params[5])]))
  {
  }

  /** The expiry is 31 days (31 * 24 * 60 * 60 * 1000 ms) after the given
      instant, or after the clock when the argument is absent or 0. */
  lemma DateEndIs31Days(currentTimestamp: Option<int>, clock: int)
    ensures currentTimestamp.Some? && currentTimestamp.value != 0 ==>
              GetDateEnd(currentTimestamp, clock) == currentTimestamp.value + 31 * 24 * 60 * 60 * 1000
    ensures currentTimestamp.None? || currentTimestamp.value == 0 ==>
              GetDateEnd(currentTimestamp, clock) == clock + 31 * 24 * 60 * 60 * 1000
  {
  }

  /** A token is accepted exactly when one row matches and its expiry is not
      before now, and then the row is returned. */
  lemma TokenAcceptedIffSingleUnexpired(rows: seq<Props>, now: int, fx: Foreign, rejection: Thrown)
    ensures TokenCheck(Ok(Rows(rows)), now, fx, rejection).Ok? <==>
              |rows| == 1 && !IsAfter(now, Lookup(rows[0], "token_date_end"), fx)
    ensures TokenCheck(Ok(Rows(rows)), now, fx, rejection).Ok? ==>
              TokenCheck(Ok(Rows(rows)), now, fx, rejection).value == rows[0]
    ensures TokenCheck(Ok(Rows(rows)), now, fx, rejection).Throw? ==>
              TokenCheck(Ok(Rows(rows)), now, fx, rejection).thrown == rejection
  {
  }

  /** A token whose expiry passed one second ago is rejected; one expiring in
      a second, or right now, is accepted. */
  lemma TokenExpiryBoundary(row: Props, expiry: int, fx: Foreign, rejection: Thrown)
    requires fx.instant(Lookup(row, "token_date_end")) == Some(expiry)
    ensures TokenCheck(Ok(Rows([row])), expiry + 1000, fx, rejection) == Throw(rejection)
    ensures TokenCheck(Ok(Rows([row])), expiry - 1000, fx, rejection) == Ok(row)
    ensures TokenCheck(Ok(Rows([row])), expiry, fx, rejection) == Ok(row)
  {
  }

  /** After `getSecureFieldsToSave` no identity or token column is left,
      every key is an available field, and each surviving key had the same
      value before: a key survives exactly when it was there and may be saved. */
  lemma SecureToSaveMeaning(p: Props, k: string)
    ensures k in Keys(SecureToSave(p)) <==> k in Keys(p) && k in AvailableFields && k !in ProtectedOnSave
    ensures Lookup(SecureToSave(p), k) == if k in AvailableFields && k !in ProtectedOnSave then Lookup(p, k) else Undefined
  {
    RestrictKeys(p, AvailableSet - ProtectedOnSave, k);
    RestrictLookup(p, AvailableSet - ProtectedOnSave, k);
  }

  /** `getSecureFieldsToReturn` removes one `id` and one `password` and keeps
      the others in place; with at most one of each, none is left. */
  lemma SecureToReturnMeaning(items: seq<string>)
    ensures multiset(SecureToReturn(items)) == multiset(items) - multiset{"id"} - multiset{"password"}
    ensures multiset(items)["id"] <= 1 && multiset(items)["password"] <= 1 ==>
              "id" !in SecureToReturn(items) && "password" !in SecureToReturn(items)
    ensures AllAvailable(items) ==> AllAvailable(SecureToReturn(items))
  {
    var once := RemoveFirst(items, "id");
    var r := RemoveFirst(once, "password");
    RemoveFirstCounts(items, "id");
    RemoveFirstCounts(once, "password");
    if multiset(items)["id"] <= 1 && multiset(items)["password"] <= 1 {
      SecuredCounts(multiset(items));
      assert multiset(r)["id"] == 0 && multiset(r)["password"] == 0;
    }
    if AllAvailable(items) {
      RemoveFirstAvailable(items, "id");
      RemoveFirstAvailable(once, "password");
    }
  }

  /** At most one `id` and one `password`, both taken away, leave none. */
  lemma SecuredCounts(m: multiset<string>)
    requires m["id"] <= 1 && m["password"] <= 1
    ensures (m - multiset{"id"} - multiset{"password"})["id"] == 0
    ensures (m - multiset{"id"} - multiset{"password"})["password"] == 0
  {
  }

  /** Splicing one element out of a list of available fields leaves one. */
  lemma RemoveFirstAvailable(items: seq<string>, x: string)
    requires AllAvailable(items)
    ensures AllAvailable(RemoveFirst(items, x))
  {
    var i := IndexOf(items, x);
    if i != -1 {
      var r := RemoveFirst(items, x);
      forall j | 0 <= j < |r| ensures r[j] in AvailableFields {
        assert r[j] == if j < i then items[j] else items[j + 1];
      }
    }
  }

  /** The full allow-list, secured for return, passes the allow-list check
      and has lost exactly `id` and `password`. */
  lemma SecureAvailableFields()
    ensures AllAvailable(SecureToReturn(AvailableFields))
    ensures "id" !in SecureToReturn(AvailableFields) && "password" !in SecureToReturn(AvailableFields)
    ensures |SecureToReturn(AvailableFields)| == |AvailableFields| - 2
  {
    IdLeadsAvailableFields();
    PasswordOnceInTail();
    assert AllAvailable(AvailableFields);
    LeadingIdSecured(AvailableFields);
  }

  /** A list of available fields that starts with its only `id` and holds
      `password` once loses exactly those two. */
  lemma LeadingIdSecured(fields: seq<string>)
    requires |fields| > 0 && fields[0] == "id" && "id" !in fields[1..]
    requires "password" in fields[1..] && "password" !in RemoveFirst(fields[1..], "password")
    requires AllAvailable(fields)
    ensures AllAvailable(SecureToReturn(fields))
    ensures "id" !in SecureToReturn(fields) && "password" !in SecureToReturn(fields)
    ensures |SecureToReturn(fields)| == |fields| - 2
  {
    SecureToReturnMeaning(fields);
    var once := fields[1..];
    IndexOfAt(fields, "id", 0);
    assert RemoveFirst(fields, "id") == once;
    RemoveFirstCounts(once, "password");
    var twice := RemoveFirst(once, "password");
    forall j | 0 <= j < |twice| ensures twice[j] != "id" {
      assert twice[j] in multiset(twice);
      assert twice[j] in once;
    }
  }

  lemma IdLeadsAvailableFields()
    ensures RemoveFirst(AvailableFields, "id") == AvailableFields[1..]
    ensures "id" !in AvailableFields[1..]
  {
    assert AvailableFields[0] == "id";
    IdOnlyFirst();
  }

  lemma IdOnlyFirst()
    ensures "id" !in AvailableFields[1..]
  {
  }

  lemma PasswordOnceInTail()
    ensures "password" in AvailableFields[1..]
    ensures "password" !in RemoveFirst(AvailableFields[1..], "password")
  {
    PasswordOnlyFourth();
    var once := AvailableFields[1..];
    TailSlices(AvailableFields, 3);
    IndexOfAt(once, "password", 2);
    assert RemoveFirst(once, "password") == AvailableFields[1..3] + AvailableFields[4..];
    NotInConcat(AvailableFields[1..3], AvailableFields[4..], "password");
  }

  /** `password` is the fourth available field and occurs nowhere else. */
  lemma PasswordOnlyFourth()
    ensures AvailableFields[3] == "password"
    ensures "password" !in AvailableFields[1..3] && "password" !in AvailableFields[4..]
  {
  }

  lemma TailSlices(s: seq<string>, i: nat)
    requires 1 <= i < |s|
    ensures s[1..][..i - 1] == s[1..i] && s[1..][i - 1] == s[i] && s[1..][i..] == s[i + 1..]
  {
  }

  lemma NotInConcat(a: seq<string>, b: seq<string>, x: string)
    requires x !in a && x !in b
    ensures x !in a + b
  {
  }


}
