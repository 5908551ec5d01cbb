/**
 * entities/users.js: the older user-record layer. Its `get` selects a plain
 * comma list of fields, or `*`, and returns rows untouched; its `set` stores
 * the update values as given. `create`, `getToken` and `getDateEnd` are the
 * same code as in the live service, whose models they reuse.
 */
module UsersEntity {
  import opened Js
  import opened Text
  import opened Errors
  import opened Database
  import UsersService

  /** The projection: the requested fields joined by `, `, or `*`. A
      present but empty list is truthy and leaves nothing between
      `SELECT ` and ` FROM`. */
  function ProjectionText(retrieved: Option<seq<string>>): string
  {
    if retrieved.Some? then Join(retrieved.value, ", ") else "*"
  }

  function SelectText(search: Props, retrieved: Option<seq<string>>): string
  {
    "SELECT " + ProjectionText(retrieved) + " FROM users" + UsersService.WhereText(search)
  }

  /** The statement this `users.get` sends. */
  method BuildSelect(search: Props, retrieved: Option<seq<string>>) returns (text: string, params: seq<Value>)
    ensures text == SelectText(search, retrieved)
    ensures params == Values(search)
  {
    text := "SELECT ";
    if retrieved.Some? {
      text := AppendFieldList(text, retrieved.value);
    } else {
      text := text + "*";
    }
    text := text + " FROM users";
    text, params := UsersService.AppendWhere(text, [], search);
    assert [] + Values(search) == Values(search);
  }

  /** The projection loop: every field but the last followed by `, `. */
  method AppendFieldList(query: string, fields: seq<string>) returns (text: string)
    ensures text == query + Join(fields, ", ")
  {
    text := query;
    var i := 0;
    var len := |fields|;
    while i < len
      invariant 0 <= i <= len == |fields|
      invariant i < len ==> text == query + Terminated(fields[..i], ", ")
      invariant i == len ==> text == query + Join(fields, ", ")
    {
      if i + 1 == len {
        TerminatedThenLast(fields, ", ");
        assert fields[..i] == fields[..|fields| - 1];
        text := text + fields[i];
      } else {
        AppendPiece(query, fields[..i], fields[i], ", ");
        assert fields[..i + 1] == fields[..i] + [fields[i]];
        text := text + (fields[i] + ", ");
      }
      i := i + 1;
    }
  }

  /** What this `users.get` returns or throws: rows untouched, or
      DATABASE_ERROR with the driver's `sqlState`. */
  function Retrieved(a: Answer): Result<Answer>
  {
    if a.Failed? then Throw(Api(GetError(DATABASE_ERROR, a.cause.sqlState))) else Ok(a)
  }

  /** `users.get(db, searchInfo, retrievedInfo)` */
  method Get(db: Db, search: Props, retrieved: Option<seq<string>>) returns (r: Result<Answer>)
    modifies db
    ensures db.log == old(db.log) + [Statement(SelectText(search, retrieved), Values(search))]
    ensures r == Retrieved(db.oracle(db.log))
  {
    var text, parameters := BuildSelect(search, retrieved);
    var response := db.Query(text, parameters);
    if response.Failed? {
      return Throw(Api(GetError(DATABASE_ERROR, response.cause.sqlState)));
    }
    r := Ok(response);
  }

  function UpdateText(updated: Props, search: Props): string
  {
    "UPDATE users SET " + Join(UsersService.Assignments(Keys(updated)), ", ") + UsersService.WhereText(search)
  }

  /** The `SET` loop of this `users.set`: one assignment per key, the values
      as given. */
  method BuildSet(updated: Props) returns (query: string, parameters: seq<Value>)
    ensures query == "UPDATE users SET " + Join(UsersService.Assignments(Keys(updated)), ", ")
    ensures parameters == Values(updated)
  {
    ghost var head := "UPDATE users SET ";
    query := "UPDATE users SET ";
    parameters := [];
    var keys := Keys(updated);
    var i := 0;
    while i < |keys|
      invariant 0 <= i <= |keys| == |updated|
      invariant query == head + Terminated(UsersService.Assignments(keys[..i]), ", ")
      invariant parameters == Values(updated[..i])
    {
      var key := keys[i];
      assert UsersService.Assignments(keys[..i + 1]) == UsersService.Assignments(keys[..i]) + [key + " = ?"];
      assert key + " = ?, " == (key + " = ?") + ", ";
      AppendPiece(head, UsersService.Assignments(keys[..i]), key + " = ?", ", ");
      query := query + (key + " = ?, ");
      parameters := parameters + [updated[i].1];
      assert Values(updated[..i + 1]) == Values(updated[..i]) + [updated[i].1];
      i := i + 1;
    }
    assert keys[..i] == keys && updated[..i] == updated;
    if i != 0 {
      TrimLastSeparator(head, UsersService.Assignments(keys), ", ");
      query := query[..|query| - 2];
    } else {
      assert UsersService.Assignments(keys) == [];
    }
  }

  /** `users.set(db, searchInfo, updatedInfo)`; `updatedInfo` is left as it is. */
  method Set(db: Db, search: Props, updated: Props) returns (r: Result<()>)
    modifies db
    ensures db.log == old(db.log) + [Statement(UpdateText(updated, search), Values(updated) + Values(search))]
    ensures r == UsersService.Updated(db.oracle(db.log))
  {
    var query, parameters := BuildSet(updated);
    query, parameters := UsersService.AppendWhere(query, parameters, search);
    var response := db.Query(query, parameters);
    if response.Failed? {
      return Throw(Api(GetError(DATABASE_ERROR, response.cause.sqlState)));
    }
    if response.Rows? && |response.rows| != 0 {
      return Fail(NOT_FOUND);
    }
    r := Ok(());
  }

  /** `users.create(db, info)`: the same code as the live service's. */
  method Create(db: Db, info: Props, salt: string, clock: int, fx: Foreign) returns (r: Result<Value>)
    modifies db
    ensures db.log == old(db.log) + [Statement(UsersService.InsertText, UsersService.InsertParams(info, salt, clock, fx))]
    ensures r == UsersService.Created(db.oracle(db.log), info, salt, clock, fx)
  {
    r := UsersService.Create(db, info, salt, clock, fx);
  }

  // ---- properties ----

  /** The projection is the requested fields in order, with no separator
      after the last; `*` when none was given. */
  lemma ProjectionShape(retrieved: Option<seq<string>>)
    ensures retrieved.None? ==> ProjectionText(retrieved) == "*"
    ensures retrieved.Some? && retrieved.value == [] ==> ProjectionText(retrieved) == ""
    ensures retrieved.Some? && retrieved.value != [] ==>
              var t := ProjectionText(retrieved);
              var f := retrieved.value[|retrieved.value| - 1];
              |t| >= |f| && t[|t| - |f|..] == f
  {
    if retrieved.Some? && retrieved.value != [] {
      JoinEndsWithLast(retrieved.value, ", ");
    }
  }

  /** With no `?` in field names and search keys, the SELECT has exactly one
      placeholder per parameter. */
  lemma SelectPlaceholders(search: Props, retrieved: Option<seq<string>>)
    requires retrieved.Some? ==> forall i :: 0 <= i < |retrieved.value| ==> UsersService.Plain(retrieved.value[i])
    requires forall i :: 0 <= i < |search| ==> UsersService.Plain(search[i].0)
    ensures Count(SelectText(search, retrieved), '?') == |Values(search)|
  {
    if retrieved.Some? {
      forall i | 0 <= i < |retrieved.value| ensures Count(retrieved.value[i], '?') == 0 {
        UsersService.PlainCount(retrieved.value[i]);
      }
      UsersService.PlainCount(", ");
      CountJoin(retrieved.value, ", ", '?', 0);
    }
    UsersService.WherePlaceholders(search);
    CountFramed("SELECT ", ProjectionText(retrieved), " FROM users", '?');
    CountAppend("SELECT " + ProjectionText(retrieved) + " FROM users", UsersService.WhereText(search), '?');
  }

  /** The UPDATE has one placeholder per updated key and one per search key. */
  lemma UpdatePlaceholders(updated: Props, search: Props)
    requires forall i :: 0 <= i < |updated| ==> UsersService.Plain(updated[i].0)
    requires forall i :: 0 <= i < |search| ==> UsersService.Plain(search[i].0)
    ensures Count(UpdateText(updated, search), '?') == |Values(updated) + Values(search)|
  {
    UsersService.UpdatePlaceholders(Keys(updated), search);
    assert UpdateText(updated, search) == UsersService.UpdateText(Keys(updated), search);
  }

  /** Rows come back exactly as the driver gave them; a failure is
      DATABASE_ERROR with `sqlState` as details when it is truthy. */
  lemma RetrievedMeaning(a: Answer)
    ensures !a.Failed? ==> Retrieved(a) == Ok(a)
    ensures a.Failed? ==> Retrieved(a).Throw? && Retrieved(a).thrown.Api? &&
                          Retrieved(a).thrown.e.error.code == DATABASE_ERROR &&
                          (Retrieved(a).thrown.e.error.details.Some? <==> Truthy(a.cause.sqlState))
  {
  }

  /** The older and the live `set` send the same text; the older one sends
      the update values untransformed where the live one hashes passwords
      and serialises tags. */
  lemma SetVersionsAgree(updated: Props, search: Props, salt: string, fx: Foreign)
    ensures UpdateText(updated, search) == UsersService.UpdateText(Keys(UsersService.Prepared(updated, salt, fx)), search)
    ensures (forall i :: 0 <= i < |updated| ==> updated[i].0 != "password" && updated[i].0 != "tags") ==>
              Values(UsersService.Prepared(updated, salt, fx)) == Values(updated)
  {
    UsersService.PreparedMeaning(updated, salt, fx);
  }
}
