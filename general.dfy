/**
 * services/general.js: the response envelope, the translation of anything a
 * handler catches into a status and a JSON body, and the two lookups of one
 * user by a pair of columns.
 */
module General {
  import opened Js
  import opened Errors
  import opened Database
  import opened UsersService

  /** The JSON bodies the API sends. */
  datatype Json =
    | Envelope(result: Value, error: Value)         // `{result, error}`
    | ErrorJson(body: ErrorBody)                    // an error object's `error` part
    | Unprocessable(errors: Value, message: string) // a failed validation

  /** `general.getJsonToResponse(result, error)`; an `undefined` argument
      takes its default, `{}` and `errors.OK`. */
  function GetJsonToResponse(result: Value, error: Value): Json
  {
    Envelope(if result.Undefined? then Obj([]) else result, if error.Undefined? then Num(OK) else error)
  }

  /** What `treatError` returns: `{status, json}`. */
  datatype Treated = Treated(status: Option<int>, json: Json)

  const ValidationMessage: string := "Please check the posted variables."

  /** `general.treatError(error)`: a validation result is 422 with its
      mapped errors; an error built by `getError` keeps its status and body;
      anything else is UNDEFINED_PROBLEM. */
  function TreatError(t: Thrown): Treated
  {
    match t
    case Invalid(mapped) => Treated(Some(422), Unprocessable(mapped, ValidationMessage))
    case Api(e) => Treated(e.status, ErrorJson(e.error))
    case _ =>
      var e := GetError(UNDEFINED_PROBLEM, Undefined);
      Treated(e.status, ErrorJson(e.error))
  }

  /** The user `getUserBy...` returns, given what `users.get` gave: the
      first row with `token_date_end` reformatted, NOT_FOUND for no row. A
      result that is not a row list has no first row, so reading its
      `token_date_end` is a TypeError. */
  function FoundUser(g: Result<Answer>, fx: Foreign): Result<Props>
  {
    match g
    case Throw(t) => Throw(t)
    case Ok(a) =>
      if !a.Rows? then Throw(Native("TypeError"))
      else if |a.rows| == 0 then Fail(NOT_FOUND)
      else
        var user := a.rows[0];
        Ok(With(user, "token_date_end", Str(fx.format(Lookup(user, "token_date_end")))))
  }

  /** The body shared by `getUserByIdAndTypeUser` and
      `getUserByKeyAndTypeUser`: secure a copy of `parameters` (by default
      the shared `users.availableFields`), select with it, and take the
      first row. `parameters` itself is not in the frame, so it is left
      unchanged. */
  method FindUser(db: Db, search: Props, parameters: StringList, fx: Foreign) returns (r: Result<Props>)
    modifies db
    ensures var fields := SecureToReturn(parameters.items);
            if AllAvailable(fields) then
              && db.log == old(db.log) + [Statement(SelectText(search, Some(fields)), Values(search))]
              && r == FoundUser(Retrieved(db.oracle(db.log), fx), fx)
            else
              db.log == old(db.log) && r == Throw(Native("ReferenceError"))
  {
    var fields := SecureCopy(parameters);
    if fields.Throw? {
      return Throw(fields.thrown);
    }
    var response := Get(db, search, Some(fields.value), fx);
    if response.Throw? {
      return Throw(response.thrown);
    }
    var result := response.value;
    if !result.Rows? {
      return Throw(Native("TypeError"));
    }
    if |result.rows| == 0 {
      return Fail(NOT_FOUND);
    }
    var user := result.rows[0];
    user := With(user, "token_date_end", Str(fx.format(Lookup(user, "token_date_end"))));
    r := Ok(user);
  }

  /** A fresh copy of a field list passed through
      `users.getSecureFieldsToReturn`; the list itself is left as it is. */
  method SecureCopy(parameters: StringList) returns (r: Result<seq<string>>)
    ensures r == if AllAvailable(SecureToReturn(parameters.items)) then Ok(SecureToReturn(parameters.items))
                 else Throw(Native("ReferenceError"))
  {
    var copy := new StringList(parameters.items);
    var secured := GetSecureFieldsToReturn(copy);
    r := if secured.Throw? then Throw(secured.thrown) else Ok(copy.items);
  }

  /** `general.getUserByIdAndTypeUser(db, id, typeUser, parameters)` */
  method GetUserByIdAndTypeUser(db: Db, id: Value, typeUser: Value, parameters: StringList, fx: Foreign)
    returns (r: Result<Props>)
    modifies db
    ensures var fields := SecureToReturn(parameters.items);
            if AllAvailable(fields) then
              && db.log == old(db.log) + [Statement(SelectText(ByIdAndType(id, typeUser), Some(fields)), [id, typeUser])]
              && r == FoundUser(Retrieved(db.oracle(db.log), fx), fx)
            else
              db.log == old(db.log) && r == Throw(Native("ReferenceError"))
  {
    ByIdAndTypeValues(id, typeUser);
    r := FindUser(db, ByIdAndType(id, typeUser), parameters, fx);
  }

  /** `general.getUserByKeyAndTypeUser(db, searchKey, typeUser, parameters)` */
  method GetUserByKeyAndTypeUser(db: Db, searchKey: Value, typeUser: Value, parameters: StringList, fx: Foreign)
    returns (r: Result<Props>)
    modifies db
    ensures var fields := SecureToReturn(parameters.items);
            if AllAvailable(fields) then
              && db.log == old(db.log) + [Statement(SelectText(ByKeyAndType(searchKey, typeUser), Some(fields)), [typeUser, searchKey])]
              && r == FoundUser(Retrieved(db.oracle(db.log), fx), fx)
            else
              db.log == old(db.log) && r == Throw(Native("ReferenceError"))
  {
    ByKeyAndTypeValues(searchKey, typeUser);
    r := FindUser(db, ByKeyAndType(searchKey, typeUser), parameters, fx);
  }

  /** The search map `{id, type_user}`. */
  function ByIdAndType(id: Value, typeUser: Value): Props
  {
    [("id", id), ("type_user", typeUser)]
  }

  /** The search map `{type_user, search_key}`. */
  function ByKeyAndType(searchKey: Value, typeUser: Value): Props
  {
    [("type_user", typeUser), ("search_key", searchKey)]
  }

  /** The parameters of the `{id, type_user}` search, in order. */
  lemma ByIdAndTypeValues(id: Value, typeUser: Value)
    ensures Values(ByIdAndType(id, typeUser)) == [id, typeUser]
  {
  }

  /** The parameters of the `{type_user, search_key}` search, in order. */
  lemma ByKeyAndTypeValues(searchKey: Value, typeUser: Value)
    ensures Values(ByKeyAndType(searchKey, typeUser)) == [typeUser, searchKey]
  {
  }

  // ---- properties ----

  /** The three branches of `treatError`. */
  lemma TreatErrorTable(t: Thrown)
    ensures t.Invalid? ==> TreatError(t) == Treated(Some(422), Unprocessable(t.mapped, "Please check the posted variables."))
    ensures t.Api? ==> TreatError(t) == Treated(t.e.status, ErrorJson(t.e.error))
    ensures !t.Invalid? && !t.Api? ==>
              TreatError(t) == Treated(Some(500), ErrorJson(ErrorBody(Some("Something went wrong."), None, UNDEFINED_PROBLEM)))
  {
  }

  /** Every error built from a known code reaches the client with that
      code's status and body, and so never as the validation's 422: the
      status tells a failed validation from every other error. */
  lemma ApiErrorsPassThrough(code: int, details: Value)
    requires OK <= code <= NOT_LOGGED_IN
    ensures TreatError(Api(GetError(code, details))).status == Status(code) != Some(422)
    ensures TreatError(Api(GetError(code, details))).json.ErrorJson?
    ensures TreatError(Api(GetError(code, details))).json.body.code == code
    ensures TreatError(Api(GetError(code, details))).json.body.message == Message(code)
  {
  }

  /** With no argument the envelope is `{result: {}, error: errors.OK}`. */
  lemma EnvelopeDefaults()
    ensures GetJsonToResponse(Undefined, Undefined) == Envelope(Obj([]), Num(OK))
  {
  }

  /** Defined arguments reach the envelope untouched, each in its own
      field. */
  lemma EnvelopePassesThrough(result: Value, error: Value)
    requires !result.Undefined? && !error.Undefined?
    ensures GetJsonToResponse(result, error) == Envelope(result, error)
  {
  }

  /** `treatError` never builds an envelope: a client that receives
      `{result, error}` received a success. */
  lemma TreatedIsNeverEnvelope(t: Thrown)
    ensures !TreatError(t).json.Envelope?
  {
  }

  /** The user found is the first row, with every column but
      `token_date_end` unchanged and `token_date_end` formatted; no row
      is NOT_FOUND. */
  lemma FoundUserMeaning(rows: seq<Props>, fx: Foreign, k: string)
    ensures FoundUser(Ok(Rows(rows)), fx).Ok? <==> |rows| > 0
    ensures |rows| == 0 ==> FoundUser(Ok(Rows(rows)), fx) == Fail(NOT_FOUND)
    ensures |rows| > 0 ==>
              Lookup(FoundUser(Ok(Rows(rows)), fx).value, k) ==
                if k == "token_date_end" then Str(fx.format(Lookup(rows[0], "token_date_end")))
                else Lookup(rows[0], k)
  {
    if |rows| > 0 {
      LookupWith(rows[0], "token_date_end", Str(fx.format(Lookup(rows[0], "token_date_end"))), k);
    }
  }

  /** As written, `verifyToken` rejects a token matching no row or several
      rows, or one whose only row has expired, with a ReferenceError, which
      reaches the client as 500 UNDEFINED_PROBLEM. */
  lemma RejectedTokenAsWritten(rows: seq<Props>, now: int, fx: Foreign)
    requires |rows| != 1 || IsAfter(now, Lookup(rows[0], "token_date_end"), fx)
    ensures var t := TokenCheck(Ok(Rows(rows)), now, fx, Native("ReferenceError"));
            t.Throw? && TreatError(t.thrown).status == Some(500) &&
            TreatError(t.thrown).json == ErrorJson(ErrorBody(Some("Something went wrong."), None, UNDEFINED_PROBLEM))
  {
  }

  /** With the intended NOT_LOGGED_IN, the same rejection reaches the client
      as 404 with code 6 and "Please log in again.". */
  lemma RejectedTokenCorrected(rows: seq<Props>, now: int, fx: Foreign)
    requires |rows| != 1 || IsAfter(now, Lookup(rows[0], "token_date_end"), fx)
    ensures var t := TokenCheck(Ok(Rows(rows)), now, fx, NotLoggedIn());
            t.Throw? && TreatError(t.thrown).status == Some(404) &&
            TreatError(t.thrown).json == ErrorJson(ErrorBody(Some("Please log in again."), None, NOT_LOGGED_IN))
  {
  }
}
