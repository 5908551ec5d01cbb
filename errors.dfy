/**
 * The API's error taxonomy: seven numeric codes, a message and an HTTP status
 * per code, and the error object `getError` builds from them. Also the other
 * things a `catch` block in the core can receive.
 */
module Errors {
  import opened Js

  const OK: int := 0
  const UNDEFINED_PROBLEM: int := 1
  const DUPLICATED_EMAIL: int := 2
  /** Carries the driver's `sqlState` as `details`. */
  const DATABASE_ERROR: int := 3
  const NOT_FOUND: int := 4
  const CONTACT_SUPPORT: int := 5
  const NOT_LOGGED_IN: int := 6

  /** `errors.messages[code]`; `None` stands for `undefined`. */
  function Message(code: int): Option<string>
  {
    if code == OK then Some("OK.")
    else if code == UNDEFINED_PROBLEM then Some("Something went wrong.")
    else if code == DUPLICATED_EMAIL then Some("Email already used.")
    else if code == DATABASE_ERROR then Some("There was a problem. Please try again later.")
    else if code == NOT_FOUND then Some("The entity was not found.")
    else if code == CONTACT_SUPPORT then Some("Please contact the support and explain what happened.")
    else if code == NOT_LOGGED_IN then Some("Please log in again.")
    else None
  }

  /** `errors.status[code]`; `None` stands for `undefined`. */
  function Status(code: int): Option<int>
  {
    if code == OK then Some(200)
    else if code == UNDEFINED_PROBLEM then Some(500)
    else if code == DUPLICATED_EMAIL then Some(409)
    else if code == DATABASE_ERROR then Some(500)
    else if code == NOT_FOUND then Some(404)
    else if code == CONTACT_SUPPORT then Some(500)
    else if code == NOT_LOGGED_IN then Some(404)
    else None
  }

  /** `error.error`: `{message, details?, code}`. */
  datatype ErrorBody = ErrorBody(message: Option<string>, details: Option<Value>, code: int)

  /** The object `getError` returns: `{error: ErrorBody, status}`. */
  datatype ApiError = ApiError(error: ErrorBody, status: Option<int>)

  /** `errors.getError(code, details)` */
  function GetError(code: int, details: Value): ApiError
  {
    ApiError(ErrorBody(Message(code), if Truthy(details) then Some(details) else None, code), Status(code))
  }

  /** The error object the MySQL driver rejects with. */
  datatype DbError = DbError(code: Value, errno: Value, sqlState: Value)

  /** What the core throws, and so what a handler's `catch` receives. */
  datatype Thrown =
    | Invalid(mapped: Value)   // express-validator's result; `mapped()` gives this value
    | Api(e: ApiError)         // an object built by getError
    | Driver(cause: DbError)   // a driver error passed on without re-classification
    | Native(name: string)     // a ReferenceError or TypeError raised by the runtime

  /** A call that returns a value or throws. */
  datatype Result<T> = Ok(value: T) | Throw(thrown: Thrown)

  /** `throw errors.getError(code)` */
  function Fail<T>(code: int): Result<T>
  {
    Throw(Api(GetError(code, Undefined)))
  }

  // ---- properties of the tables ----

  /** Exactly the seven codes 0 to 6 have a message and a status. */
  lemma KnownCodesHaveEntries(code: int)
    ensures Message(code).Some? <==> OK <= code <= NOT_LOGGED_IN
    ensures Status(code).Some? <==> OK <= code <= NOT_LOGGED_IN
  {
  }

  /** The seven codes are distinct. */
  lemma CodesDistinct()
    ensures var codes := [OK, UNDEFINED_PROBLEM, DUPLICATED_EMAIL, DATABASE_ERROR, NOT_FOUND, CONTACT_SUPPORT, NOT_LOGGED_IN];
            forall i, j :: 0 <= i < j < |codes| ==> codes[i] != codes[j]
  {
  }

  /** The HTTP status of each code. */
  lemma StatusTable()
    ensures Status(OK) == Some(200) && Status(UNDEFINED_PROBLEM) == Some(500)
    ensures Status(DUPLICATED_EMAIL) == Some(409) && Status(DATABASE_ERROR) == Some(500)
    ensures Status(NOT_FOUND) == Some(404) && Status(CONTACT_SUPPORT) == Some(500)
    ensures Status(NOT_LOGGED_IN) == Some(404)
  {
  }

  /** The built error carries the code, the code's message and status, and
      `details` exactly when the argument is truthy. */
  lemma GetErrorFields(code: int, details: Value)
    ensures GetError(code, details).error.code == code
    ensures GetError(code, details).error.message == Message(code)
    ensures GetError(code, details).status == Status(code)
    ensures GetError(code, details).error.details.Some? <==> Truthy(details)
    ensures GetError(code, details).error.details.Some? ==> GetError(code, details).error.details.value == details
  {
  }
}
