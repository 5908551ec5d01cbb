# User-record layer of the mentoring API, modelled in Dafny

This project models the layer of a Node.js/Express mentoring API that sits
between the HTTP handlers and MySQL:

- **Statement builders.** The live `users.get`, `users.set` and `users.create`
  (`services/users.js`) and their older versions (`entities/users.js`) turn a
  sparse field map into SQL text and a positional parameter list. The loops
  that append text and then slice off the last separator are `method`s, each
  proved against a specification function.
- **Allow-list filters.** `getSecureFieldsToSave`, `getSecureFieldsToReturn`
  and `removeExtraFields` edit an object or an array in place. The object is
  `Js.Record` and the array is `Js.StringList`; both are classes whose field the
  methods reassign.
- **Token rules.** `getDateEnd` (31 days ahead), the `verifyToken` acceptance
  test, and the renewal decision of the login handler.
- **Errors.** The error code, message and status tables, `getError`, and
  `general.treatError`, which maps whatever a handler catches to a status and
  a JSON body.
- **Search.** `searchByName`, `searchByTags`, the merge of their results and
  the collection of ids in `routes/search.js`.
- **Handlers.** The four `/users` handlers of `routes/users.js`, stepping a
  pooled connection through begin, the work, and commit and release, or
  through their own `catch` clean-up.

The database is an **oracle**: a function from a connection's whole history
of events (`Begin`, `Statement(text, params)`, `Commit`, `Rollback`,
`Release`) to the answer of the last one. Answers are rows, an OK packet, or
a driver error with `code`, `errno` and `sqlState`. `Database.Db` keeps the
history as its `log`, and each method appends to it. This makes every
handler deterministic without fixing what the database does.

Each handler is specified by a pure function of the inputs and the oracle:
`Search.SearchRun`, or `UsersRoutes.Transaction` over the handler's `…Steps`
function. The method proves that it leaves exactly that log on the
connection and sends exactly that reply. The properties are lemmas about the
pure functions.

JavaScript objects are ordered `seq<(string, Value)>` lists in `for…in`
order. bcrypt, md5, moment, `JSON.stringify`, `Buffer.toString` and
`toLowerCase` are uninterpreted functions in `Js.Foreign`. Instants are integer
milliseconds. The clock (`Date.now()`) and the current date (`getCurrentDate()`)
are parameters `clock` and `now`. The express-validator outcome is the
parameter `validation`, and `bcrypt.genSaltSync(10)` is the parameter `salt`.

On these points the model follows the code as written:

- **An array value in a search map** becomes ` id = ?` with the whole array
  as one parameter (`Search.SearchRunOutcome`). The mysql driver formats an
  array parameter as its elements separated by commas, so the follow-up of
  the search reads `id = 7` for one id, `id = 7, 9` for two and `id = ` for
  none. Only the first is valid SQL; with any other number of ids,
  duplicates included, the follow-up plausibly fails and the search replies
  500. This depends on the driver, which the model leaves to the oracle.
- **`users.get` without a field list selects `password`**. Its doc comment
  (services/users.js:102-103) promises every field except the password, and
  the comment above `availableFields` warns against sending it. But the code
  defaults to `availableFields`, and the line that would skip `password` is
  commented out (`UsersService.DefaultProjectionHasPassword`). No call of
  `users.get` in the modelled code uses the default: each passes a list, and
  the lists built from `availableFields` have `password` spliced out first
  (`UsersService.SecureAvailableFields`).
- **A live `users.get` with an empty field list** leaves its projection as
  `token, token_date_end, ` with the separator not trimmed
  (`UsersService.ProjectionTrimmed`).
- **PUT checks the token on the pool**, not on its transaction's connection
  (`routes/users.js:180`). The model keeps the two apart (`UsersRoutes.Update`).
- **GET and PUT read `type_user` from the row `verifyToken` returns**, but that
  row holds only `id`, `token` and `token_date_end`. The follow-up lookup
  therefore searches for an undefined `type_user`
  (`UsersRoutes.GetSearchesUndefinedType`). The mysql driver formats
  `undefined` as `NULL`, and `type_user = NULL` matches no row. So, as
  written and with a valid token, GET plausibly always replies NOT_FOUND
  (404). PUT's UPDATE matches no row, which `set` does not report, and its
  closing lookup then replies NOT_FOUND. This too
  depends on the driver and is left to the oracle.
- **GET and PUT reach the rejecting branch of `verifyToken`**, whose bare
  `getError` raises a ReferenceError (see "## Findings"). Their members take
  the rejection as a parameter `rejection`: `Native("ReferenceError")` is the
  code as written and replies 500 with code 1 to a token that matches no row
  (`UsersRoutes.GetWithRejectedToken`, `UsersRoutes.UpdateWithRejectedToken`);
  `NotLoggedIn()` is the intended version and replies 404 with code 6
  (`UsersRoutes.GetWithRejectedTokenCorrected`,
  `UsersRoutes.UpdateWithRejectedTokenCorrected`).
- **Search keys are used as given**: `users.get` and `users.set` put every
  key of the search map into the WHERE clause without checking it against
  an allow-list.

Files:

| file | module | models |
|---|---|---|
| `text.dfy` | `Text` | join, terminated lists, character count, split |
| `js.dfy` | `Js` | JavaScript values and objects, `Record`, `StringList`, foreign calls |
| `errors.dfy` | `Errors` | errors/errors.js |
| `database.dfy` | `Database` | the connection, the pool and the oracle |
| `services_users.dfy` | `UsersService` | services/users.js |
| `entities_users.dfy` | `UsersEntity` | entities/users.js |
| `general.dfy` | `General` | services/general.js |
| `search.dfy` | `Search` | routes/search.js |
| `users_routes.dfy` | `UsersRoutes` | routes/users.js |

## Model

| member | source | states |
|---|---|---|
| Errors.KnownCodesHaveEntries | errors/errors.js:10-43 | a code has a message, and has a status, exactly when it is one of 0 to 6 |
| Errors.CodesDistinct | errors/errors.js:10-19 | the seven error codes are pairwise distinct |
| Errors.StatusTable | errors/errors.js:36-43 | the fixed status of each code: 200, 500, 409, 500, 404, 500, 404 |
| Errors.GetErrorFields | errors/errors.js:58-65 | the built error carries the code, the code's message and the code's status; `details` is present exactly when the argument is truthy, and then holds that argument |
| Js.IndexOf | services/users.js:308-313 | `indexOf` is -1 exactly when the element is absent; otherwise it is the position of its first occurrence |
| Js.RemoveFirstCounts | services/users.js:308-313 | removing at the found index takes out one occurrence of the element and nothing else (as a multiset), and the length drops by 1 only when the element is present |
| Js.StringList.Splice | services/users.js:310-311 | `splice(i, 1)` removes the element at `i` and keeps the others in order |
| Js.LookupWith | services/general.js:35 | assigning one property sets it and leaves every other property's value unchanged |
| Text.SplitJoinRoundTrip | routes/search.js:15 | joining the terms of `split(" ")` back with a space gives the search string again |
| Text.SplitPiecesLackSeparator | routes/search.js:15 | no search term contains a space |
| UsersService.AvailableFieldsPlain | services/users.js:11-26 | no column name in the allow-list contains a placeholder |
| UsersService.AppendWhere | services/users.js:124-133 | the WHERE loop appends nothing for an empty search map, and otherwise ` WHERE` and one ` k = ?` per key joined by ` AND` with the last ` AND` trimmed; it appends the search values in key order to the parameters |
| UsersService.WhereShape | services/users.js:124-133 | an empty search map yields no WHERE clause, and any other one yields a clause starting ` WHERE` |
| UsersService.WherePlaceholders | services/users.js:124-133 | the WHERE clause has exactly one `?` per search key |
| UsersService.AppendProjection | services/users.js:113-123 | the projection loop appends the token columns and then one `IFNULL(f, "") as f` per field, in order, trimming the last `, ` |
| UsersService.DefaultProjectionHasPassword | services/users.js:115-119 | without a field list `users.get` selects `password` too, as `IFNULL(password, "") as password`; the skip that the file's own comments promise is commented out |
| UsersService.ProjectionTrimmed | services/users.js:113-123 | with no field requested the projection is `token, token_date_end, ` with nothing trimmed; otherwise it is the token columns and the coalesced fields joined by `, `, with no trailing separator |
| UsersService.BuildSelect | services/users.js:112-133 | the SELECT text is the projection (every available field when none is given), `FROM users` and the WHERE clause; its parameters are the search values in key order |
| UsersService.SelectShape | services/users.js:113-114 | every SELECT text starts with `SELECT ` and then `token, token_date_end, ` |
| UsersService.SelectPlaceholders | services/users.js:112-135 | with plain field and key names, the SELECT text has exactly as many `?` as there are parameters |
| UsersService.DecodeBuffers | services/users.js:136-149 | the nested loops replace every Buffer cell of every row by its decoded string and leave every other cell and every key as it was |
| UsersService.RetrievedMeaning | services/users.js:135-150 | `get` throws exactly when the query fails, and then throws DATABASE_ERROR with the driver's `sqlState` as details; on rows it returns the rows with their buffers decoded |
| UsersService.Get | services/users.js:112-152 | `get` sends one statement, the SELECT with the search values, and returns or throws what that answer means |
| UsersService.PreparedMeaning | services/users.js:176-185 | `set` keeps the update keys in order; it hashes a `password` value with the salt, JSON-encodes a `tags` value and leaves every other value unchanged |
| UsersService.BuildSet | services/users.js:174-186 | the SET loop writes the stored forms back into the update object in place, builds `UPDATE users SET ` and one `k = ?` per key with the last `, ` trimmed, and collects the stored values in key order |
| UsersService.UpdatePlaceholders | services/users.js:174-196 | the UPDATE text has one `?` per updated key and one per search key |
| UsersService.UpdatedMeaning | services/users.js:198-204 | `set` throws NOT_FOUND exactly when the answer has a non-zero `length`, and DATABASE_ERROR exactly when the query fails |
| UsersService.Set | services/users.js:173-205 | `set` sends the UPDATE with the stored update values followed by the search values, leaves the stored values in the update object, and returns or throws as `UpdatedMeaning` says |
| UsersService.DateEndIs31Days | services/users.js:267-271 | the expiry is 31 days (2678400000 ms) after a truthy timestamp, and 31 days after the clock otherwise |
| UsersService.InsertFailureClassification | services/users.js:74-81 | an insert failure yields DUPLICATED_EMAIL (409) exactly when `code === 'ER_DUP_ENTRY'` or `errno == 1062`, and UNDEFINED_PROBLEM (500) otherwise |
| UsersService.CreateEchoesInsert | services/users.js:56-72 | on success `create` returns the email and name it was given and the same token and expiry it inserted |
| UsersService.Create | services/users.js:46-84 | `create` sends exactly one INSERT with email, name, password hash, type, token and expiry, and returns or throws what that answer means |
| UsersService.TokenAcceptedIffSingleUnexpired | services/users.js:235-242 | a token is accepted exactly when one row matches and now is not after its `token_date_end`; the row is then returned, and any other case throws the rejection |
| UsersService.TokenExpiryBoundary | services/users.js:235-242 | a token that expired one second ago is rejected; a token that expires now or one second later is accepted |
| UsersService.CheckToken | services/users.js:235-242 | `verifyToken` sends one SELECT of `id`, `token` and `token_date_end` keyed by the token, then applies the acceptance test |
| UsersService.VerifyTokenAsWritten | services/users.js:235-242 | as written, the rejection raises a ReferenceError (bare `getError`) |
| UsersService.VerifyToken | services/users.js:235-242 | as intended, the rejection throws NOT_LOGGED_IN |
| UsersService.VerifyTokenWith | services/users.js:235-242 | `verifyToken` as written or as intended, chosen by the rejection the handler is given; one token SELECT and the acceptance test |
| UsersService.RemoveExtraFieldsFromObject | services/users.js:322-328 | the object branch deletes, in place, exactly the keys outside `availableFields` and keeps the others in order with their values |
| UsersService.GetSecureFieldsToSave | services/users.js:291-297 | returns the same object, now holding only its available, unprotected properties |
| UsersService.SecureToSaveMeaning | services/users.js:291-297 | a key survives exactly when it was present, is an available field and is none of `id`, `type_user`, `token`, `token_date_end`; a surviving key keeps its value |
| UsersService.RemoveExtraFieldsFromList | services/users.js:329-333 | the array branch succeeds exactly when every element is an available field; otherwise it raises a ReferenceError (undeclared `index`) |
| UsersService.GetSecureFieldsToReturn | services/users.js:308-313 | splices the first `id` and the first `password` out of the array in place, then returns it, or raises the allow-list's ReferenceError when an element is not available |
| UsersService.SecureToReturnMeaning | services/users.js:308-313 | exactly one occurrence of `id` and one of `password` are removed, and nothing else; with at most one of each neither is left; a list of available fields stays one |
| UsersService.SecureAvailableFields | services/users.js:11-26 | the full allow-list, secured for return, passes the allow-list check, holds neither `id` nor `password`, and is two shorter |
| UsersEntity.AppendFieldList | entities/users.js:94-99 | the older projection loop appends the fields joined by `, ` with no trailing separator |
| UsersEntity.ProjectionShape | entities/users.js:94-99 | an absent projection selects `*`, an empty one selects nothing, and any other one selects its fields joined by `, ` |
| UsersEntity.BuildSelect | entities/users.js:91-111 | the older SELECT text is the projection, `FROM users` and the same WHERE clause as the live version; its parameters are the search values in key order |
| UsersEntity.SelectPlaceholders | entities/users.js:91-111 | with plain names, the older SELECT has as many `?` as parameters |
| UsersEntity.RetrievedMeaning | entities/users.js:113-118 | the older `get` returns the answer untouched, and throws DATABASE_ERROR with `sqlState` exactly when the query fails |
| UsersEntity.Get | entities/users.js:91-120 | the older `get` sends one statement and returns as `RetrievedMeaning` says |
| UsersEntity.BuildSet | entities/users.js:144-162 | the older SET text is one `k = ?` per key joined by `, `; the parameters are the update values, untransformed, in key order |
| UsersEntity.UpdatePlaceholders | entities/users.js:141-162 | the older UPDATE has as many `?` as parameters |
| UsersEntity.Set | entities/users.js:141-171 | the older `set` sends the update values and then the search values, and throws NOT_FOUND exactly when the answer has a non-zero length |
| UsersEntity.SetVersionsAgree | entities/users.js:141-171 | both versions of `set` send the same text; they send the same parameters when no `password` or `tags` key is updated |
| UsersEntity.Create | entities/users.js:26-64 | the older `create` sends the same INSERT and answers as the live one |
| General.EnvelopeDefaults | services/general.js:10-15 | with both arguments undefined the envelope is `{result: {}, error: errors.OK}` |
| General.EnvelopePassesThrough | services/general.js:10-15 | defined arguments reach the envelope untouched, the result as `result` and the error as `error` |
| General.TreatedIsNeverEnvelope | services/general.js:69-90 | `treatError` never builds a `{result, error}` envelope, so only a success carries one |
| General.TreatErrorTable | services/general.js:69-90 | a validation result gives 422 with its `mapped()` and "Please check the posted variables."; an API error passes its own status and body through; anything else gives 500 UNDEFINED_PROBLEM |
| General.ApiErrorsPassThrough | services/general.js:80-82 | for every known code, the API error reaches the client with that code's status (never 422), code and message |
| General.FoundUserMeaning | services/general.js:32-36 | the lookup fails with NOT_FOUND exactly when no row matches; otherwise it returns the first row with `token_date_end` formatted and every other column unchanged |
| General.FindUser | services/general.js:28-37 | secures a copy of the field list (the caller's list is untouched), selects with it, and returns as `FoundUserMeaning` says, or raises the allow-list's ReferenceError without a query |
| General.SecureCopy | services/general.js:29-31 | a fresh copy of the field list passes `getSecureFieldsToReturn`: the result is the list without its first `id` and first `password` when that passes the allow-list, and the allow-list's ReferenceError otherwise; the caller's list is not changed |
| General.GetUserByIdAndTypeUser | services/general.js:28-37 | the lookup searched by `{id, type_user}` |
| General.GetUserByKeyAndTypeUser | services/general.js:50-59 | the lookup searched by `{type_user, search_key}` |
| General.RejectedTokenAsWritten | services/users.js:237-239 | as written, a token matching no row, several rows, or one expired row reaches the client as 500 with code 1 "Something went wrong." |
| General.RejectedTokenCorrected | services/users.js:237-239 | as intended, a token matching no row, several rows, or one expired row reaches the client as 404 with code 6 "Please log in again." |
| Search.SearchByName | routes/search.js:54-64 | sends the mentor query with one `users.name LIKE ?` per term joined by ` OR ` (the last one trimmed), with parameters `%` + lowercased term + `%` in term order |
| Search.NamePlaceholders | routes/search.js:58-62 | the name query has exactly one `?` per term and one parameter per term |
| Search.SearchByTags | routes/search.js:66-77 | lowercases the caller's array in place and sends the tag query with one `?` per term, comma-separated with the last comma trimmed, then `)`, with the lowercased terms as parameters |
| Search.TagPlaceholders | routes/search.js:69-75 | the tag query has exactly one `?` per term and one parameter per term |
| Search.TermsNonEmpty | routes/search.js:15-21 | a search string always splits into at least one term, so both statements receive at least one placeholder |
| Search.RowList.Put | routes/search.js:23 | assigning at the length appends; assigning below it overwrites that element only |
| Search.Merge | routes/search.js:22-23 | the name results array itself becomes the name rows followed by the tag rows, in order, with no de-duplication |
| Search.CollectIds | routes/search.js:29-35 | the id loop collects the ids of the merged rows that have one, in order, duplicates kept |
| Search.IdsOfMeaning | routes/search.js:29-35 | no more ids than rows; when every row has an id, exactly the rows' ids in order |
| Search.MergedIds | routes/search.js:22-35 | the ids of the merged rows are the ids of the name rows followed by those of the tag rows |
| Search.FoundIds | routes/search.js:22-35 | the ids sent in the follow-up are those of the name rows and then those of the tag rows; none when the name lookup did not return rows |
| Search.FetchFound | routes/search.js:36-42 | the follow-up lookup secures a copy of `availableFields` (the shared list is untouched) and selects with `{id: ids, type_user: 'mentor'}` |
| Search.FetchMentors | routes/search.js:40-42 | the follow-up sends one SELECT for `{id: ids, type_user: 'mentor'}` with the given projection, and replies 200 with the envelope of the decoded rows or with the treated error |
| Search.FetchRunOutcome | routes/search.js:36-42 | the last step replies 200 exactly when the field filter and the follow-up succeed, and then has sent one statement with parameters `[ids, 'mentor']`; every failure is 500 |
| Search.SearchUsers | routes/search.js:9-52 | the handler leaves exactly `SearchRun`'s statements on the pool and sends its reply |
| Search.SearchRunOutcome | routes/search.js:9-52 | a search replies 200 exactly when both queries, the field filter and the follow-up succeed, and then sends three statements, the last with parameters `[ids, 'mentor']`; every failure is 500 |
| UsersRoutes.Open | routes/users.js:36-38 | a failed validation throws its result before any connection is taken; otherwise a fresh connection or the pool's refusal |
| UsersRoutes.Abandon | routes/users.js:48-52 | each handler's `catch` clean-up: none (POST /), rollback and release (login, GET), awaited rollback and then release (PUT) |
| UsersRoutes.Settle | routes/users.js:94-95 | commit and then release on success; the `catch` clean-up when the work or the commit fails |
| UsersRoutes.TransactionLifecycle | routes/users.js:39-52 | a session succeeds exactly when begin, the work and commit succeed, and then leaves begin, commit, release on the connection; a failed POST / neither rolls back nor releases; login and GET roll back and release; PUT does too unless its awaited rollback fails; a failing work's error is the one replied |
| UsersRoutes.SuccessEnvelope | routes/users.js:96-97 | a handler's reply is an envelope exactly when it answers a success, and then carries the work's value (`{}` for undefined) and `errors.OK` under the success status |
| UsersRoutes.UpdateWithRejectedToken | routes/users.js:179-199 | as written, a token matching no row or several rows makes PUT send nothing on the connection, roll back, release and reply 500 with code 1 "Something went wrong." |
| UsersRoutes.UpdateWithRejectedTokenCorrected | routes/users.js:179-199 | with the intended NOT_LOGGED_IN, the same PUT replies 404 with code 6 "Please log in again." |
| UsersRoutes.CreateUser | routes/users.js:33-54 | POST / creates the user inside a transaction and replies 201, or replies with the treated error |
| UsersRoutes.LoginCheckMeaning | routes/users.js:78-86 | login throws NOT_FOUND exactly when no row matches or the first row's password fails; CONTACT_SUPPORT exactly when several rows match and the first one's password passes; otherwise it has the single row |
| UsersRoutes.CheckLogin | routes/users.js:78-88 | the handler's checks on the lookup decide as `LoginCheckMeaning` characterises: NOT_FOUND, CONTACT_SUPPORT, a TypeError when the answer is not a row list, or the single row |
| UsersRoutes.LoginStoresToken | routes/users.js:88-92 | the login UPDATE stores the token kept (not expired) or renewed by `getToken(id)` (expired), and the expiry 31 days after the handler's entry, keyed by the row's `{id, type_user}` |
| UsersRoutes.LoginWork | routes/users.js:78-93 | the login work sends the lookup, the token update and the user lookup, as `LoginSteps` says |
| UsersRoutes.Renew | routes/users.js:88-93 | the renewal and the closing lookup of the login work |
| UsersRoutes.Login | routes/users.js:70-116 | login computes the expiry on entry, does its work in a transaction and replies 200, or rolls back, releases and replies with the treated error |
| UsersRoutes.GetSearchesUndefinedType | routes/users.js:138-140 | the row GET's token check returns lacks `type_user`, so the follow-up lookup's type parameter is undefined |
| UsersRoutes.GetWork | routes/users.js:138-140 | GET verifies the token on its connection, throwing the given rejection for a token it does not accept, and looks the user up |
| UsersRoutes.GetByToken | routes/users.js:131-159 | GET does its work in a transaction and replies 200, or rolls back, releases and replies with the treated error; the rejection is a parameter, the ReferenceError as written |
| UsersRoutes.GetWithRejectedToken | routes/users.js:131-159 | as written, a token matching no row or several rows makes GET send the token lookup, roll back, release and reply 500 with code 1 "Something went wrong." |
| UsersRoutes.GetWithRejectedTokenCorrected | routes/users.js:131-159 | with the intended NOT_LOGGED_IN, the same GET replies 404 with code 6 "Please log in again." |
| UsersRoutes.UpdateSetsOnlySavable | routes/users.js:182-183 | after a valid token PUT updates exactly the body's available keys other than `id`, `type_user`, `token` and `token_date_end` |
| UsersRoutes.UpdateWork | routes/users.js:180-184 | PUT verifies the token on the pool, throwing the given rejection for a token it does not accept, secures the body in place and updates and looks up on its connection |
| UsersRoutes.Update | routes/users.js:173-203 | PUT does its work in a transaction and replies 200, or awaits the rollback, releases and replies with the treated error; once begin succeeds, `req.body` holds its secured keys with the password hashed if the token was accepted, and is untouched otherwise; the rejection is a parameter, the ReferenceError as written |

## Left out

- The SQL engine, the pool and the promisified connection: `database/database.js` is not part of this model. They are the oracle and `Database.Db`.
- bcrypt, md5, moment and `JSON.stringify` are uninterpreted (`Js.Foreign`). The expiry text uses the 12-hour `hh` pattern, so expiries are compared as instants (`Foreign.instant`), never as strings.
- `Date.now()` and `getCurrentDate()` (services/users.js:278-280) are parameters `clock` and `now`. This is a modelling choice: the model uses one reading per handler call, but the source reads `Date.now()` more than once. `create` reads it through `getDateEnd` (services/users.js:52, :268) and again through `getToken` (:54, :252, :268). Login reads it at routes/users.js:71 (`getDateEnd`), at :90 (`getCurrentDate`, services/users.js:279) and again through `getToken` (:91). Those readings may differ by the milliseconds between them. Beyond that, `now` can be far from the clock: `getCurrentDate()` formats `Date.now()` as a 12-hour UTC text without a marker for the half of the day, and `moment` parses it back as local time, so the instant compared can be off by up to twelve hours plus the zone offset. `now` is a free parameter, so no contract depends on it being close to `clock`.
- `verifyPassword` (services/users.js:223-225) is `Foreign.matches`, and `bcrypt.genSaltSync` is the `salt` parameter.
- express-validator is the `validation` parameter. HTTP rendering, `console.log` and async scheduling are left out; the model is sequential.
- The un-awaited `conn.rollback()` of login and GET is modelled as sent in order. Its promise's outcome is ignored, and an unhandled rejection it may cause is not modelled.
- The DELETE handler (routes/users.js:210-217) and `users.delete`/`users.login` do nothing and are not modelled.
- `getUserId`, `saveTokens` and `getTokens` (services/users.js:350-425), the mentors, profile and public routes, and `services/mentors.js` are outside this model.
- `hasOwnProperty` is always true for a key of a plain object; inherited enumerable properties are not modelled.
- UsersService.LooselyIs1062: JavaScript's `errno == 1062` is modelled as true for the number 1062 and the exact string `"1062"` only, not for other strings that convert to 1062 (such as `" 1062"`); the driver reports `errno` as a number.
- The older `getDateEnd` and `getToken` (entities/users.js:200-220) are identical to the live ones and share their model.
- UsersService.GetSecureFieldsToReturn: the allow-list failure of `removeExtraFields`' array branch is modelled as a ReferenceError path rather than a precondition; `SecureAvailableFields` shows that the default list never takes it.

## Findings

| source | as written | input that shows it | evidently intended | confidence | as-written member | corrected member |
|---|---|---|---|---|---|---|
| services/users.js:239 | the rejection calls a bare `getError`, which is not declared in the file, so it raises a ReferenceError and the client gets 500 UNDEFINED_PROBLEM | any token matching no row (zero rows) | `throw errors.getError(errors.NOT_LOGGED_IN)`: 404 "Please log in again." | high; not executed | UsersService.VerifyTokenAsWritten, General.RejectedTokenAsWritten, UsersRoutes.GetWithRejectedToken, UsersRoutes.UpdateWithRejectedToken | UsersService.VerifyToken, General.RejectedTokenCorrected, UsersRoutes.GetWithRejectedTokenCorrected, UsersRoutes.UpdateWithRejectedTokenCorrected |
