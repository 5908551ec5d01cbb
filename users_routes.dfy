/**
 * routes/users.js: the four `/users` handlers. Each takes a connection from
 * the pool, opens a transaction, does its work, and either commits and
 * releases the connection or, on any error, cleans up in its own way and
 * replies with what `treatError` makes of the error.
 */
module UsersRoutes {
  import opened Js
  import opened Errors
  import opened Database
  import opened UsersService
  import opened General

  /** What the client receives: a status and a body, or nothing at all when
      the handler itself rejects. */
  datatype Reply = Sent(status: Option<int>, json: Json) | Unanswered

  function Answered(t: Treated): Reply
  {
    Sent(t.status, t.json)
  }

  /** The statements a handler's work sends on the connection, and what the
      work returns or throws. */
  datatype Steps = Steps(events: seq<Event>, result: Result<Value>)

  predicate OnlyStatements(events: seq<Event>)
  {
    forall i :: 0 <= i < |events| ==> events[i].Statement?
  }

  function Then(prefix: seq<Event>, s: Steps): Steps
  {
    Steps(prefix + s.events, s.result)
  }

  // ---- the transaction skeleton ----

  /** What a handler's `catch` does with the connection it holds. */
  datatype Cleanup =
    | NoCleanup                  // POST /: leaves the connection as it is
    | RollbackThenRelease        // login, GET: `conn.rollback()` not awaited, then release
    | AwaitRollbackThenRelease   // PUT: `await conn.rollback()`, then release

  /** The connection's whole history, the outcome, and whether a reply is
      sent. */
  datatype Session = Session(log: seq<Event>, outcome: Result<Value>, answered: bool)

  /** The `catch` block, entered with error `t` after history `log`. An
      awaited rollback that rejects throws out of the `catch`: no release and
      no reply. */
  function Abandoned(oracle: Oracle, log: seq<Event>, t: Thrown, cleanup: Cleanup): Session
  {
    match cleanup
    case NoCleanup => Session(log, Throw(t), true)
    case RollbackThenRelease => Session(log + [Rollback, Release], Throw(t), true)
    case AwaitRollbackThenRelease =>
      var rollback := oracle(log + [Rollback]);
      if rollback.Failed? then Session(log + [Rollback], Throw(Driver(rollback.cause)), false)
      else Session(log + [Rollback, Release], Throw(t), true)
  }

  /** After the work: commit and release, or clean up. */
  function Settled(oracle: Oracle, log: seq<Event>, result: Result<Value>, cleanup: Cleanup): Session
  {
    if result.Throw? then Abandoned(oracle, log, result.thrown, cleanup)
    else
      var commit := oracle(log + [Commit]);
      if commit.Failed? then Abandoned(oracle, log + [Commit], Driver(commit.cause), cleanup)
      else Session(log + [Commit, Release], result, true)
  }

  /** A fresh connection's session: begin, the work, then `Settled`. */
  function Transaction(oracle: Oracle, work: Steps, cleanup: Cleanup): Session
  {
    var begin := oracle([Begin]);
    if begin.Failed? then Abandoned(oracle, [Begin], Driver(begin.cause), cleanup)
    else Settled(oracle, [Begin] + work.events, work.result, cleanup)
  }

  /** The reply for an outcome; `status` is the handler's success status. */
  function ReplyOf(outcome: Result<Value>, answered: bool, status: int): Reply
  {
    if !answered then Unanswered
    else if outcome.Throw? then Answered(TreatError(outcome.thrown))
    else Sent(Some(status), GetJsonToResponse(outcome.value, Num(OK)))
  }

  /** A handler's reply is an envelope exactly when it answers a success;
      the envelope then carries the work's value (`{}` for undefined) and
      `errors.OK`, under the handler's success status. */
  lemma SuccessEnvelope(outcome: Result<Value>, answered: bool, status: int)
    ensures var reply := ReplyOf(outcome, answered, status);
            reply.Sent? && reply.json.Envelope? <==> answered && outcome.Ok?
    ensures answered && outcome.Ok? ==>
              ReplyOf(outcome, answered, status) ==
              Sent(Some(status), Envelope(if outcome.value.Undefined? then Obj([]) else outcome.value, Num(OK)))
  {
    if answered && outcome.Throw? {
      TreatedIsNeverEnvelope(outcome.thrown);
    }
  }

  /** `validationResult(req).throw()` and `await db.createConnection()`. */
  method Open(pool: Pool, validation: Option<Value>) returns (r: Result<Db>)
    ensures validation.Some? ==> r == Throw(Invalid(validation.value))
    ensures validation.None? ==> (r.Ok? <==> pool.refusal.None?)
    ensures validation.None? && r.Throw? ==> r.thrown == Driver(pool.refusal.value)
    ensures r.Ok? ==> fresh(r.value) && r.value.log == [] && r.value.oracle == pool.connections
  {
    if validation.Some? {
      return Throw(Invalid(validation.value));
    }
    r := pool.CreateConnection();
  }

  /** The `catch` block's handling of the connection. */
  method Abandon(conn: Db, t: Thrown, cleanup: Cleanup) returns (outcome: Result<Value>, answered: bool)
    modifies conn
    ensures var s := Abandoned(conn.oracle, old(conn.log), t, cleanup);
            conn.log == s.log && outcome == s.outcome && answered == s.answered
  {
    match cleanup
    case NoCleanup =>
      outcome, answered := Throw(t), true;
    case RollbackThenRelease =>
      var ignored := conn.RollbackTransaction();
      conn.ReleaseConnection();
      outcome, answered := Throw(t), true;
    case AwaitRollbackThenRelease =>
      var failure := conn.RollbackTransaction();
      if failure.Some? {
        return Throw(Driver(failure.value)), false;
      }
      conn.ReleaseConnection();
      outcome, answered := Throw(t), true;
  }

  /** `await conn.commit(); conn.release();`, or the `catch` block. */
  method Settle(conn: Db, result: Result<Value>, cleanup: Cleanup) returns (outcome: Result<Value>, answered: bool)
    modifies conn
    ensures var s := Settled(conn.oracle, old(conn.log), result, cleanup);
            conn.log == s.log && outcome == s.outcome && answered == s.answered
  {
    if result.Throw? {
      outcome, answered := Abandon(conn, result.thrown, cleanup);
      return;
    }
    var failure := conn.CommitTransaction();
    if failure.Some? {
      outcome, answered := Abandon(conn, Driver(failure.value), cleanup);
      return;
    }
    conn.ReleaseConnection();
    outcome, answered := result, true;
  }

  // ---- the user lookup every handler ends with ----

  /** `general.getUserByIdAndTypeUser(conn, id, typeUser)` as seen from
      the handler, after history `h`. */
  function FindSteps(h: seq<Event>, key: Props, fields: seq<string>, oracle: Oracle, fx: Foreign): (s: Steps)
    ensures OnlyStatements(s.events)
  {
    var projection := SecureToReturn(fields);
    if !AllAvailable(projection) then Steps([], Throw(Native("ReferenceError")))
    else
      var e := Statement(SelectText(key, Some(projection)), Values(key));
      var u := FoundUser(Retrieved(oracle(h + [e]), fx), fx);
      Steps([e], if u.Throw? then Throw(u.thrown) else Ok(Obj(u.value)))
  }

  method FindUserValue(conn: Db, id: Value, typeUser: Value, available: StringList, fx: Foreign)
    returns (r: Result<Value>)
    modifies conn
    ensures var s := FindSteps(old(conn.log), ByIdAndType(id, typeUser), available.items, conn.oracle, fx);
            conn.log == old(conn.log) + s.events && r == s.result
  {
    ByIdAndTypeValues(id, typeUser);
    var user := GetUserByIdAndTypeUser(conn, id, typeUser, available, fx);
    if user.Throw? {
      return Throw(user.thrown);
    }
    r := Ok(Obj(user.value));
  }

  // ---- POST / ----

  function CreateSteps(h: seq<Event>, body: Props, salt: string, clock: int, oracle: Oracle, fx: Foreign): (s: Steps)
    ensures OnlyStatements(s.events)
  {
    var e := Statement(InsertText, InsertParams(body, salt, clock, fx));
    Steps([e], Created(oracle(h + [e]), body, salt, clock, fx))
  }

  /** `POST /users`: sign up. On failure the connection is neither rolled
      back nor released. */
  method CreateUser(pool: Pool, validation: Option<Value>, body: Props, salt: string, clock: int, fx: Foreign)
    returns (reply: Reply, ghost conn: Option<Db>)
    ensures conn.None? <==> validation.Some? || pool.refusal.Some?
    ensures validation.Some? ==> reply == Answered(TreatError(Invalid(validation.value)))
    ensures validation.None? && pool.refusal.Some? ==> reply == Answered(TreatError(Driver(pool.refusal.value)))
    ensures conn.Some? ==>
              var s := Transaction(pool.connections, CreateSteps([Begin], body, salt, clock, pool.connections, fx), NoCleanup);
              fresh(conn.value) && conn.value.log == s.log && reply == ReplyOf(s.outcome, s.answered, 201)
  {
    var acquired := Open(pool, validation);
    if acquired.Throw? {
      return Answered(TreatError(acquired.thrown)), None;
    }
    var c := acquired.value;
    conn := Some(c);
    var outcome, answered;
    var failure := c.BeginTransaction();
    assert c.log == [Begin];
    if failure.Some? {
      outcome, answered := Abandon(c, Driver(failure.value), NoCleanup);
    } else {
      var response := UsersService.Create(c, body, salt, clock, fx);
      outcome, answered := Settle(c, response, NoCleanup);
    }
    reply := ReplyOf(outcome, answered, 201);
  }

  // ---- POST /login ----

  const LoginProjection: seq<string> := ["id", "password", "type_user", "token", "token_date_end"]

  /** The login decision: NOT_FOUND when no row matches the email or the
      first row's password does not verify, checked first; CONTACT_SUPPORT
      when more rows than one match. An OK packet has no first row, so
      reading its password is a TypeError. */
  function LoginCheck(g: Result<Answer>, password: Value, fx: Foreign): Result<Props>
  {
    match g
    case Throw(t) => Throw(t)
    case Ok(a) =>
      if !a.Rows? then Throw(Native("TypeError"))
      else if |a.rows| == 0 || !fx.matches(password, Lookup(a.rows[0], "password")) then Fail(NOT_FOUND)
      else if |a.rows| > 1 then Fail(CONTACT_SUPPORT)
      else Ok(a.rows[0])
  }

  /** The user's token, replaced by a fresh one when it has expired at
      `now`. */
  function RenewedToken(row: Props, now: int, clock: int, fx: Foreign): Value
  {
    if IsAfter(now, Lookup(row, "token_date_end"), fx) then Str(GetToken(Lookup(row, "id"), clock, fx))
    else Lookup(row, "token")
  }

  /** `{token, token_date_end: dateEnd}` */
  function TokenUpdates(row: Props, dateEnd: string, now: int, clock: int, fx: Foreign): Props
  {
    [("token", RenewedToken(row, now, clock, fx)), ("token_date_end", Str(dateEnd))]
  }

  function LoginSearch(body: Props): Props
  {
    [("email", Lookup(body, "email")), ("type_user", Lookup(body, "type_user"))]
  }

  function LoginSteps(h: seq<Event>, body: Props, dateEnd: string, now: int, clock: int, salt: string,
                      fields: seq<string>, oracle: Oracle, fx: Foreign): (s: Steps)
    ensures OnlyStatements(s.events)
  {
    var e := Statement(SelectText(LoginSearch(body), Some(LoginProjection)), Values(LoginSearch(body)));
    var check := LoginCheck(Retrieved(oracle(h + [e]), fx), Lookup(body, "password"), fx);
    if check.Throw? then Steps([e], Throw(check.thrown))
    else Then([e], RenewSteps(h + [e], check.value, dateEnd, now, clock, salt, fields, oracle, fx))
  }

  /** Once the user is found: store the (possibly renewed) token with the
      new expiry, then look the user up. */
  function RenewSteps(h: seq<Event>, row: Props, dateEnd: string, now: int, clock: int, salt: string,
                      fields: seq<string>, oracle: Oracle, fx: Foreign): (s: Steps)
    ensures OnlyStatements(s.events)
  {
    var key := ByIdAndType(Lookup(row, "id"), Lookup(row, "type_user"));
    var updates := TokenUpdates(row, dateEnd, now, clock, fx);
    var e := Statement(UpdateText(Keys(updates), key), Values(Prepared(updates, salt, fx)) + Values(key));
    var u := Updated(oracle(h + [e]));
    if u.Throw? then Steps([e], Throw(u.thrown))
    else Then([e], FindSteps(h + [e], key, fields, oracle, fx))
  }

  /** The body of the login `try` between `beginTransaction` and `commit`. */
  method LoginWork(conn: Db, body: Props, dateEnd: string, now: int, clock: int, salt: string,
                   available: StringList, fx: Foreign) returns (r: Result<Value>)
    modifies conn
    ensures var s := LoginSteps(old(conn.log), body, dateEnd, now, clock, salt, available.items, conn.oracle, fx);
            conn.log == old(conn.log) + s.events && r == s.result
  {
    ghost var h := conn.log;
    var response := Get(conn, LoginSearch(body), Some(LoginProjection), fx);
    var user := CheckLogin(response, Lookup(body, "password"), fx);
    if user.Throw? {
      return Throw(user.thrown);
    }
    ghost var e := Statement(SelectText(LoginSearch(body), Some(LoginProjection)), Values(LoginSearch(body)));
    assert conn.log == h + [e];
    r := Renew(conn, user.value, dateEnd, now, clock, salt, available, fx);
    LogAppend(h, [e], RenewSteps(h + [e], user.value, dateEnd, now, clock, salt, available.items, conn.oracle, fx).events);
  }

  /** The checks of the login `try` on what `users.get` returned. */
  method CheckLogin(response: Result<Answer>, password: Value, fx: Foreign) returns (r: Result<Props>)
    ensures r == LoginCheck(response, password, fx)
  {
    if response.Throw? {
      return Throw(response.thrown);
    }
    var result := response.value;
    if !result.Rows? {
      return Throw(Native("TypeError"));
    }
    if |result.rows| == 0 || !fx.matches(password, Lookup(result.rows[0], "password")) {
      return Fail(NOT_FOUND);
    } else if |result.rows| > 1 {
      return Fail(CONTACT_SUPPORT);
    }
    r := Ok(result.rows[0]);
  }

  method Renew(conn: Db, row: Props, dateEnd: string, now: int, clock: int, salt: string,
               available: StringList, fx: Foreign) returns (r: Result<Value>)
    modifies conn
    ensures var s := RenewSteps(old(conn.log), row, dateEnd, now, clock, salt, available.items, conn.oracle, fx);
            conn.log == old(conn.log) + s.events && r == s.result
  {
    var token := Lookup(row, "token");
    var date := now;
    if IsAfter(date, Lookup(row, "token_date_end"), fx) {
      token := Str(GetToken(Lookup(row, "id"), clock, fx));
    }
    ghost var h := conn.log;
    var updated := new Record([("token", token), ("token_date_end", Str(dateEnd))]);
    ghost var updates := TokenUpdates(row, dateEnd, now, clock, fx);
    assert updated.props == updates;
    var key := ByIdAndType(Lookup(row, "id"), Lookup(row, "type_user"));
    var stored := Set(conn, key, updated, salt, fx);
    ghost var e := Statement(UpdateText(Keys(updates), key), Values(Prepared(updates, salt, fx)) + Values(key));
    assert conn.log == h + [e];
    if stored.Throw? {
      return Throw(stored.thrown);
    }
    r := FindUserValue(conn, Lookup(row, "id"), Lookup(row, "type_user"), available, fx);
    LogAppend(h, [e], FindSteps(h + [e], key, available.items, conn.oracle, fx).events);
  }

  /** `POST /users/login`; `dateEnd` is computed on entry, before the
      `try`. */
  method Login(pool: Pool, validation: Option<Value>, body: Props, now: int, clock: int, salt: string,
               available: StringList, fx: Foreign) returns (reply: Reply, ghost conn: Option<Db>)
    ensures conn.None? <==> validation.Some? || pool.refusal.Some?
    ensures validation.Some? ==> reply == Answered(TreatError(Invalid(validation.value)))
    ensures validation.None? && pool.refusal.Some? ==> reply == Answered(TreatError(Driver(pool.refusal.value)))
    ensures conn.Some? ==>
              var work := LoginSteps([Begin], body, DateEndText(None, clock, fx), now, clock, salt,
                                     available.items, pool.connections, fx);
              var s := Transaction(pool.connections, work, RollbackThenRelease);
              fresh(conn.value) && conn.value.log == s.log && reply == ReplyOf(s.outcome, s.answered, 200)
  {
    var dateEnd := DateEndText(None, clock, fx);
    var acquired := Open(pool, validation);
    if acquired.Throw? {
      return Answered(TreatError(acquired.thrown)), None;
    }
    var c := acquired.value;
    conn := Some(c);
    var outcome, answered;
    var failure := c.BeginTransaction();
    assert c.log == [Begin];
    if failure.Some? {
      outcome, answered := Abandon(c, Driver(failure.value), RollbackThenRelease);
    } else {
      var user := LoginWork(c, body, dateEnd, now, clock, salt, available, fx);
      outcome, answered := Settle(c, user, RollbackThenRelease);
    }
    reply := ReplyOf(outcome, answered, 200);
  }

  // ---- GET /:token ----

  function TokenStatement(token: Value): Event
  {
    Statement(SelectText([("token", token)], Some(TokenProjection)), [token])
  }

  /** The work of GET after history `h`: check the token, whose rejection
      throws `rejection`, then look the user up. */
  function GetSteps(h: seq<Event>, token: Value, now: int, fields: seq<string>, oracle: Oracle, fx: Foreign,
                    rejection: Thrown): (s: Steps)
    ensures OnlyStatements(s.events)
  {
    var e := TokenStatement(token);
    var t := TokenCheck(Retrieved(oracle(h + [e]), fx), now, fx, rejection);
    if t.Throw? then Steps([e], Throw(t.thrown))
    else
      var found := FindSteps(h + [e], ByIdAndType(Lookup(t.value, "id"), Lookup(t.value, "type_user")), fields, oracle, fx);
      ThenKeepsStatements(e, found);
      Then([e], found)
  }

  lemma ThenKeepsStatements(e: Event, s: Steps)
    requires e.Statement? && OnlyStatements(s.events)
    ensures OnlyStatements(Then([e], s).events)
  {
    assert Then([e], s).events == [e] + s.events;
  }

  method GetWork(conn: Db, token: Value, now: int, available: StringList, fx: Foreign, rejection: Thrown)
    returns (r: Result<Value>)
    requires TokenRejection(rejection)
    modifies conn
    ensures var s := GetSteps(old(conn.log), token, now, available.items, conn.oracle, fx, rejection);
            conn.log == old(conn.log) + s.events && r == s.result
  {
    ghost var h := conn.log;
    var result := VerifyTokenWith(conn, token, now, fx, rejection);
    if result.Throw? {
      return Throw(result.thrown);
    }
    var id, typeUser := Lookup(result.value, "id"), Lookup(result.value, "type_user");
    r := FindUserValue(conn, id, typeUser, available, fx);
    ghost var e := TokenStatement(token);
    LogAppend(h, [e], FindSteps(h + [e], ByIdAndType(id, typeUser), available.items, conn.oracle, fx).events);
  }

  /** `GET /users/:token`; `rejection` is what `verifyToken` throws for a
      token it does not accept: `Native("ReferenceError")` as written. */
  method GetByToken(pool: Pool, validation: Option<Value>, token: Value, now: int, available: StringList,
                    fx: Foreign, rejection: Thrown)
    returns (reply: Reply, ghost conn: Option<Db>)
    requires TokenRejection(rejection)
    ensures conn.None? <==> validation.Some? || pool.refusal.Some?
    ensures validation.Some? ==> reply == Answered(TreatError(Invalid(validation.value)))
    ensures validation.None? && pool.refusal.Some? ==> reply == Answered(TreatError(Driver(pool.refusal.value)))
    ensures conn.Some? ==>
              var work := GetSteps([Begin], token, now, available.items, pool.connections, fx, rejection);
              var s := Transaction(pool.connections, work, RollbackThenRelease);
              fresh(conn.value) && conn.value.log == s.log && reply == ReplyOf(s.outcome, s.answered, 200)
  {
    var acquired := Open(pool, validation);
    if acquired.Throw? {
      return Answered(TreatError(acquired.thrown)), None;
    }
    var c := acquired.value;
    conn := Some(c);
    var outcome, answered;
    var failure := c.BeginTransaction();
    assert c.log == [Begin];
    if failure.Some? {
      outcome, answered := Abandon(c, Driver(failure.value), RollbackThenRelease);
    } else {
      var user := GetWork(c, token, now, available, fx, rejection);
      outcome, answered := Settle(c, user, RollbackThenRelease);
    }
    reply := ReplyOf(outcome, answered, 200);
  }

  // ---- PUT /:token ----

  /** The work on the connection once the token has been checked (on the
      pool): update the secured body, then look the user up. */
  function UpdateSteps(h: seq<Event>, verified: Result<Props>, body: Props, salt: string,
                       fields: seq<string>, oracle: Oracle, fx: Foreign): (s: Steps)
    ensures OnlyStatements(s.events)
  {
    if verified.Throw? then Steps([], Throw(verified.thrown))
    else
      var key := ByIdAndType(Lookup(verified.value, "id"), Lookup(verified.value, "type_user"));
      var toSet := SecureToSave(body);
      var e := Statement(UpdateText(Keys(toSet), key), Values(Prepared(toSet, salt, fx)) + Values(key));
      var u := Updated(oracle(h + [e]));
      if u.Throw? then Steps([e], Throw(u.thrown))
      else Then([e], FindSteps(h + [e], key, fields, oracle, fx))
  }

  /** The token check made on the pool after its history `h`, whose
      rejection throws `rejection`. */
  function Verified(h: seq<Event>, oracle: Oracle, token: Value, now: int, fx: Foreign, rejection: Thrown): Result<Props>
  {
    TokenCheck(Retrieved(oracle(h + [TokenStatement(token)]), fx), now, fx, rejection)
  }

  method UpdateWork(db: Db, conn: Db, token: Value, body: Record, now: int, salt: string,
                    available: StringList, fx: Foreign, rejection: Thrown) returns (r: Result<Value>)
    requires TokenRejection(rejection)
    requires db != conn && DistinctKeys(body.props)
    modifies db, conn, body
    ensures db.log == old(db.log) + [TokenStatement(token)]
    ensures var verified := Verified(old(db.log), db.oracle, token, now, fx, rejection);
            var s := UpdateSteps(old(conn.log), verified, old(body.props), salt, available.items, conn.oracle, fx);
            conn.log == old(conn.log) + s.events && r == s.result
    ensures body.props == if Verified(old(db.log), db.oracle, token, now, fx, rejection).Ok?
                          then Prepared(SecureToSave(old(body.props)), salt, fx)
                          else old(body.props)
  {
    var result := VerifyTokenWith(db, token, now, fx, rejection);
    if result.Throw? {
      return Throw(result.thrown);
    }
    ghost var h := conn.log;
    var id, typeUser := Lookup(result.value, "id"), Lookup(result.value, "type_user");
    var key := ByIdAndType(id, typeUser);
    var toSet := GetSecureFieldsToSave(body);
    ghost var saved := toSet.props;
    var stored := Set(conn, key, toSet, salt, fx);
    ghost var e := Statement(UpdateText(Keys(saved), key), Values(Prepared(saved, salt, fx)) + Values(key));
    assert conn.log == h + [e];
    if stored.Throw? {
      return Throw(stored.thrown);
    }
    r := FindUserValue(conn, id, typeUser, available, fx);
    LogAppend(h, [e], FindSteps(h + [e], key, available.items, conn.oracle, fx).events);
  }

  /** `PUT /users/:token`. The token is checked on the pool, outside the
      transaction; the `catch` awaits the rollback. `rejection` is what
      `verifyToken` throws for a token it does not accept:
      `Native("ReferenceError")` as written. */
  method Update(pool: Pool, validation: Option<Value>, token: Value, body: Record, now: int, salt: string,
                available: StringList, fx: Foreign, rejection: Thrown) returns (reply: Reply, ghost conn: Option<Db>)
    requires TokenRejection(rejection)
    requires DistinctKeys(body.props)
    modifies pool.direct, body
    ensures conn.None? <==> validation.Some? || pool.refusal.Some?
    ensures validation.Some? ==> reply == Answered(TreatError(Invalid(validation.value)))
    ensures validation.None? && pool.refusal.Some? ==> reply == Answered(TreatError(Driver(pool.refusal.value)))
    ensures conn.None? || pool.connections([Begin]).Failed? ==> unchanged(pool.direct) && unchanged(body)
    ensures conn.Some? && !pool.connections([Begin]).Failed? ==>
              pool.direct.log == old(pool.direct.log) + [TokenStatement(token)]
    ensures conn.Some? && !pool.connections([Begin]).Failed? ==>
              body.props == if Verified(old(pool.direct.log), pool.direct.oracle, token, now, fx, rejection).Ok?
                            then Prepared(SecureToSave(old(body.props)), salt, fx)
                            else old(body.props)
    ensures conn.Some? ==>
              var verified := Verified(old(pool.direct.log), pool.direct.oracle, token, now, fx, rejection);
              var work := UpdateSteps([Begin], verified, old(body.props), salt, available.items, pool.connections, fx);
              var s := Transaction(pool.connections, work, AwaitRollbackThenRelease);
              fresh(conn.value) && conn.value.log == s.log && reply == ReplyOf(s.outcome, s.answered, 200)
  {
    var acquired := Open(pool, validation);
    if acquired.Throw? {
      return Answered(TreatError(acquired.thrown)), None;
    }
    var c := acquired.value;
    conn := Some(c);
    var outcome, answered;
    var failure := c.BeginTransaction();
    assert c.log == [Begin];
    if failure.Some? {
      outcome, answered := Abandon(c, Driver(failure.value), AwaitRollbackThenRelease);
    } else {
      var user := UpdateWork(pool.direct, c, token, body, now, salt, available, fx, rejection);
      outcome, answered := Settle(c, user, AwaitRollbackThenRelease);
    }
    reply := ReplyOf(outcome, answered, 200);
  }

  // ---- properties ----

  lemma LifecycleOfBegin()
    ensures Lifecycle([Begin]) == [Begin]
  {
    LifecycleSnoc([], Begin);
    assert [] + [Begin] == [Begin];
  }

  /** The lifecycle after begin, some statements and then the given
      transaction events. */
  lemma LifecycleAfterWork(events: seq<Event>, tail: seq<Event>)
    requires OnlyStatements(events)
    requires forall i :: 0 <= i < |tail| ==> !tail[i].Statement?
    ensures Lifecycle([Begin] + events + tail) == [Begin] + tail
  {
    LifecycleOfBegin();
    LifecycleStatements([Begin], events);
    TransactionEvents([Begin] + events, tail);
  }

  lemma {:induction false} TransactionEvents(log: seq<Event>, tail: seq<Event>)
    requires forall i :: 0 <= i < |tail| ==> !tail[i].Statement?
    ensures Lifecycle(log + tail) == Lifecycle(log) + tail
  {
    if tail != [] {
      var init, last := tail[..|tail| - 1], tail[|tail| - 1];
      TransactionEvents(log, init);
      FrontThenLast(tail);
      LogAppend(log, init, [last]);
      LifecycleSnoc(log + init, last);
      LogAppend(Lifecycle(log), init, [last]);
    } else {
      assert log + tail == log;
    }
  }

  /** The `catch` block adds a rollback and a release, a rollback alone
      when an awaited rollback fails, or nothing, to the lifecycle. */
  lemma AbandonedLifecycle(oracle: Oracle, log: seq<Event>, t: Thrown, cleanup: Cleanup)
    ensures var s := Abandoned(oracle, log, t, cleanup);
            s.outcome.Throw? && (s.answered ==> s.outcome == Throw(t))
    ensures var s := Abandoned(oracle, log, t, cleanup);
            cleanup.NoCleanup? ==> s.answered && Lifecycle(s.log) == Lifecycle(log)
    ensures var s := Abandoned(oracle, log, t, cleanup);
            cleanup.RollbackThenRelease? ==> s.answered && Lifecycle(s.log) == Lifecycle(log) + [Rollback, Release]
    ensures var s := Abandoned(oracle, log, t, cleanup);
            cleanup.AwaitRollbackThenRelease? ==>
              Lifecycle(s.log) == Lifecycle(log) + (if s.answered then [Rollback, Release] else [Rollback])
  {
    TransactionEvents(log, [Rollback]);
    TransactionEvents(log, [Rollback, Release]);
  }

  /** The lifecycle a finished session leaves on its connection: begin,
      commit and release on success. On failure, POST / leaves the
      connection unreleased; the other handlers roll back and release it,
      except that PUT, whose rollback is awaited, neither releases nor
      replies when the rollback itself fails. */
  predicate Closed(s: Session, cleanup: Cleanup)
  {
    var l := Lifecycle(s.log);
    if s.outcome.Ok? then s.answered && l == [Begin, Commit, Release]
    else match cleanup
      case NoCleanup => s.answered && (l == [Begin] || l == [Begin, Commit])
      case RollbackThenRelease =>
        s.answered && (l == [Begin, Rollback, Release] || l == [Begin, Commit, Rollback, Release])
      case AwaitRollbackThenRelease =>
        if s.answered then l == [Begin, Rollback, Release] || l == [Begin, Commit, Rollback, Release]
        else l == [Begin, Rollback] || l == [Begin, Commit, Rollback]
  }

  /** Abandoning after begin, or after begin and commit, closes the session. */
  lemma AbandonedCloses(oracle: Oracle, log: seq<Event>, t: Thrown, cleanup: Cleanup)
    requires Lifecycle(log) == [Begin] || Lifecycle(log) == [Begin, Commit]
    ensures Closed(Abandoned(oracle, log, t, cleanup), cleanup)
  {
    AbandonedLifecycle(oracle, log, t, cleanup);
  }

  /** Every handler's session closes its connection as `Closed` says. It
      succeeds exactly when begin, the work and commit all succeed, and the
      error a failing session replies with is the first one raised. */
  lemma TransactionLifecycle(oracle: Oracle, work: Steps, cleanup: Cleanup)
    requires OnlyStatements(work.events)
    ensures Closed(Transaction(oracle, work, cleanup), cleanup)
    ensures Transaction(oracle, work, cleanup).outcome.Ok? <==>
              !oracle([Begin]).Failed? && work.result.Ok? && !oracle([Begin] + work.events + [Commit]).Failed?
    ensures Transaction(oracle, work, cleanup).outcome.Ok? ==> Transaction(oracle, work, cleanup).outcome == work.result
    ensures var s := Transaction(oracle, work, cleanup);
            s.answered && !oracle([Begin]).Failed? && work.result.Throw? ==> s.outcome == work.result
  {
    LifecycleOfBegin();
    if oracle([Begin]).Failed? {
      AbandonedCloses(oracle, [Begin], Driver(oracle([Begin]).cause), cleanup);
    } else {
      var log := [Begin] + work.events;
      LifecycleAfterWork(work.events, []);
      assert log + [] == log;
      if work.result.Throw? {
        AbandonedCloses(oracle, log, work.result.thrown, cleanup);
        AbandonedLifecycle(oracle, log, work.result.thrown, cleanup);
      } else {
        LifecycleAfterWork(work.events, [Commit]);
        if oracle(log + [Commit]).Failed? {
          AbandonedCloses(oracle, log + [Commit], Driver(oracle(log + [Commit]).cause), cleanup);
        } else {
          LifecycleAfterWork(work.events, [Commit, Release]);
        }
      }
    }
  }

  /** The login decision, both directions: NOT_FOUND exactly when no row
      matched or the first row's password failed; CONTACT_SUPPORT exactly
      when several rows matched and the first one's password verified; the
      single verified row otherwise. */
  lemma LoginCheckMeaning(rows: seq<Props>, password: Value, fx: Foreign)
    ensures var c := LoginCheck(Ok(Rows(rows)), password, fx);
            (c == Fail(NOT_FOUND) <==> |rows| == 0 || !fx.matches(password, Lookup(rows[0], "password")))
            && (c == Fail(CONTACT_SUPPORT) <==> |rows| > 1 && fx.matches(password, Lookup(rows[0], "password")))
            && (c.Ok? <==> |rows| == 1 && fx.matches(password, Lookup(rows[0], "password")))
            && (c.Ok? ==> c.value == rows[0])
  {
    assert GetError(NOT_FOUND, Undefined) != GetError(CONTACT_SUPPORT, Undefined) by {
      assert GetError(NOT_FOUND, Undefined).error.code == NOT_FOUND;
    }
  }

  /** A login whose check passes stores the kept or renewed token and the
      expiry computed on entry (31 days after the clock), keyed by the
      user's id and type; the token is kept exactly when it has not
      expired. */
  lemma LoginStoresToken(h: seq<Event>, row: Props, now: int, clock: int, salt: string,
                         fields: seq<string>, oracle: Oracle, fx: Foreign)
    ensures var s := RenewSteps(h, row, DateEndText(None, clock, fx), now, clock, salt, fields, oracle, fx);
            var id, typeUser := Lookup(row, "id"), Lookup(row, "type_user");
            |s.events| >= 1 &&
            s.events[0] == Statement(UpdateText(["token", "token_date_end"], ByIdAndType(id, typeUser)),
                                     [RenewedToken(row, now, clock, fx),
                                      Str(fx.format(Num(clock + 31 * 24 * 60 * 60 * 1000))), id, typeUser])
    ensures !IsAfter(now, Lookup(row, "token_date_end"), fx) ==> RenewedToken(row, now, clock, fx) == Lookup(row, "token")
    ensures IsAfter(now, Lookup(row, "token_date_end"), fx) ==> RenewedToken(row, now, clock, fx) == Str(GetToken(Lookup(row, "id"), clock, fx))
  {
    var dateEnd := DateEndText(None, clock, fx);
    var id, typeUser := Lookup(row, "id"), Lookup(row, "type_user");
    RenewFirstEvent(h, row, dateEnd, now, clock, salt, fields, oracle, fx);
    RenewStatement(row, dateEnd, now, clock, salt, fx);
    DateEndIs31Days(None, clock);
  }

  /** The columns and the parameters of the renewal UPDATE. */
  lemma RenewStatement(row: Props, dateEnd: string, now: int, clock: int, salt: string, fx: Foreign)
    ensures var id, typeUser := Lookup(row, "id"), Lookup(row, "type_user");
            var updates := TokenUpdates(row, dateEnd, now, clock, fx);
            && Keys(updates) == ["token", "token_date_end"]
            && Values(Prepared(updates, salt, fx)) + Values(ByIdAndType(id, typeUser))
               == [RenewedToken(row, now, clock, fx), Str(dateEnd), id, typeUser]
  {
    var id, typeUser := Lookup(row, "id"), Lookup(row, "type_user");
    TokenUpdateParams(row, dateEnd, now, clock, salt, fx);
    ByIdAndTypeValues(id, typeUser);
    assert [RenewedToken(row, now, clock, fx), Str(dateEnd)] + [id, typeUser]
        == [RenewedToken(row, now, clock, fx), Str(dateEnd), id, typeUser];
  }

  /** The first statement a renewal sends is the UPDATE of its two columns. */
  lemma RenewFirstEvent(h: seq<Event>, row: Props, dateEnd: string, now: int, clock: int, salt: string,
                        fields: seq<string>, oracle: Oracle, fx: Foreign)
    ensures var s := RenewSteps(h, row, dateEnd, now, clock, salt, fields, oracle, fx);
            var key := ByIdAndType(Lookup(row, "id"), Lookup(row, "type_user"));
            var updates := TokenUpdates(row, dateEnd, now, clock, fx);
            |s.events| >= 1 &&
            s.events[0] == Statement(UpdateText(Keys(updates), key), Values(Prepared(updates, salt, fx)) + Values(key))
  {
  }

  /** The two columns a renewal stores, and the values it stores there. */
  lemma TokenUpdateParams(row: Props, dateEnd: string, now: int, clock: int, salt: string, fx: Foreign)
    ensures Keys(TokenUpdates(row, dateEnd, now, clock, fx)) == ["token", "token_date_end"]
    ensures Values(Prepared(TokenUpdates(row, dateEnd, now, clock, fx), salt, fx))
            == [RenewedToken(row, now, clock, fx), Str(dateEnd)]
  {
    var updates := TokenUpdates(row, dateEnd, now, clock, fx);
    assert Prepared(updates, salt, fx) == updates;
  }

  /** GET looks the user up with the `type_user` of the row the token check
      returned; the token check selects `id`, `token` and `token_date_end`
      only, so a row holding just the selected columns has none, and the
      lookup searches for an undefined type. */
  lemma GetSearchesUndefinedType(h: seq<Event>, token: Value, now: int, fields: seq<string>, oracle: Oracle, fx: Foreign,
                                 rejection: Thrown)
    requires var t := TokenCheck(Retrieved(oracle(h + [TokenStatement(token)]), fx), now, fx, rejection);
             t.Ok? && forall k :: k in Keys(t.value) ==> k in ["token", "token_date_end"] + TokenProjection
    requires AllAvailable(SecureToReturn(fields))
    ensures var s := GetSteps(h, token, now, fields, oracle, fx, rejection);
            |s.events| == 2 && s.events[1].params[1] == Undefined
  {
    var e := TokenStatement(token);
    var t := TokenCheck(Retrieved(oracle(h + [e]), fx), now, fx, rejection);
    TypeNotAmongTokenColumns(Keys(t.value));
    LookupAbsent(t.value, "type_user");
    var key := ByIdAndType(Lookup(t.value, "id"), Lookup(t.value, "type_user"));
    GetStepsFound(h, token, now, fields, oracle, fx, rejection);
    FindStepsSent(h + [e], key, fields, oracle, fx);
    ByIdAndTypeValues(Lookup(t.value, "id"), Lookup(t.value, "type_user"));
  }

  /** Once the token check accepts, GET looks up the user it returned. */
  lemma GetStepsFound(h: seq<Event>, token: Value, now: int, fields: seq<string>, oracle: Oracle, fx: Foreign,
                      rejection: Thrown)
    requires TokenCheck(Retrieved(oracle(h + [TokenStatement(token)]), fx), now, fx, rejection).Ok?
    ensures var e := TokenStatement(token);
            var u := TokenCheck(Retrieved(oracle(h + [e]), fx), now, fx, rejection).value;
            GetSteps(h, token, now, fields, oracle, fx, rejection)
            == Then([e], FindSteps(h + [e], ByIdAndType(Lookup(u, "id"), Lookup(u, "type_user")), fields, oracle, fx))
  {
  }

  /** `type_user` is none of the columns a token check returns. */
  lemma TypeNotAmongTokenColumns(keys: seq<string>)
    requires forall k :: k in keys ==> k in ["token", "token_date_end"] + TokenProjection
    ensures "type_user" !in keys
  {
  }

  /** A lookup whose field list passes the filter sends its one statement. */
  lemma FindStepsSent(h: seq<Event>, key: Props, fields: seq<string>, oracle: Oracle, fx: Foreign)
    requires AllAvailable(SecureToReturn(fields))
    ensures |FindSteps(h, key, fields, oracle, fx).events| == 1
    ensures FindSteps(h, key, fields, oracle, fx).events[0].params == Values(key)
  {
  }

  /** PUT stores only what may be saved: after a valid token, the UPDATE
      sets exactly the body's keys that are available fields and not
      `id`, `type_user`, `token` or `token_date_end`. */
  lemma UpdateSetsOnlySavable(h: seq<Event>, verified: Result<Props>, body: Props, salt: string,
                              fields: seq<string>, oracle: Oracle, fx: Foreign, k: string)
    requires verified.Ok?
    ensures var s := UpdateSteps(h, verified, body, salt, fields, oracle, fx);
            |s.events| >= 1 && s.events[0].text == UpdateText(Keys(SecureToSave(body)), ByIdAndType(Lookup(verified.value, "id"), Lookup(verified.value, "type_user")))
    ensures k in Keys(SecureToSave(body)) <==> k in Keys(body) && k in AvailableFields && k !in ProtectedOnSave
  {
    SecureToSaveMeaning(body, k);
  }

  /** As written, a token that matches no row or several rows makes PUT
      send nothing on the connection and reply 500 UNDEFINED_PROBLEM, once
      the transaction rolls back: `verifyToken`'s ReferenceError reaches
      `treatError`. */
  lemma UpdateWithRejectedToken(rows: seq<Props>, now: int, body: Props, salt: string, fields: seq<string>,
                                oracle: Oracle, fx: Foreign)
    requires |rows| != 1
    requires !oracle([Begin]).Failed? && !oracle([Begin, Rollback]).Failed?
    ensures var verified := TokenCheck(Ok(Rows(rows)), now, fx, Native("ReferenceError"));
            var s := Transaction(oracle, UpdateSteps([Begin], verified, body, salt, fields, oracle, fx),
                                 AwaitRollbackThenRelease);
            s.log == [Begin, Rollback, Release] &&
            ReplyOf(s.outcome, s.answered, 200) == Sent(Some(500), ErrorJson(ErrorBody(Some("Something went wrong."), None, UNDEFINED_PROBLEM)))
  {
    assert [Begin] + [] == [Begin];
    assert [Begin] + [Rollback] == [Begin, Rollback];
    assert [Begin] + [Rollback, Release] == [Begin, Rollback, Release];
  }

  /** With the intended NOT_LOGGED_IN, the same PUT replies 404 with code 6
      and "Please log in again.". */
  lemma UpdateWithRejectedTokenCorrected(rows: seq<Props>, now: int, body: Props, salt: string, fields: seq<string>,
                                         oracle: Oracle, fx: Foreign)
    requires |rows| != 1
    requires !oracle([Begin]).Failed? && !oracle([Begin, Rollback]).Failed?
    ensures var verified := TokenCheck(Ok(Rows(rows)), now, fx, NotLoggedIn());
            var s := Transaction(oracle, UpdateSteps([Begin], verified, body, salt, fields, oracle, fx),
                                 AwaitRollbackThenRelease);
            s.log == [Begin, Rollback, Release] &&
            ReplyOf(s.outcome, s.answered, 200) == Sent(Some(404), ErrorJson(ErrorBody(Some("Please log in again."), None, NOT_LOGGED_IN)))
  {
    assert [Begin] + [] == [Begin];
    assert [Begin] + [Rollback] == [Begin, Rollback];
    assert [Begin] + [Rollback, Release] == [Begin, Rollback, Release];
  }

  /** As written, GET with a token that matches no row or several rows
      sends the token lookup, rolls back, releases, and replies 500
      UNDEFINED_PROBLEM. */
  lemma GetWithRejectedToken(token: Value, now: int, fields: seq<string>, oracle: Oracle, fx: Foreign)
    requires !oracle([Begin]).Failed?
    requires oracle([Begin, TokenStatement(token)]).Rows? && |oracle([Begin, TokenStatement(token)]).rows| != 1
    ensures var s := Transaction(oracle, GetSteps([Begin], token, now, fields, oracle, fx, Native("ReferenceError")),
                                 RollbackThenRelease);
            s.log == [Begin, TokenStatement(token), Rollback, Release] &&
            ReplyOf(s.outcome, s.answered, 200) == Sent(Some(500), ErrorJson(ErrorBody(Some("Something went wrong."), None, UNDEFINED_PROBLEM)))
  {
    GetRejected(token, now, fields, oracle, fx, Native("ReferenceError"));
    assert [Begin] + [TokenStatement(token)] + [Rollback, Release] == [Begin, TokenStatement(token), Rollback, Release];
  }

  /** With the intended NOT_LOGGED_IN, the same GET replies 404 with code 6
      and "Please log in again.". */
  lemma GetWithRejectedTokenCorrected(token: Value, now: int, fields: seq<string>, oracle: Oracle, fx: Foreign)
    requires !oracle([Begin]).Failed?
    requires oracle([Begin, TokenStatement(token)]).Rows? && |oracle([Begin, TokenStatement(token)]).rows| != 1
    ensures var s := Transaction(oracle, GetSteps([Begin], token, now, fields, oracle, fx, NotLoggedIn()),
                                 RollbackThenRelease);
            s.log == [Begin, TokenStatement(token), Rollback, Release] &&
            ReplyOf(s.outcome, s.answered, 200) == Sent(Some(404), ErrorJson(ErrorBody(Some("Please log in again."), None, NOT_LOGGED_IN)))
  {
    GetRejected(token, now, fields, oracle, fx, NotLoggedIn());
    assert [Begin] + [TokenStatement(token)] + [Rollback, Release] == [Begin, TokenStatement(token), Rollback, Release];
  }

  /** A rejected token ends GET's work after the token lookup, throwing the
      rejection. */
  lemma GetRejected(token: Value, now: int, fields: seq<string>, oracle: Oracle, fx: Foreign, rejection: Thrown)
    requires oracle([Begin, TokenStatement(token)]).Rows? && |oracle([Begin, TokenStatement(token)]).rows| != 1
    ensures GetSteps([Begin], token, now, fields, oracle, fx, rejection) == Steps([TokenStatement(token)], Throw(rejection))
  {
    var a := oracle([Begin] + [TokenStatement(token)]);
    assert [Begin] + [TokenStatement(token)] == [Begin, TokenStatement(token)];
    RetrievedMeaning(a, fx);
  }
}
