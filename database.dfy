/**
 * The database as the core sees it: a query target (the pool itself or one
 * pooled connection) that answers every call from the history of calls made
 * on it. Which answers the store gives is left entirely open: the oracle is a
 * parameter, any function at all.
 */
module Database {
  import opened Js
  import opened Errors

  /** A call made on a query target. */
  datatype Event =
    | Begin                                      // conn.beginTransaction()
    | Statement(text: string, params: seq<Value>) // db.query(text, params)
    | Commit                                     // conn.commit()
    | Rollback                                   // conn.rollback()
    | Release                                    // conn.release()

  /** How the driver settles a call: result rows, an OK packet, or a rejection. */
  datatype Answer = Rows(rows: seq<Props>) | Packet(affectedRows: nat) | Failed(cause: DbError)

  /** Answers the last event of a history, given the events before it. */
  type Oracle = seq<Event> -> Answer

  function FailureOf(a: Answer): Option<DbError>
  {
    if a.Failed? then Some(a.cause) else None
  }

  /** The transaction and connection events of a history, in order. */
  function Lifecycle(log: seq<Event>): seq<Event>
  {
    if log == [] then []
    else Lifecycle(log[..|log| - 1]) + (if log[|log| - 1].Statement? then [] else [log[|log| - 1]])
  }

  /** One more event extends the lifecycle by it, unless it is a statement. */
  lemma LifecycleSnoc(log: seq<Event>, e: Event)
    ensures Lifecycle(log + [e]) == Lifecycle(log) + (if e.Statement? then [] else [e])
  {
    assert (log + [e])[..|log|] == log;
  }

  /** Statements leave the lifecycle as it was. */
  lemma {:induction false} LifecycleStatements(log: seq<Event>, s: seq<Event>)
    requires forall i :: 0 <= i < |s| ==> s[i].Statement?
    ensures Lifecycle(log + s) == Lifecycle(log)
  {
    if s != [] {
      var init := s[..|s| - 1];
      LifecycleStatements(log, init);
      assert log + s == (log + init) + [s[|s| - 1]];
      LifecycleSnoc(log + init, s[|s| - 1]);
    } else {
      assert log + s == log;
    }
  }

  /** A query target: the pool, or a connection taken from it. */
  class Db {
    const oracle: Oracle
    var log: seq<Event>

    constructor (oracle: Oracle)
      ensures this.oracle == oracle && log == []
    {
      this.oracle := oracle;
      log := [];
    }

    /** `await db.query(text, params)` */
    method Query(text: string, params: seq<Value>) returns (a: Answer)
      modifies this
      ensures log == old(log) + [Statement(text, params)]
      ensures a == oracle(log)
    {
      log := log + [Statement(text, params)];
      a := oracle(log);
    }

    /** `await conn.beginTransaction()` */
    method BeginTransaction() returns (failure: Option<DbError>)
      modifies this
      ensures log == old(log) + [Begin]
      ensures failure == FailureOf(oracle(log))
    {
      log := log + [Begin];
      failure := FailureOf(oracle(log));
    }

    /** `await conn.commit()` */
    method CommitTransaction() returns (failure: Option<DbError>)
      modifies this
      ensures log == old(log) + [Event.Commit]
      ensures failure == FailureOf(oracle(log))
    {
      log := log + [Event.Commit];
      failure := FailureOf(oracle(log));
    }

    /** `conn.rollback()`; the caller decides whether to await the failure. */
    method RollbackTransaction() returns (failure: Option<DbError>)
      modifies this
      ensures log == old(log) + [Event.Rollback]
      ensures failure == FailureOf(oracle(log))
    {
      log := log + [Event.Rollback];
      failure := FailureOf(oracle(log));
    }

    /** `conn.release()`: synchronous, hands the connection back to the pool. */
    method ReleaseConnection()
      modifies this
      ensures log == old(log) + [Event.Release]
    {
      log := log + [Event.Release];
    }
  }

  /** The pool: a query target of its own, and a source of connections. */
  class Pool {
    const direct: Db
    /** How every connection taken from this pool answers. */
    const connections: Oracle
    /** Set when `getConnection` rejects (pool exhausted, server down). */
    const refusal: Option<DbError>

    constructor (direct: Db, connections: Oracle, refusal: Option<DbError>)
      ensures this.direct == direct && this.connections == connections && this.refusal == refusal
    {
      this.direct := direct;
      this.connections := connections;
      this.refusal := refusal;
    }

    /** `await db.createConnection()`: a fresh connection with no history. */
    method CreateConnection() returns (r: Result<Db>)
      ensures r.Ok? <==> refusal.None?
      ensures r.Ok? ==> fresh(r.value) && r.value.log == [] && r.value.oracle == connections
      ensures r.Throw? ==> r.thrown == Driver(refusal.value)
    {
      if refusal.Some? {
        r := Throw(Driver(refusal.value));
      } else {
        var conn := new Db(connections);
        r := Ok(conn);
      }
    }
  }

  /** Appending two runs of events one after the other is appending both. */
  lemma LogAppend(h: seq<Event>, a: seq<Event>, b: seq<Event>)
    ensures h + (a + b) == (h + a) + b
  {
  }

  /** A non-empty run of events is its front and then its last event. */
  lemma FrontThenLast(tail: seq<Event>)
    requires tail != []
    ensures tail[..|tail| - 1] + [tail[|tail| - 1]] == tail
  {
  }
}
