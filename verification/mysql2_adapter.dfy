/** The Mysql2 connection adapter as a state machine over an abstract
    driver. The adapter's state is an immutable `Adapter` value; every
    operation returns the state it leaves behind. What the driver does
    (ping, prepare, execute, connect) enters as an outcome parameter, so each
    contract holds for every answer the driver may give. */
module Mysql2Adapter {
  import opened Wrappers

  datatype RowFormat = AsArray | AsHash

  /** `ActiveRecord::Base.default_timezone`. */
  datatype Timezone = Utc | Local

  /** The two entries of the client's `query_options` the adapter writes. */
  datatype QueryOptions = QueryOptions(rowFormat: RowFormat, databaseTimezone: Option<Timezone>)

  /** A `Mysql2::Client` handle: its identity, its query options, how many
      result sets of the last multi-statement query are still pending
      (`more_results?`) and how often `next_result` has been called. */
  datatype Client = Client(id: nat, queryOptions: QueryOptions, pendingResults: nat, nextResultCalls: nat)

  /** The exceptions the shown code raises or lets through. */
  datatype Exception =
    | Mysql2Error(message: string, errorNumber: Option<int>)
    | NoDatabaseError
    | NoMethodError(name: string)
    | OtherError(message: string)

  type StmtId = nat

  /** The adapter: the client handle (`@connection`, nil when absent), the
      prepared statements cached by SQL text (`@statements`), and counters of
      the driver calls that create and release resources. Fresh statements
      get the id `nextStmt`. */
  datatype Adapter = Adapter(
    connection: Option<Client>,
    statements: map<string, StmtId>,
    prepareCalls: nat,
    stmtCloses: nat,
    clientCloses: nat,
    nextStmt: StmtId)

  /** A result set: its rows, and how many further result sets follow it. */
  datatype RawResult = RawResult(rows: seq<map<string, string>>, moreResults: nat)

  /** `error_number(exception)`: the driver's error number when the exception
      carries one, none otherwise. */
  function ErrorNumber(e: Exception): (n: Option<int>)
    ensures n.Some? ==> e.Mysql2Error? && e.errorNumber == n
    ensures e.Mysql2Error? ==> n == e.errorNumber
  {
    if e.Mysql2Error? then e.errorNumber else None
  }

  /** `configure_connection`: rows come back as arrays. */
  function ConfigureConnection(c: Client): (d: Client)
    ensures d.queryOptions.rowFormat == AsArray
    ensures d.id == c.id && d.queryOptions.databaseTimezone == c.queryOptions.databaseTimezone
    ensures d.pendingResults == c.pendingResults && d.nextResultCalls == c.nextResultCalls
  {
    c.(queryOptions := c.queryOptions.(rowFormat := AsArray))
  }

  /** `Mysql2Adapter.new(client, ...)`: the adapter owns the configured
      client and has prepared nothing yet. */
  function NewAdapter(c: Client): (a: Adapter)
    ensures a.connection == Some(ConfigureConnection(c))
    ensures a.statements == map[] && a.prepareCalls == 0 && a.stmtCloses == 0 && a.clientCloses == 0
    ensures Valid(a)
  {
    Adapter(Some(ConfigureConnection(c)), map[], 0, 0, 0, 0)
  }

  /** Every cached statement was handed out by this adapter, and no two SQL
      texts share one. */
  predicate Valid(a: Adapter) {
    && (forall sql :: sql in a.statements ==> a.statements[sql] < a.nextStmt)
    && (forall s1, s2 :: s1 in a.statements && s2 in a.statements && s1 != s2 ==>
          a.statements[s1] != a.statements[s2])
  }

  /** `m` keeps some of the entries of `n`, each with the same statement. */
  predicate SubMap(m: map<string, StmtId>, n: map<string, StmtId>) {
    forall sql :: sql in m ==> sql in n && m[sql] == n[sql]
  }

  /** A generic step on the statement cache that only drops entries, as
      clearing the cache does. */
  ghost predicate OnlyDrops(base: map<string, StmtId> -> map<string, StmtId>) {
    forall m :: SubMap(base(m), m)
  }

  datatype ActiveAnswer = ActiveAnswer(alive: bool, pinged: bool)

  /** `active?`: false without asking the driver when there is no handle,
      otherwise the ping's answer. */
  function Active(a: Adapter, ping: bool): (r: ActiveAnswer)
    ensures a.connection.None? ==> !r.alive && !r.pinged
    ensures a.connection.Some? ==> r.pinged && r.alive == ping
    ensures r.alive ==> a.connection.Some?
  {
    if a.connection.None? then ActiveAnswer(false, false) else ActiveAnswer(ping, true)
  }

  /** `disconnect!`. `base` is what the generic `disconnect!` does to the
      statement cache; the handle is closed once and forgotten. */
  function Disconnect(a: Adapter, base: map<string, StmtId> -> map<string, StmtId>): (r: Adapter)
    ensures r.connection.None?
    ensures r.clientCloses == a.clientCloses + (if a.connection.Some? then 1 else 0)
    ensures r.statements == base(a.statements)
    ensures r.prepareCalls == a.prepareCalls && r.stmtCloses == a.stmtCloses && r.nextStmt == a.nextStmt
    ensures Valid(a) && OnlyDrops(base) ==> Valid(r)
  {
    var a' := a.(statements := base(a.statements));
    if a'.connection.Some? then a'.(connection := None, clientCloses := a'.clientCloses + 1) else a'
  }

  /** A second `disconnect!` closes nothing: the handle is closed at most once. */
  lemma DisconnectClosesAtMostOnce(a: Adapter, base: map<string, StmtId> -> map<string, StmtId>)
    ensures Disconnect(Disconnect(a, base), base).clientCloses <= a.clientCloses + 1
    ensures Disconnect(Disconnect(a, base), base).clientCloses == Disconnect(a, base).clientCloses
  {
  }

  /** After `disconnect!`, `active?` is false and the driver is not pinged. */
  lemma NotActiveAfterDisconnect(a: Adapter, base: map<string, StmtId> -> map<string, StmtId>, ping: bool)
    ensures Active(Disconnect(a, base), ping) == ActiveAnswer(false, false)
  {
  }

  /** `reconnect!`: the generic `reconnect!` (`baseReconnect` on the statement
      cache), `disconnect!`, then `connect`. `connect` installs the new
      `Mysql2::Client` before configuring it; `configure` is what the generic
      half of `configure_connection` does (nothing, or the exception it
      raises). When the driver refuses, its error propagates and the adapter
      is left without a handle; when configuring fails, the new handle stays
      installed and the error propagates. */
  function Reconnect(a: Adapter, baseReconnect: map<string, StmtId> -> map<string, StmtId>,
                     baseDisconnect: map<string, StmtId> -> map<string, StmtId>,
                     newClient: Result<Client, Exception>, configure: Option<Exception>): (r: (Adapter, Option<Exception>))
    ensures r.0.clientCloses == a.clientCloses + (if a.connection.Some? then 1 else 0)
    ensures r.0.statements == baseDisconnect(baseReconnect(a.statements))
    ensures r.0.prepareCalls == a.prepareCalls && r.0.stmtCloses == a.stmtCloses
    ensures newClient.Success? ==> r.0.connection == Some(ConfigureConnection(newClient.value)) && r.1 == configure
    ensures newClient.Failure? ==> r.0.connection.None? && r.1 == Some(newClient.error)
    ensures r.1.None? <==> newClient.Success? && configure.None?
    ensures Valid(a) && OnlyDrops(baseReconnect) && OnlyDrops(baseDisconnect) ==> Valid(r.0)
  {
    var cleared := a.(statements := baseReconnect(a.statements));
    assert Valid(a) && OnlyDrops(baseReconnect) ==> Valid(cleared) by {
      if Valid(a) && OnlyDrops(baseReconnect) {
        assert SubMap(baseReconnect(a.statements), a.statements);
      }
    }
    var closed := Disconnect(cleared, baseDisconnect);
    match newClient
    case Success(c) => (closed.(connection := Some(ConfigureConnection(c))), configure)
    case Failure(e) => (closed, Some(e))
  }

  /** `reconnect!` on an adapter without a handle closes no client. */
  lemma ReconnectWithoutHandleClosesNothing(a: Adapter, baseReconnect: map<string, StmtId> -> map<string, StmtId>,
                                            baseDisconnect: map<string, StmtId> -> map<string, StmtId>,
                                            newClient: Result<Client, Exception>, configure: Option<Exception>)
    requires a.connection.None?
    ensures Reconnect(a, baseReconnect, baseDisconnect, newClient, configure).0.clientCloses == a.clientCloses
  {
  }

  /** After `reconnect!`, `active?` pings the new handle when the driver
      opened one, even if configuring it failed; after a refusal it answers
      false without a ping. */
  lemma ActiveAfterReconnect(a: Adapter, baseReconnect: map<string, StmtId> -> map<string, StmtId>,
                             baseDisconnect: map<string, StmtId> -> map<string, StmtId>,
                             newClient: Result<Client, Exception>, configure: Option<Exception>, ping: bool)
    ensures newClient.Success? ==>
              Active(Reconnect(a, baseReconnect, baseDisconnect, newClient, configure).0, ping) == ActiveAnswer(ping, true)
    ensures newClient.Failure? ==>
              Active(Reconnect(a, baseReconnect, baseDisconnect, newClient, configure).0, ping) == ActiveAnswer(false, false)
  {
  }

  /** The timezone step at the top of `execute` and `exec_stmt_and_free`:
      when a handle is present, its `database_timezone` becomes the current
      global default. */
  function SyncTimezone(conn: Option<Client>, tz: Timezone): (r: Option<Client>)
    ensures r.Some? <==> conn.Some?
    ensures r.Some? ==> r.value.queryOptions == conn.value.queryOptions.(databaseTimezone := Some(tz))
    ensures r.Some? ==> r.value == conn.value.(queryOptions := r.value.queryOptions)
  {
    match conn
    case None => None
    case Some(c) => Some(c.(queryOptions := c.queryOptions.(databaseTimezone := Some(tz))))
  }

  /** The outcome of a statement: the adapter afterwards, the value or the
      exception, whether the driver ran the statement, and the client's query
      options at that moment (none without a handle). */
  datatype Step<T> = Step(adapter: Adapter, result: Result<T, Exception>, ran: bool, session: Option<QueryOptions>)

  /** Records a successful result's pending result sets on the client. */
  function WithPending(conn: Option<Client>, res: RawResult): Option<Client> {
    match conn
    case None => None
    case Some(c) => Some(c.(pendingResults := res.moreResults))
  }

  /** `execute(sql)`: the timezone step, then the generic `execute`, which
      sends the text to the client (`query` is the driver's answer). Without a
      handle the generic code calls `query` on nil. */
  function Execute(a: Adapter, tz: Timezone, query: Result<RawResult, Exception>): (r: Step<RawResult>)
    ensures a.connection.None? ==> r == Step(a, Failure(NoMethodError("query")), false, None)
    ensures a.connection.Some? ==> r.session == Some(a.connection.value.queryOptions.(databaseTimezone := Some(tz)))
    ensures a.connection.Some? ==> r.result == query
    ensures r.adapter.connection.Some? <==> a.connection.Some?
    ensures r.adapter.statements == a.statements && r.adapter.prepareCalls == a.prepareCalls
    ensures r.adapter.stmtCloses == a.stmtCloses
    // rows come back in the format the caller set
    ensures r.adapter.connection.Some? ==>
              r.adapter.connection.value.queryOptions.rowFormat == a.connection.value.queryOptions.rowFormat
  {
    var conn := SyncTimezone(a.connection, tz);
    if conn.None? then Step(a, Failure(NoMethodError("query")), false, None)
    else
      var conn' := if query.Success? then WithPending(conn, query.value) else conn;
      Step(a.(connection := conn'), query, true, Some(conn.value.queryOptions))
  }

  /** A change of the default timezone between two statements is seen by
      the second one, whether it is sent as text or as a prepared statement. */
  lemma TimezoneChangeIsSeenByNextStatement(a: Adapter, tz1: Timezone, tz2: Timezone,
                                            q1: Result<RawResult, Exception>, q2: Result<RawResult, Exception>,
                                            sql: string, cacheStmt: bool, prepare: Option<Exception>,
                                            run: Result<RawResult, Exception>)
    requires a.connection.Some?
    ensures var s := Execute(Execute(a, tz1, q1).adapter, tz2, q2);
            s.session.Some? && s.session.value.databaseTimezone == Some(tz2)
    ensures var s := ExecStmtAndFree(Execute(a, tz1, q1).adapter, sql, cacheStmt, tz2, prepare, run, Identity);
            s.ran ==> s.session.Some? && s.session.value.databaseTimezone == Some(tz2)
  {
  }

  /** `exec_stmt_and_free(sql, binds, cache_stmt:) { |stmt, result| block }`.
      `prepare` is the driver's answer to `prepare(sql)` (none: a statement),
      `run` its answer to `stmt.execute(*binds)`, and `block` what the
      caller's block makes of the result. */
  function ExecStmtAndFree<T>(a: Adapter, sql: string, cacheStmt: bool, tz: Timezone,
                              prepare: Option<Exception>, run: Result<RawResult, Exception>,
                              block: RawResult -> Result<T, Exception>): (r: Step<T>)
    // the cached statement is reused: the driver prepares only a new one
    ensures r.adapter.prepareCalls ==
              a.prepareCalls + (if (cacheStmt && sql in a.statements) || a.connection.None? then 0 else 1)
    ensures cacheStmt && sql in a.statements ==> r.adapter.prepareCalls == a.prepareCalls
    // a cached statement is never closed; an uncached one at most once
    ensures cacheStmt ==> r.adapter.stmtCloses == a.stmtCloses
    ensures r.adapter.stmtCloses <= a.stmtCloses + 1
    // an uncached statement is closed after a successful block, and after a driver error
    ensures !cacheStmt && r.result.Success? ==> r.adapter.stmtCloses == a.stmtCloses + 1
    ensures !cacheStmt && r.ran && run.Failure? && run.error.Mysql2Error? ==>
              r.adapter.stmtCloses == a.stmtCloses + 1
    // a successful cached call leaves its statement cached
    ensures cacheStmt && r.result.Success? ==> sql in r.adapter.statements
    ensures cacheStmt && sql in a.statements && r.result.Success? ==> r.adapter.statements == a.statements
    // a driver error evicts the cached statement and re-raises the same error
    ensures cacheStmt && r.ran && run.Failure? && run.error.Mysql2Error? ==>
              sql !in r.adapter.statements
    ensures r.ran && run.Failure? ==> r.result == Failure(run.error)
    // the driver is reached unless a needed prepare was impossible or refused
    ensures r.ran <==> (cacheStmt && sql in a.statements) || (a.connection.Some? && prepare.None?)
    ensures r.result.Success? ==> r.ran && run.Success? && r.result == block(run.value)
    // a run that reached the driver answers the block's answer, or raises what the block raised
    ensures r.ran && run.Success? ==> r.result == block(run.value)
    // a refused prepare raises its own error
    ensures !r.ran && a.connection.Some? ==> prepare.Some? && r.result == Failure(prepare.value)
    // no other cache entry changes, and an uncached call changes none
    ensures forall k :: k != sql ==> (k in r.adapter.statements <==> k in a.statements)
    ensures forall k :: k != sql && k in a.statements ==> r.adapter.statements[k] == a.statements[k]
    ensures !cacheStmt ==> r.adapter.statements == a.statements
    // the driver runs the statement with the current default timezone
    ensures r.session.Some? <==> r.ran && a.connection.Some?
    ensures r.session.Some? ==> r.session.value == a.connection.value.queryOptions.(databaseTimezone := Some(tz))
    ensures r.adapter.connection.Some? <==> a.connection.Some?
    ensures r.adapter.clientCloses == a.clientCloses
    ensures Valid(a) ==> Valid(r.adapter)
    // any other exception, from the driver or from the block, releases nothing
    ensures r.ran && r.result.Failure? && !(run.Failure? && run.error.Mysql2Error?) ==>
              r.adapter.stmtCloses == a.stmtCloses && (cacheStmt ==> sql in r.adapter.statements)
    // rows come back in the format the caller set
    ensures r.adapter.connection.Some? ==>
              r.adapter.connection.value.queryOptions.rowFormat == a.connection.value.queryOptions.rowFormat
  {
    var conn := SyncTimezone(a.connection, tz);
    var a1 := a.(connection := conn);
    var session := if conn.Some? then Some(conn.value.queryOptions) else None;
    var needPrepare := !cacheStmt || sql !in a.statements;
    if needPrepare && conn.None? then
      // `@connection.prepare` on nil
      Step(a1, Failure(NoMethodError("prepare")), false, None)
    else if needPrepare && prepare.Some? then
      // the driver refused to prepare: nothing is cached or closed
      Step(a1.(prepareCalls := a1.prepareCalls + 1), Failure(prepare.value), false, None)
    else
      var stmt := if needPrepare then a.nextStmt else a.statements[sql];
      var a2 := if !needPrepare then a1
                else if cacheStmt then a1.(statements := a1.statements[sql := stmt], prepareCalls := a1.prepareCalls + 1, nextStmt := stmt + 1)
                else a1.(prepareCalls := a1.prepareCalls + 1, nextStmt := stmt + 1);
      match run
      case Failure(e) =>
        if e.Mysql2Error? then
          var a3 := if !cacheStmt then a2.(stmtCloses := a2.stmtCloses + 1)
                    else a2.(statements := a2.statements - {sql});
          Step(a3, Failure(e), true, session)
        else
          // only `Mysql2::Error` is rescued; anything else passes through
          Step(a2, Failure(e), true, session)
      case Success(res) =>
        var a3 := a2.(connection := WithPending(a2.connection, res));
        match block(res)
        case Failure(e) =>
          // the block raised before the statement was closed
          Step(a3, Failure(e), true, session)
        case Success(v) =>
          var a4 := if !cacheStmt then a3.(stmtCloses := a3.stmtCloses + 1) else a3;
          Step(a4, Success(v), true, session)
  }

  function Identity(res: RawResult): Result<RawResult, Exception> {
    Success(res)
  }

  /** Caching as promised: two successful cached runs of the same SQL text
      prepare it once, a driver error on a later run evicts it, and the run
      after that prepares it afresh. */
  lemma {:induction false} CachedStatementLifecycle(a: Adapter, sql: string, tz: Timezone,
                                                    ok1: RawResult, ok2: RawResult, err: string, ok4: RawResult)
    requires a.connection.Some? && sql !in a.statements
    ensures
      var s1 := ExecStmtAndFree(a, sql, true, tz, None, Success(ok1), Identity);
      var s2 := ExecStmtAndFree(s1.adapter, sql, true, tz, None, Success(ok2), Identity);
      var s3 := ExecStmtAndFree(s2.adapter, sql, true, tz, None, Failure(Mysql2Error(err, None)), Identity);
      var s4 := ExecStmtAndFree(s3.adapter, sql, true, tz, None, Success(ok4), Identity);
      && s2.adapter.prepareCalls == a.prepareCalls + 1
      && s3.adapter.prepareCalls == a.prepareCalls + 1
      && sql !in s3.adapter.statements
      && s3.result == Failure(Mysql2Error(err, None))
      && s4.adapter.prepareCalls == a.prepareCalls + 2
      && s4.adapter.stmtCloses == a.stmtCloses
      && s4.result == Success(ok4)
  {
    var s1 := ExecStmtAndFree(a, sql, true, tz, None, Success(ok1), Identity);
    assert sql in s1.adapter.statements && s1.adapter.connection.Some?;
    var s2 := ExecStmtAndFree(s1.adapter, sql, true, tz, None, Success(ok2), Identity);
    assert sql in s2.adapter.statements && s2.adapter.connection.Some?;
    var s3 := ExecStmtAndFree(s2.adapter, sql, true, tz, None, Failure(Mysql2Error(err, None)), Identity);
    assert s3.session.Some?;
    assert sql !in s3.adapter.statements && s3.adapter.connection.Some?;
  }

  /** Without caching every run prepares and closes its own statement. */
  lemma UncachedRunsPrepareAndCloseEach(a: Adapter, sql: string, tz: Timezone, res: RawResult)
    requires a.connection.Some?
    ensures
      var s := ExecStmtAndFree(a, sql, false, tz, None, Success(res), Identity);
      && s.adapter.prepareCalls == a.prepareCalls + 1
      && s.adapter.stmtCloses == a.stmtCloses + 1
      && s.adapter.statements == a.statements
  {
  }

  /** How the driver's `next_result` calls go: when `failure` is present,
      the call at position `at` (counting from 0) raises `error`, as it does
      when a later result set of a multi-statement query or a stored
      procedure failed. */
  datatype NextResultFailure = NextResultFailure(at: nat, error: Exception)

  /** `@connection.next_result while @connection.more_results?`: one
      `next_result` per pending result set, unless one of them raises. A
      raising call consumes its result set; the loop ends there and the error
      propagates. */
  function Drain(c: Client, failure: Option<NextResultFailure>): (r: (Client, Option<Exception>))
    // the loop finishes exactly when no call within the pending ones raises ...
    ensures r.1.None? <==> failure.None? || failure.value.at >= c.pendingResults
    ensures r.1.None? ==> r.0.pendingResults == 0 && r.0.nextResultCalls == c.nextResultCalls + c.pendingResults
    // ... and otherwise stops at the raising call, with its error
    ensures r.1.Some? ==>
              && r.1.value == failure.value.error
              && r.0.nextResultCalls == c.nextResultCalls + failure.value.at + 1
              && r.0.pendingResults == c.pendingResults - failure.value.at - 1
    ensures r.0.id == c.id && r.0.queryOptions == c.queryOptions
    decreases c.pendingResults
  {
    if c.pendingResults == 0 then (c, None)
    else
      var c' := c.(pendingResults := c.pendingResults - 1, nextResultCalls := c.nextResultCalls + 1);
      match failure
      case None => Drain(c', None)
      case Some(NextResultFailure(at, e)) =>
        if at == 0 then (c', Some(e))
        else Drain(c', Some(NextResultFailure(at - 1, e)))
  }

  /** The drain raises for a result with `moreResults` further result sets. */
  predicate DrainRaises(failure: Option<NextResultFailure>, moreResults: nat) {
    failure.Some? && failure.value.at < moreResults
  }

  /** `select_result`. `hasBinds` is `!without_prepared_statement?(binds)`:
      false for a statement without binds and whenever prepared statements are
      turned off, in which case the statement is sent as text
      (`execute_and_free`); otherwise it runs as a cached prepared statement. */
  function SelectResult(a: Adapter, hasBinds: bool, sql: string, tz: Timezone,
                        prepare: Option<Exception>, run: Result<RawResult, Exception>): (r: Step<RawResult>)
    ensures !hasBinds ==> r.adapter.statements == a.statements && r.adapter.prepareCalls == a.prepareCalls
    ensures hasBinds && r.result.Success? ==> sql in r.adapter.statements
    ensures r.adapter.connection.Some? <==> a.connection.Some?
    ensures r.adapter.stmtCloses == a.stmtCloses && r.adapter.clientCloses == a.clientCloses
    ensures r.session.Some? ==>
              a.connection.Some? && r.session.value == a.connection.value.queryOptions.(databaseTimezone := Some(tz))
    ensures r.result.Success? ==> r.ran && run == r.result
    // as text, the result is the driver's answer
    ensures !hasBinds && a.connection.Some? ==> r.ran && r.result == run
    ensures r.ran && run.Failure? ==> r.result == Failure(run.error)
    ensures r.adapter.connection.Some? ==>
              r.adapter.connection.value.queryOptions.rowFormat == a.connection.value.queryOptions.rowFormat
  {
    if !hasBinds then Execute(a, tz, run)
    else ExecStmtAndFree(a, sql, true, tz, prepare, run, Identity)
  }

  /** Sets the row format of the client, if any. */
  function WithRowFormat(a: Adapter, f: RowFormat): (r: Adapter)
    ensures r.connection.Some? <==> a.connection.Some?
    ensures r.connection.Some? ==> r.connection.value.queryOptions.rowFormat == f
    ensures r.connection.Some? ==> r.connection.value == a.connection.value.(queryOptions := r.connection.value.queryOptions)
    ensures r.connection.Some? ==> r.connection.value.queryOptions.databaseTimezone == a.connection.value.queryOptions.databaseTimezone
    ensures r.(connection := a.connection) == a
  {
    match a.connection
    case None => a
    case Some(c) => a.(connection := Some(c.(queryOptions := c.queryOptions.(rowFormat := f))))
  }

  /** What `select_one` returns as written: the first row, or, when the
      result has no rows, whatever the result's `each` returns. */
  datatype EachAnswer = FirstRow(row: map<string, string>) | EachReturned

  /** `select_one(sql, binds)` as written: runs the statement with rows as
      hashes; inside `each`, drains pending result sets and returns the first
      row; on every way out sets rows back to arrays (`ensure`). Draining
      happens only when there is a first row. */
  function SelectOneAsWritten(a: Adapter, hasBinds: bool, sql: string, tz: Timezone,
                              prepare: Option<Exception>, run: Result<RawResult, Exception>,
                              failure: Option<NextResultFailure>): (r: Step<EachAnswer>)
    ensures r.adapter.connection.Some? <==> a.connection.Some?
    ensures r.adapter.connection.Some? ==> r.adapter.connection.value.queryOptions.rowFormat == AsArray
    ensures a.connection.None? ==> r.result == Failure(NoMethodError("query_options"))
    ensures r.session.Some? ==> r.session.value.rowFormat == AsHash && r.session.value.databaseTimezone == Some(tz)
    ensures r.result.Success? ==> run.Success?
    ensures r.ran && run.Failure? ==> r.result == Failure(run.error)
    ensures r.result == Success(EachReturned) <==> a.connection.Some? && r.ran && run.Success? && |run.value.rows| == 0
    ensures r.result.Success? && r.result.value.FirstRow? ==>
              && |run.value.rows| > 0 && r.result.value.row == run.value.rows[0]
              && r.adapter.connection.value.pendingResults == 0
              && !DrainRaises(failure, run.value.moreResults)
    // a `next_result` that raises inside `each` ends `select_one` with its error
    ensures a.connection.Some? && r.ran && run.Success? && |run.value.rows| > 0 ==>
              (r.result.Failure? <==> DrainRaises(failure, run.value.moreResults))
    ensures a.connection.Some? && r.ran && run.Success? && r.result.Failure? ==> r.result == Failure(failure.value.error)
  {
    if a.connection.None? then
      // `@connection.query_options` on nil, in the body and again in `ensure`
      Step(a, Failure(NoMethodError("query_options")), false, None)
    else
      var step := SelectResult(WithRowFormat(a, AsHash), hasBinds, sql, tz, prepare, run);
      var after := step.adapter;
      match step.result
      case Failure(e) => Step(WithRowFormat(after, AsArray), Failure(e), step.ran, step.session)
      case Success(res) =>
        if |res.rows| > 0 then
          var (client, raised) := Drain(after.connection.value, failure);
          var drained := after.(connection := Some(client));
          if raised.Some? then Step(WithRowFormat(drained, AsArray), Failure(raised.value), step.ran, step.session)
          else Step(WithRowFormat(drained, AsArray), Success(FirstRow(res.rows[0])), step.ran, step.session)
        else
          Step(WithRowFormat(after, AsArray), Success(EachReturned), step.ran, step.session)
  }

  /** As written, a statement whose first result set is empty but which has
      a second one leaves that second result set pending on the client, and
      `select_one` answers with `each`'s own value rather than nil. */
  lemma SelectOneAsWrittenLeavesResultsPending(c: Client, sql: string, tz: Timezone,
                                                failure: Option<NextResultFailure>)
    ensures
      var r := SelectOneAsWritten(NewAdapter(c), false, sql, tz, None, Success(RawResult([], 1)), failure);
      && r.result == Success(EachReturned)
      && r.adapter.connection.Some?
      && r.adapter.connection.value.pendingResults == 1
  {
  }

  /** `select_one(sql, binds)` as evidently intended: as written, except that
      pending result sets are drained after every successful run and an empty
      result answers nil. */
  function SelectOne(a: Adapter, hasBinds: bool, sql: string, tz: Timezone,
                     prepare: Option<Exception>, run: Result<RawResult, Exception>,
                     failure: Option<NextResultFailure>):
    (r: Step<Option<map<string, string>>>)
    ensures r.adapter.connection.Some? <==> a.connection.Some?
    ensures r.adapter.connection.Some? ==> r.adapter.connection.value.queryOptions.rowFormat == AsArray
    ensures a.connection.None? ==> r.result == Failure(NoMethodError("query_options"))
    ensures r.session.Some? ==> r.session.value.rowFormat == AsHash && r.session.value.databaseTimezone == Some(tz)
    ensures r.result.Success? ==> run.Success? && r.adapter.connection.Some? && r.adapter.connection.value.pendingResults == 0
    ensures r.result.Success? ==> (r.result.value.None? <==> |run.value.rows| == 0)
    ensures r.result.Success? && r.result.value.Some? ==> r.result.value.value == run.value.rows[0]
    ensures run.Failure? ==> r.result.Failure?
    ensures r.ran && run.Failure? ==> r.result == Failure(run.error)
    // a run that reached the driver succeeds unless draining raises, and then with that error
    ensures a.connection.Some? && r.ran && run.Success? ==>
              (r.result.Success? <==> !DrainRaises(failure, run.value.moreResults))
    ensures a.connection.Some? && r.ran && run.Success? && r.result.Failure? ==> r.result == Failure(failure.value.error)
    ensures !hasBinds && a.connection.Some? ==> r.ran
  {
    if a.connection.None? then
      Step(a, Failure(NoMethodError("query_options")), false, None)
    else
      var step := SelectResult(WithRowFormat(a, AsHash), hasBinds, sql, tz, prepare, run);
      var after := step.adapter;
      match step.result
      case Failure(e) => Step(WithRowFormat(after, AsArray), Failure(e), step.ran, step.session)
      case Success(res) =>
        var (client, raised) := Drain(after.connection.value, failure);
        var drained := after.(connection := Some(client));
        if raised.Some? then Step(WithRowFormat(drained, AsArray), Failure(raised.value), step.ran, step.session)
        else
          var first := if |res.rows| > 0 then Some(res.rows[0]) else None;
          Step(WithRowFormat(drained, AsArray), Success(first), step.ran, step.session)
  }

  /** The corrected `select_one` and the one as written agree whenever the
      result has a row, including when draining raises. */
  lemma SelectOneAgreesOnRows(a: Adapter, hasBinds: bool, sql: string, tz: Timezone,
                              prepare: Option<Exception>, run: Result<RawResult, Exception>,
                              failure: Option<NextResultFailure>)
    requires run.Success? && |run.value.rows| > 0
    ensures SelectOne(a, hasBinds, sql, tz, prepare, run, failure).adapter ==
            SelectOneAsWritten(a, hasBinds, sql, tz, prepare, run, failure).adapter
    ensures SelectOneAsWritten(a, hasBinds, sql, tz, prepare, run, failure).result.Success? ==>
              SelectOne(a, hasBinds, sql, tz, prepare, run, failure).result == Success(Some(run.value.rows[0]))
    ensures SelectOneAsWritten(a, hasBinds, sql, tz, prepare, run, failure).result.Failure? ==>
              SelectOne(a, hasBinds, sql, tz, prepare, run, failure).result.Failure? &&
              SelectOne(a, hasBinds, sql, tz, prepare, run, failure).result.error ==
              SelectOneAsWritten(a, hasBinds, sql, tz, prepare, run, failure).result.error
  {
  }

  /** `select_rows(sql, binds)`: the rows of the result, after draining
      pending result sets. */
  function SelectRows(a: Adapter, hasBinds: bool, sql: string, tz: Timezone,
                      prepare: Option<Exception>, run: Result<RawResult, Exception>,
                      failure: Option<NextResultFailure>):
    (r: Step<seq<map<string, string>>>)
    ensures r.result.Success? ==> run.Success? && r.result.value == run.value.rows
    ensures r.result.Success? ==> r.adapter.connection.Some? && r.adapter.connection.value.pendingResults == 0
    ensures run.Failure? ==> r.result.Failure?
    ensures r.ran && run.Failure? ==> r.result == Failure(run.error)
    ensures r.adapter.connection.Some? <==> a.connection.Some?
    ensures r.adapter.connection.Some? ==>
              r.adapter.connection.value.queryOptions.rowFormat == a.connection.value.queryOptions.rowFormat
    ensures r.session.Some? ==> r.session.value.databaseTimezone == Some(tz)
    // with a handle, a run that reached the driver succeeds unless draining raises
    ensures a.connection.Some? && r.ran && run.Success? ==>
              (r.result.Success? <==> !DrainRaises(failure, run.value.moreResults))
    ensures a.connection.Some? && r.ran && run.Success? && r.result.Failure? ==> r.result == Failure(failure.value.error)
  {
    var step := SelectResult(a, hasBinds, sql, tz, prepare, run);
    var after := step.adapter;
    match step.result
    case Failure(e) => Step(after, Failure(e), step.ran, step.session)
    case Success(res) =>
      if after.connection.None? then
        // a cached statement ran without a handle; `more_results?` is called on nil
        Step(after, Failure(NoMethodError("more_results?")), step.ran, step.session)
      else
        var (client, raised) := Drain(after.connection.value, failure);
        var drained := after.(connection := Some(client));
        if raised.Some? then Step(drained, Failure(raised.value), step.ran, step.session)
        else Step(drained, Success(res.rows), step.ran, step.session)
  }
}
