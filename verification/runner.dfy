/** The sql.js query runner: one session over an in-memory SQLite database whose
    writes are persisted by the driver's `autoSave` at defined checkpoints. Every
    operation is a pure step from a session state, given the answers of its
    collaborators, to the new state, the operation's outcome and its effect trace. */
module QueryRunner {
  import opened Wrappers
  import opened Params
  import opened Engine
  import opened Trace
  import opened Command

  /** The runner's state: its own `isDirty` flag and the inherited `isReleased`
      flag and transaction-active status. */
  datatype Session = Session(isDirty: bool, isReleased: bool, isTransactionActive: bool)

  /** A runner as the constructor leaves it. */
  const NewSession := Session(false, false, false)

  datatype QueryError =
    | QueryRunnerAlreadyReleased
    | QueryFailed(query: string, parameters: Option<seq<Value>>, cause: Cause)

  /** `QueryResult`: the modified-row count, the rows, and the raw payload. */
  datatype QueryResult = QueryResult(affected: nat, records: seq<Row>, raw: seq<Row>)

  /** What `query` resolves to: the whole result, or only its raw rows. */
  datatype QueryValue = Structured(result: QueryResult) | RawRows(rows: seq<Row>)

  /** The collaborators' answers during one call of `query`: the engine, the two
      `Date.now()` readings (before prepare, after bind) and the driver's
      `maxQueryExecutionTime` option (`None` when it is not set). */
  datatype QueryEnv = QueryEnv(
    statement: Statement,
    startTime: int,
    endTime: int,
    maxQueryExecutionTime: Option<int>)

  datatype QueryStep = QueryStep(session: Session, outcome: Result<QueryValue, QueryError>, trace: seq<Event>)

  /** The step of an operation that resolves to nothing (`flush`, `release`,
      `commitTransaction`); errors of collaborators are propagated as they are. */
  datatype Step = Step(session: Session, outcome: Outcome<Cause>, trace: seq<Event>)

  /** The step of a migration hook, which awaits a query and resolves to nothing. */
  datatype HookStep = HookStep(session: Session, outcome: Outcome<QueryError>, trace: seq<Event>)

  /** The inherited `release` as an oracle: it either completes, reporting
      whether it marked the runner released, or throws. */
  datatype ReleaseAnswer = Released(marksReleased: bool) | ReleaseFailed(cause: Cause)

  /** The inherited `commitTransaction` as an oracle: it either completes, after
      which a transaction may or may not still be active, or throws. Its COMMIT
      or RELEASE SAVEPOINT statement goes through this runner's own `query`, so a
      completed commit reports whether that statement marked the runner dirty. */
  datatype CommitAnswer = Committed(stillActive: bool, dirtied: bool) | CommitFailed(cause: Cause)

  /** JavaScript truthiness of the option (unset and 0 are falsy) and a strictly
      greater measured time. */
  predicate LogsSlowQuery(maxQueryExecutionTime: Option<int>, executionTime: int) {
    && maxQueryExecutionTime.Some?
    && maxQueryExecutionTime.value != 0
    && executionTime > maxQueryExecutionTime.value
  }

  /** Whether the code reaches `statement.bind`: only for a non-null list. */
  predicate Binds(parameters: Option<seq<Value>>) {
    parameters.Some?
  }

  /** The first engine answer that throws along the prepare, bind, step path. */
  function FirstFailure(st: Statement, parameters: Option<seq<Value>>): Option<Cause> {
    if st.prepare.Fail? then Some(st.prepare.error)
    else if Binds(parameters) && st.bind.Fail? then Some(st.bind.error)
    else if st.stepEnd.Fail? then Some(st.stepEnd.error)
    else None
  }

  /** The parameters the catch block reports: the original list when `prepare`
      threw (the mapping was not reached), the normalised one otherwise. */
  function ReportedParameters(st: Statement, parameters: Option<seq<Value>>): Option<seq<Value>> {
    if st.prepare.Fail? then parameters else NormaliseList(parameters)
  }

  /** The query is logged, then announced to the BeforeQuery subscribers. */
  function Opening(query: string, parameters: Option<seq<Value>>): seq<Event> {
    [LogQuery(query, parameters), BroadcastBefore(query, parameters)]
  }

  /** The bind, made only for a non-null list. */
  function Binding(bound: Option<seq<Value>>): seq<Event> {
    if Binds(bound) then [Bind(bound.value)] else []
  }

  /** The slow-query log, written only past the threshold. */
  function SlowLog(query: string, bound: Option<seq<Value>>, executionTime: int, maxQueryExecutionTime: Option<int>): seq<Event> {
    if LogsSlowQuery(maxQueryExecutionTime, executionTime) then [LogSlow(executionTime, query, bound)] else []
  }

  /** After the rows are drained: the success broadcast, the free, and the await
      of the finally block. */
  function Succeeding(query: string, bound: Option<seq<Value>>, executionTime: int, records: seq<Row>): seq<Event> {
    [BroadcastAfter(true, query, bound, Some(executionTime), Some(records), None), Free, AwaitSubscribers]
  }

  /** The rest of the catch block and the finally block: the error is logged, the
      failure broadcast, and subscribers awaited. */
  function Failing(query: string, reported: Option<seq<Value>>, cause: Cause): seq<Event> {
    [LogError(cause, query, reported),
     BroadcastAfter(false, query, reported, None, None, Some(cause)),
     AwaitSubscribers]
  }

  /** A failed call: `before` already holds `Free` when a statement exists; the
      error is rethrown wrapped in `QueryFailedError`. */
  function FailQuery(s: Session, query: string, reported: Option<seq<Value>>, cause: Cause, before: seq<Event>): QueryStep {
    QueryStep(s, Failure(QueryFailed(query, reported, cause)), before + Failing(query, reported, cause))
  }

  /** `query(query, parameters, useStructuredResult)`; the code's default
      parameter list is `Some([])`, and `None` stands for an explicit `null`. */
  function Query(s: Session, query: string, parameters: Option<seq<Value>>, useStructuredResult: bool, env: QueryEnv): (r: QueryStep)
    ensures s.isReleased ==> r == QueryStep(s, Failure(QueryRunnerAlreadyReleased), [])
    ensures r.outcome.Success? <==> !s.isReleased && FirstFailure(env.statement, parameters).None?
    ensures r.outcome.Failure? ==> r.session == s
    ensures r.outcome.Success? ==> r.session == s.(isDirty := s.isDirty || !IsRead(query))
    ensures r.outcome.Success? && useStructuredResult ==>
      r.outcome.value.Structured?
      && r.outcome.value.result.records == env.statement.rows
      && r.outcome.value.result.raw == r.outcome.value.result.records
      && r.outcome.value.result.affected == env.statement.rowsModified
    ensures r.outcome.Success? && !useStructuredResult ==> r.outcome.value == RawRows(env.statement.rows)
    ensures r.outcome.Failure? && !s.isReleased ==>
      r.outcome.error == QueryFailed(query, ReportedParameters(env.statement, parameters),
                                     FirstFailure(env.statement, parameters).value)
  {
    if s.isReleased then QueryStep(s, Failure(QueryRunnerAlreadyReleased), [])
    else
      var st := env.statement;
      if st.prepare.Fail? then
        FailQuery(s, query, parameters, st.prepare.error, Opening(query, parameters) + [Prepare(query, false)])
      else
        var bound := NormaliseList(parameters);
        var prepared := Opening(query, parameters) + [Prepare(query, true)] + Binding(bound);
        if Binds(bound) && st.bind.Fail? then
          FailQuery(s, query, bound, st.bind.error, prepared + [Free])
        else
          var executionTime := env.endTime - env.startTime;
          var timed := prepared + SlowLog(query, bound, executionTime, env.maxQueryExecutionTime);
          match Drained(st)
          case Failure(cause) => FailQuery(s, query, bound, cause, timed + [Free])
          case Success(records) =>
            var result := QueryResult(st.rowsModified, records, records);
            QueryStep(
              if CommandKeyword(query) != "SELECT" then s.(isDirty := true) else s,
              Success(if useStructuredResult then Structured(result) else RawRows(result.raw)),
              timed + Succeeding(query, bound, executionTime, records))
  }

  /** `flush`: saves through the driver only when dirty, and clears the flag only
      once the save has succeeded. */
  function Flush(s: Session, autoSave: Outcome<Cause>): (r: Step)
    ensures Count(r.trace, AutoSaveKind) == if s.isDirty then 1 else 0
    ensures |r.trace| == Count(r.trace, AutoSaveKind)
    ensures r.outcome.Pass? <==> !s.isDirty || autoSave.Pass?
    ensures r.outcome.Pass? ==> r.session == s.(isDirty := false)
    ensures r.outcome.Fail? ==> r.session == s && s.isDirty && r.outcome == autoSave
  {
    if !s.isDirty then Step(s, Pass, [])
    else match autoSave
      case Pass => Step(s.(isDirty := false), Pass, [AutoSave(true)])
      case Fail(cause) => Step(s, Fail(cause), [AutoSave(false)])
  }

  /** `release`: flushes, then delegates to the inherited release; a failed flush
      stops it. */
  function Release(s: Session, autoSave: Outcome<Cause>, inherited: ReleaseAnswer): (r: Step)
    ensures Count(r.trace, AutoSaveKind) == if s.isDirty then 1 else 0
    ensures Count(r.trace, InheritedReleaseKind) == if Flush(s, autoSave).outcome.Pass? then 1 else 0
    ensures Flush(s, autoSave).trace <= r.trace
    ensures r.outcome.Pass? <==> Flush(s, autoSave).outcome.Pass? && inherited.Released?
    ensures r.outcome.Pass? ==>
      r.session == s.(isDirty := false, isReleased := s.isReleased || inherited.marksReleased)
    ensures r.outcome.Fail? ==> r.session.isReleased == s.isReleased
    ensures r.session.isDirty <==> s.isDirty && autoSave.Fail?
    ensures r.outcome.Fail? ==>
      r.outcome == if s.isDirty && autoSave.Fail? then autoSave else Fail(inherited.cause)
    ensures r.session.isReleased ==> s.isReleased || (inherited.Released? && inherited.marksReleased)
    ensures r.session.isTransactionActive == s.isTransactionActive
  {
    var f := Flush(s, autoSave);
    if f.outcome.Fail? then f
    else
      CountAppendAll(f.trace, [InheritedRelease(inherited.Released?)]);
      match inherited
      case Released(marksReleased) =>
        Step(f.session.(isReleased := f.session.isReleased || marksReleased), Pass, f.trace + [InheritedRelease(true)])
      case ReleaseFailed(cause) => Step(f.session, Fail(cause), f.trace + [InheritedRelease(false)])
  }

  /** `commitTransaction`: the inherited commit first, whose statement may mark
      the runner dirty; a flush only when it succeeded and no transaction is
      active any more. */
  function CommitTransaction(s: Session, commit: CommitAnswer, autoSave: Outcome<Cause>): (r: Step)
    ensures commit.CommitFailed? ==> r == Step(s, Fail(commit.cause), [InheritedCommit(false)])
    ensures r.trace != [] && r.trace[0] == InheritedCommit(commit.Committed?)
    ensures Count(r.trace, AutoSaveKind) ==
      if commit.Committed? && !commit.stillActive && (s.isDirty || commit.dirtied) then 1 else 0
    ensures commit.Committed? ==>
      r.session.isTransactionActive == commit.stillActive && r.session.isReleased == s.isReleased
    ensures r.outcome.Pass? <==>
      commit.Committed? && (commit.stillActive || !(s.isDirty || commit.dirtied) || autoSave.Pass?)
    ensures commit.Committed? && r.outcome.Fail? ==> r.outcome == autoSave
    ensures r.session.isDirty <==>
      (s.isDirty || (commit.Committed? && commit.dirtied))
      && !(commit.Committed? && !commit.stillActive && autoSave.Pass?)
  {
    match commit
    case CommitFailed(cause) => Step(s, Fail(cause), [InheritedCommit(false)])
    case Committed(stillActive, dirtied) =>
      var committed := s.(isTransactionActive := stillActive, isDirty := s.isDirty || dirtied);
      if stillActive then Step(committed, Pass, [InheritedCommit(true)])
      else
        var f := Flush(committed, autoSave);
        CountAppend([InheritedCommit(true)], f.trace, AutoSaveKind);
        Step(f.session, f.outcome, [InheritedCommit(true)] + f.trace)
  }

  /** Awaits a query and drops its value, as the migration hooks do. */
  function AwaitQuery(q: QueryStep): HookStep {
    HookStep(q.session, if q.outcome.Success? then Pass else Fail(q.outcome.error), q.trace)
  }

  const ForeignKeysOff := "PRAGMA foreign_keys = OFF"
  const ForeignKeysOn := "PRAGMA foreign_keys = ON"

  /** `beforeMigration`: turns foreign-key enforcement off, with no parameters. */
  function BeforeMigration(s: Session, env: QueryEnv): HookStep {
    AwaitQuery(Query(s, ForeignKeysOff, Some([]), false, env))
  }

  /** `afterMigration`: turns foreign-key enforcement back on. */
  function AfterMigration(s: Session, env: QueryEnv): HookStep {
    AwaitQuery(Query(s, ForeignKeysOn, Some([]), false, env))
  }
}
