/** Properties of the runner across calls: flushing is idempotent and retryable,
    a released runner refuses queries, the migration hooks count as writes, and
    over any sequence of calls a runner that only reads never saves. */
module SessionProperties {
  import opened Wrappers
  import opened Params
  import opened Engine
  import opened Trace
  import opened Command
  import opened QueryRunner
  import opened QueryProperties

  /** A second flush with no write in between calls `autoSave` no more. */
  lemma FlushIdempotent(s: Session, first: Outcome<Cause>, second: Outcome<Cause>)
    ensures var f := Flush(s, first);
            f.outcome.Pass? ==> Flush(f.session, second) == Step(f.session, Pass, [])
  {
  }

  /** A failed save leaves the runner dirty, so the next flush tries again. */
  lemma FlushRetriesAfterFailure(s: Session, first: Outcome<Cause>, second: Outcome<Cause>)
    ensures var f := Flush(s, first);
            f.outcome.Fail? ==>
              && f.session.isDirty
              && Flush(f.session, second).trace == [AutoSave(second.Pass?)]
  {
  }

  /** Once a release has marked the runner released, every query fails with
      QueryRunnerAlreadyReleasedError, with no effect and no change of state. */
  lemma QueryAfterRelease(s: Session, autoSave: Outcome<Cause>, inherited: ReleaseAnswer,
                          query: string, parameters: Option<seq<Value>>, useStructuredResult: bool, env: QueryEnv)
    ensures var r := Release(s, autoSave, inherited);
            r.session.isReleased ==>
              Query(r.session, query, parameters, useStructuredResult, env)
                == QueryStep(r.session, Failure(QueryRunnerAlreadyReleased), [])
  {
  }

  /** A release whose inherited part does not mark the runner released leaves it
      serving queries: the next query has the outcome and the effects it would
      have had before the release. */
  lemma QueryAfterKeepingRelease(s: Session, autoSave: Outcome<Cause>,
                                 query: string, parameters: Option<seq<Value>>, useStructuredResult: bool, env: QueryEnv)
    ensures var r := Release(s, autoSave, Released(false));
            r.outcome.Pass? ==>
              && r.session == s.(isDirty := false)
              && Query(r.session, query, parameters, useStructuredResult, env).outcome
                   == Query(s, query, parameters, useStructuredResult, env).outcome
              && Query(r.session, query, parameters, useStructuredResult, env).trace
                   == Query(s, query, parameters, useStructuredResult, env).trace
  {
  }

  /** The statements of the migration hooks are classified as writes. */
  lemma ForeignKeysStatementsAreWrites()
    ensures !IsRead(ForeignKeysOff) && !IsRead(ForeignKeysOn)
  {
    ForeignKeysOffIsWrite();
    ForeignKeysOnIsWrite();
  }

  lemma ForeignKeysOffIsWrite()
    ensures CommandKeyword(ForeignKeysOff) == "PRAGMA"
  {
    KeywordOf(ForeignKeysOff, "PRAGMA");
  }

  lemma ForeignKeysOnIsWrite()
    ensures CommandKeyword(ForeignKeysOn) == "PRAGMA"
  {
    KeywordOf(ForeignKeysOn, "PRAGMA");
  }

  /** `beforeMigration` issues its PRAGMA with the default empty parameter list;
      when it succeeds the runner is dirty, when it fails nothing changes. */
  lemma BeforeMigrationIsWrite(s: Session, env: QueryEnv)
    ensures var b := BeforeMigration(s, env);
            && (b.outcome.Pass? ==> b.session == s.(isDirty := true))
            && (b.outcome.Fail? ==> b.session == s)
            && (!s.isReleased ==> b.trace[0] == LogQuery(ForeignKeysOff, Some([])))
  {
    ForeignKeysOffIsWrite();
    WriteHook(s, ForeignKeysOff, env);
  }

  /** `afterMigration` likewise, with foreign keys turned back on. */
  lemma AfterMigrationIsWrite(s: Session, env: QueryEnv)
    ensures var a := AfterMigration(s, env);
            && (a.outcome.Pass? ==> a.session == s.(isDirty := true))
            && (a.outcome.Fail? ==> a.session == s)
            && (!s.isReleased ==> a.trace[0] == LogQuery(ForeignKeysOn, Some([])))
  {
    ForeignKeysOnIsWrite();
    WriteHook(s, ForeignKeysOn, env);
  }

  /** A hook that awaits a write statement with no parameters. */
  lemma WriteHook(s: Session, statement: string, env: QueryEnv)
    requires !IsRead(statement)
    ensures var h := AwaitQuery(Query(s, statement, Some([]), false, env));
            && (h.outcome.Pass? ==> h.session == s.(isDirty := true))
            && (h.outcome.Fail? ==> h.session == s)
            && (!s.isReleased ==> |h.trace| >= 1 && h.trace[0] == LogQuery(statement, Some([])))
  {
    if !s.isReleased {
      QueryAnnouncedFirst(s, statement, Some([]), false, env);
    }
  }

  /** An INSERT on a fresh runner whose engine reports one modified row: the
      runner becomes dirty and the structured result has no rows and affected = 1. */
  lemma InsertOnFreshRunner(env: QueryEnv)
    requires env.statement == Statement(Pass, Pass, [], Pass, 1)
    ensures var r := Query(NewSession, "INSERT INTO t VALUES (1)", Some([]), true, env);
            && r.session.isDirty
            && r.outcome == Success(Structured(QueryResult(1, [], [])))
  {
    KeywordOf("INSERT INTO t VALUES (1)", "INSERT");
  }

  /** A commit inside an outer transaction never saves, but what it or the work
      before it wrote is still saved, once, by the outermost commit. */
  lemma NestedCommitDefersSave(s: Session, inner: CommitAnswer, outer: CommitAnswer,
                               firstSave: Outcome<Cause>, secondSave: Outcome<Cause>)
    ensures var n := CommitTransaction(s, inner, firstSave);
            inner.Committed? && inner.stillActive ==>
              && Count(n.trace, AutoSaveKind) == 0
              && (outer.Committed? && !outer.stillActive ==>
                    Count(CommitTransaction(n.session, outer, secondSave).trace, AutoSaveKind)
                      == if s.isDirty || inner.dirtied || outer.dirtied then 1 else 0)
  {
  }

  /** After an outermost commit whose save succeeded, releasing the runner does
      not save again. */
  lemma CommitThenReleaseSavesOnce(s: Session, commit: CommitAnswer, commitSave: Outcome<Cause>,
                                   releaseSave: Outcome<Cause>, inheritedRelease: ReleaseAnswer)
    ensures var c := CommitTransaction(s, commit, commitSave);
            c.outcome.Pass? && !c.session.isTransactionActive ==>
              && !c.session.isDirty
              && Count(Release(c.session, releaseSave, inheritedRelease).trace, AutoSaveKind) == 0
  {
  }

  /** One call on the runner, with its collaborators' answers. A call that throws
      does not stop the caller from making the next one. */
  datatype Call =
    | CallQuery(query: string, parameters: Option<seq<Value>>, useStructuredResult: bool, env: QueryEnv)
    | CallRelease(autoSave: Outcome<Cause>, inheritedRelease: ReleaseAnswer)
    | CallCommit(commit: CommitAnswer, autoSave: Outcome<Cause>)
    | CallBeforeMigration(env: QueryEnv)
    | CallAfterMigration(env: QueryEnv)

  datatype Run = Run(session: Session, trace: seq<Event>)

  function Apply(s: Session, c: Call): Run {
    match c
    case CallQuery(query, parameters, useStructuredResult, env) =>
      var r := Query(s, query, parameters, useStructuredResult, env); Run(r.session, r.trace)
    case CallRelease(autoSave, inheritedRelease) =>
      var r := Release(s, autoSave, inheritedRelease); Run(r.session, r.trace)
    case CallCommit(commit, autoSave) =>
      var r := CommitTransaction(s, commit, autoSave); Run(r.session, r.trace)
    case CallBeforeMigration(env) =>
      var r := BeforeMigration(s, env); Run(r.session, r.trace)
    case CallAfterMigration(env) =>
      var r := AfterMigration(s, env); Run(r.session, r.trace)
  }

  /** The calls in order, each from the state the previous one left. */
  function RunCalls(s: Session, calls: seq<Call>): Run
    decreases |calls|
  {
    if calls == [] then Run(s, [])
    else
      var first := Apply(s, calls[0]);
      var rest := RunCalls(first.session, calls[1..]);
      Run(rest.session, first.trace + rest.trace)
  }

  /** A call that cannot mark the runner dirty: a query classified as a read, or
      a release. A commit is not one: its statement goes through `query` and is
      not a SELECT. */
  predicate ReadOnly(c: Call) {
    match c
    case CallQuery(query, _, _, _) => IsRead(query)
    case CallRelease(_, _) => true
    case CallCommit(_, _) => false
    case CallBeforeMigration(_) => false
    case CallAfterMigration(_) => false
  }

  lemma ReadOnlyCallNeverSaves(s: Session, c: Call)
    requires !s.isDirty && ReadOnly(c)
    ensures !Apply(s, c).session.isDirty
    ensures Count(Apply(s, c).trace, AutoSaveKind) == 0
  {
    if c.CallQuery? && !s.isReleased {
      QueryCounts(s, c.query, c.parameters, c.useStructuredResult, c.env, AutoSaveKind);
    }
  }

  /** A clean runner that is only given reads and releases stays clean
      and never calls `autoSave`, however the collaborators answer. */
  lemma {:induction false} ReadsNeverSave(s: Session, calls: seq<Call>)
    requires !s.isDirty
    requires forall i :: 0 <= i < |calls| ==> ReadOnly(calls[i])
    ensures !RunCalls(s, calls).session.isDirty
    ensures Count(RunCalls(s, calls).trace, AutoSaveKind) == 0
    decreases |calls|
  {
    if calls != [] {
      var first := Apply(s, calls[0]);
      ReadOnlyCallNeverSaves(s, calls[0]);
      ReadsNeverSave(first.session, calls[1..]);
      CountAppend(first.trace, RunCalls(first.session, calls[1..]).trace, AutoSaveKind);
    }
  }

  /** Queries and migration hooks never clear the dirty flag: only a flush,
      reached through a release or an outermost commit, does. */
  lemma {:induction false} DirtyUntilFlushed(s: Session, calls: seq<Call>)
    requires s.isDirty
    requires forall i :: 0 <= i < |calls| ==> !calls[i].CallRelease? && !calls[i].CallCommit?
    ensures RunCalls(s, calls).session.isDirty
    ensures Count(RunCalls(s, calls).trace, AutoSaveKind) == 0
    decreases |calls|
  {
    if calls != [] {
      var first := Apply(s, calls[0]);
      DirtyCallKeepsDirty(s, calls[0]);
      DirtyUntilFlushed(first.session, calls[1..]);
      CountAppend(first.trace, RunCalls(first.session, calls[1..]).trace, AutoSaveKind);
    }
  }

  lemma DirtyCallKeepsDirty(s: Session, c: Call)
    requires s.isDirty && !c.CallRelease? && !c.CallCommit?
    ensures Apply(s, c).session.isDirty
    ensures Count(Apply(s, c).trace, AutoSaveKind) == 0
  {
    if !s.isReleased {
      match c
      case CallQuery(query, parameters, useStructuredResult, env) =>
        QueryCounts(s, query, parameters, useStructuredResult, env, AutoSaveKind);
      case CallBeforeMigration(env) =>
        QueryCounts(s, ForeignKeysOff, Some([]), false, env, AutoSaveKind);
      case CallAfterMigration(env) =>
        QueryCounts(s, ForeignKeysOn, Some([]), false, env, AutoSaveKind);
    }
  }
}
