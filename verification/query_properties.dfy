/** Properties of one `query` call stated on its effect trace: the prepared
    statement is freed on every path, the outcome is reported exactly once, the
    slow-query log fires exactly when the threshold is exceeded, and what is bound
    and reported are the normalised parameters. */
module QueryProperties {
  import opened Wrappers
  import opened Params
  import opened Engine
  import opened Trace
  import opened QueryRunner

  /** Whether `prepare` produced a statement. */
  predicate Prepared(st: Statement) {
    st.prepare.Pass?
  }

  /** Whether the code after `bind` (the timing and the step loop) is reached. */
  predicate Stepped(st: Statement, parameters: Option<seq<Value>>) {
    Prepared(st) && !(Binds(parameters) && st.bind.Fail?)
  }

  /** How many events of kind `k` a `query` call on an unreleased runner emits,
      written from which collaborator answers fail and independently of the order
      of the events. */
  function ExpectedCount(st: Statement, parameters: Option<seq<Value>>, slow: bool, k: Kind): nat {
    match k
    case LogQueryKind => 1
    case BroadcastBeforeKind => 1
    case PrepareKind => 1
    case AwaitKind => 1
    case BindKind => if Prepared(st) && Binds(parameters) then 1 else 0
    case LogSlowKind => if Stepped(st, parameters) && slow then 1 else 0
    case FreeKind => if Prepared(st) then 1 else 0
    case AfterSuccessKind => if FirstFailure(st, parameters).None? then 1 else 0
    case AfterFailureKind => if FirstFailure(st, parameters).Some? then 1 else 0
    case LogErrorKind => if FirstFailure(st, parameters).Some? then 1 else 0
    case AutoSaveKind => 0
    case InheritedCommitKind => 0
    case InheritedReleaseKind => 0
  }

  /** The events of one `query` call on an unreleased runner, counted by kind. */
  lemma QueryCounts(s: Session, query: string, parameters: Option<seq<Value>>, useStructuredResult: bool, env: QueryEnv, k: Kind)
    requires !s.isReleased
    ensures Count(Query(s, query, parameters, useStructuredResult, env).trace, k)
         == ExpectedCount(env.statement, parameters,
                          LogsSlowQuery(env.maxQueryExecutionTime, env.endTime - env.startTime), k)
  {
    var st := env.statement;
    if st.prepare.Fail? {
      CountPrepareFails(s, query, parameters, useStructuredResult, env, k);
    } else if Binds(parameters) && st.bind.Fail? {
      CountBindFails(s, query, parameters, useStructuredResult, env, k);
    } else if st.stepEnd.Fail? {
      CountStepFails(s, query, parameters, useStructuredResult, env, k);
    } else {
      CountSucceeds(s, query, parameters, useStructuredResult, env, k);
    }
  }

  /** Everything up to the end of the step loop on a path that reaches it. */
  function Timed(query: string, parameters: Option<seq<Value>>, env: QueryEnv): seq<Event> {
    var bound := NormaliseList(parameters);
    Opening(query, parameters) + [Prepare(query, true)] + Binding(bound)
    + SlowLog(query, bound, env.endTime - env.startTime, env.maxQueryExecutionTime)
  }

  function BindEvents(parameters: Option<seq<Value>>): seq<Event> {
    Binding(NormaliseList(parameters))
  }

  function SlowEvents(query: string, parameters: Option<seq<Value>>, env: QueryEnv): seq<Event> {
    SlowLog(query, NormaliseList(parameters), env.endTime - env.startTime, env.maxQueryExecutionTime)
  }

  function SuccessEvents(query: string, parameters: Option<seq<Value>>, env: QueryEnv): seq<Event> {
    Succeeding(query, NormaliseList(parameters), env.endTime - env.startTime, env.statement.rows)
  }

  /** The trace of each path, as the concatenation of its phases. */
  lemma TraceWhenPrepareFails(s: Session, query: string, parameters: Option<seq<Value>>, useStructuredResult: bool, env: QueryEnv)
    requires !s.isReleased && env.statement.prepare.Fail?
    ensures Query(s, query, parameters, useStructuredResult, env).trace
         == FailQuery(s, query, parameters, env.statement.prepare.error,
                      Opening(query, parameters) + [Prepare(query, false)]).trace
  {
  }

  lemma TraceWhenBindFails(s: Session, query: string, parameters: Option<seq<Value>>, useStructuredResult: bool, env: QueryEnv)
    requires !s.isReleased && env.statement.prepare.Pass? && Binds(parameters) && env.statement.bind.Fail?
    ensures Query(s, query, parameters, useStructuredResult, env).trace
         == FailQuery(s, query, NormaliseList(parameters), env.statement.bind.error,
                      Opening(query, parameters) + [Prepare(query, true)] + BindEvents(parameters) + [Free]).trace
  {
  }

  lemma TraceWhenStepFails(s: Session, query: string, parameters: Option<seq<Value>>, useStructuredResult: bool, env: QueryEnv)
    requires !s.isReleased && Stepped(env.statement, parameters) && env.statement.stepEnd.Fail?
    ensures Query(s, query, parameters, useStructuredResult, env).trace
         == FailQuery(s, query, NormaliseList(parameters), env.statement.stepEnd.error,
                      Timed(query, parameters, env) + [Free]).trace
  {
  }

  lemma TraceWhenSucceeds(s: Session, query: string, parameters: Option<seq<Value>>, useStructuredResult: bool, env: QueryEnv)
    requires !s.isReleased && Stepped(env.statement, parameters) && env.statement.stepEnd.Pass?
    ensures Query(s, query, parameters, useStructuredResult, env).trace
         == Timed(query, parameters, env) + SuccessEvents(query, parameters, env)
  {
  }

  lemma CountFailQuery(s: Session, query: string, reported: Option<seq<Value>>, cause: Cause, before: seq<Event>, k: Kind)
    ensures Count(FailQuery(s, query, reported, cause, before).trace, k)
         == Count(before, k) + One(LogError(cause, query, reported), k)
            + One(BroadcastAfter(false, query, reported, None, None, Some(cause)), k) + One(AwaitSubscribers, k)
  {
    var tail := Failing(query, reported, cause);
    CountAppend(before, tail, k);
    CountTriple(tail[0], tail[1], tail[2], k);
  }

  lemma CountPrepared(query: string, parameters: Option<seq<Value>>, k: Kind)
    ensures Count(Opening(query, parameters) + [Prepare(query, true)] + BindEvents(parameters), k)
         == One(LogQuery(query, parameters), k) + One(BroadcastBefore(query, parameters), k)
            + One(Prepare(query, true), k) + (if Binds(parameters) && k == BindKind then 1 else 0)
  {
    CountPair(LogQuery(query, parameters), BroadcastBefore(query, parameters), k);
    CountAppend(Opening(query, parameters), [Prepare(query, true)], k);
    CountAppend(Opening(query, parameters) + [Prepare(query, true)], BindEvents(parameters), k);
  }

  lemma CountTimed(query: string, parameters: Option<seq<Value>>, env: QueryEnv, k: Kind)
    ensures Count(Timed(query, parameters, env), k)
         == One(LogQuery(query, parameters), k) + One(BroadcastBefore(query, parameters), k)
            + One(Prepare(query, true), k) + (if Binds(parameters) && k == BindKind then 1 else 0)
            + (if LogsSlowQuery(env.maxQueryExecutionTime, env.endTime - env.startTime) && k == LogSlowKind then 1 else 0)
  {
    CountPrepared(query, parameters, k);
    CountAppend(Opening(query, parameters) + [Prepare(query, true)] + BindEvents(parameters),
                SlowEvents(query, parameters, env), k);
  }

  lemma CountPrepareFails(s: Session, query: string, parameters: Option<seq<Value>>, useStructuredResult: bool, env: QueryEnv, k: Kind)
    requires !s.isReleased && env.statement.prepare.Fail?
    ensures Count(Query(s, query, parameters, useStructuredResult, env).trace, k)
         == ExpectedCount(env.statement, parameters,
                          LogsSlowQuery(env.maxQueryExecutionTime, env.endTime - env.startTime), k)
  {
    var before := Opening(query, parameters) + [Prepare(query, false)];
    TraceWhenPrepareFails(s, query, parameters, useStructuredResult, env);
    CountPair(LogQuery(query, parameters), BroadcastBefore(query, parameters), k);
    CountAppend(Opening(query, parameters), [Prepare(query, false)], k);
    CountFailQuery(s, query, parameters, env.statement.prepare.error, before, k);
  }

  lemma CountBindFails(s: Session, query: string, parameters: Option<seq<Value>>, useStructuredResult: bool, env: QueryEnv, k: Kind)
    requires !s.isReleased && env.statement.prepare.Pass? && Binds(parameters) && env.statement.bind.Fail?
    ensures Count(Query(s, query, parameters, useStructuredResult, env).trace, k)
         == ExpectedCount(env.statement, parameters,
                          LogsSlowQuery(env.maxQueryExecutionTime, env.endTime - env.startTime), k)
  {
    TraceWhenBindFails(s, query, parameters, useStructuredResult, env);
    CountBindFailure(s, query, parameters, env.statement.bind.error, k);
  }

  lemma CountBindFailure(s: Session, query: string, parameters: Option<seq<Value>>, cause: Cause, k: Kind)
    requires Binds(parameters)
    ensures Count(FailQuery(s, query, NormaliseList(parameters), cause,
                            Opening(query, parameters) + [Prepare(query, true)] + BindEvents(parameters) + [Free]).trace, k)
         == (if k in {LogQueryKind, BroadcastBeforeKind, PrepareKind, BindKind, FreeKind,
                      LogErrorKind, AfterFailureKind, AwaitKind} then 1 else 0)
  {
    var prepared := Opening(query, parameters) + [Prepare(query, true)] + BindEvents(parameters);
    CountPrepared(query, parameters, k);
    CountAppend(prepared, [Free], k);
    CountFailQuery(s, query, NormaliseList(parameters), cause, prepared + [Free], k);
  }

  lemma CountStepFails(s: Session, query: string, parameters: Option<seq<Value>>, useStructuredResult: bool, env: QueryEnv, k: Kind)
    requires !s.isReleased && Stepped(env.statement, parameters) && env.statement.stepEnd.Fail?
    ensures Count(Query(s, query, parameters, useStructuredResult, env).trace, k)
         == ExpectedCount(env.statement, parameters,
                          LogsSlowQuery(env.maxQueryExecutionTime, env.endTime - env.startTime), k)
  {
    TraceWhenStepFails(s, query, parameters, useStructuredResult, env);
    CountStepFailure(s, query, parameters, env, env.statement.stepEnd.error, k);
  }

  lemma CountStepFailure(s: Session, query: string, parameters: Option<seq<Value>>, env: QueryEnv, cause: Cause, k: Kind)
    ensures Count(FailQuery(s, query, NormaliseList(parameters), cause, Timed(query, parameters, env) + [Free]).trace, k)
         == (if k in {LogQueryKind, BroadcastBeforeKind, PrepareKind, FreeKind,
                      LogErrorKind, AfterFailureKind, AwaitKind} then 1
             else if k == BindKind && Binds(parameters) then 1
             else if k == LogSlowKind && LogsSlowQuery(env.maxQueryExecutionTime, env.endTime - env.startTime) then 1
             else 0)
  {
    var timed := Timed(query, parameters, env);
    CountTimed(query, parameters, env, k);
    CountAppend(timed, [Free], k);
    CountFailQuery(s, query, NormaliseList(parameters), cause, timed + [Free], k);
  }

  lemma CountSucceeds(s: Session, query: string, parameters: Option<seq<Value>>, useStructuredResult: bool, env: QueryEnv, k: Kind)
    requires !s.isReleased && Stepped(env.statement, parameters) && env.statement.stepEnd.Pass?
    ensures Count(Query(s, query, parameters, useStructuredResult, env).trace, k)
         == ExpectedCount(env.statement, parameters,
                          LogsSlowQuery(env.maxQueryExecutionTime, env.endTime - env.startTime), k)
  {
    TraceWhenSucceeds(s, query, parameters, useStructuredResult, env);
    CountSuccessTrace(query, parameters, env, k);
  }

  lemma CountSuccessTrace(query: string, parameters: Option<seq<Value>>, env: QueryEnv, k: Kind)
    requires Stepped(env.statement, parameters) && env.statement.stepEnd.Pass?
    ensures Count(Timed(query, parameters, env) + SuccessEvents(query, parameters, env), k)
         == ExpectedCount(env.statement, parameters,
                          LogsSlowQuery(env.maxQueryExecutionTime, env.endTime - env.startTime), k)
  {
    CountTimed(query, parameters, env, k);
    CountSuccessEvents(query, parameters, env, k);
    CountAppend(Timed(query, parameters, env), SuccessEvents(query, parameters, env), k);
    assert FirstFailure(env.statement, parameters).None?;
  }

  lemma CountSuccessEvents(query: string, parameters: Option<seq<Value>>, env: QueryEnv, k: Kind)
    ensures Count(SuccessEvents(query, parameters, env), k)
         == (if k == AfterSuccessKind || k == FreeKind || k == AwaitKind then 1 else 0)
  {
    var closing := SuccessEvents(query, parameters, env);
    CountTriple(closing[0], closing[1], closing[2], k);
  }

  /** Every prepared statement is freed, exactly once, before `query` returns or
      throws; nothing is freed when `prepare` itself threw; the finally block's
      await is the last thing that happens. */
  lemma QueryFreesStatement(s: Session, query: string, parameters: Option<seq<Value>>, useStructuredResult: bool, env: QueryEnv)
    requires !s.isReleased
    ensures var t := Query(s, query, parameters, useStructuredResult, env).trace;
            && StatementsFreed(t)
            && Count(t, PrepareKind) == 1
            && Count(t, FreeKind) == (if env.statement.prepare.Pass? then 1 else 0)
            && t != [] && t[|t| - 1] == AwaitSubscribers
  {
    QueryCounts(s, query, parameters, useStructuredResult, env, PrepareKind);
    QueryCounts(s, query, parameters, useStructuredResult, env, FreeKind);
    var st := env.statement;
    LifecycleOpening(query, parameters);
    if st.prepare.Fail? {
      TraceWhenPrepareFails(s, query, parameters, useStructuredResult, env);
      LifecycleAppend(Opening(query, parameters), [Prepare(query, false)], false);
      LifecycleFailQuery(s, query, parameters, st.prepare.error, Opening(query, parameters) + [Prepare(query, false)]);
    } else if Binds(parameters) && st.bind.Fail? {
      FreedWhenBindFails(s, query, parameters, useStructuredResult, env);
    } else if st.stepEnd.Fail? {
      FreedWhenStepFails(s, query, parameters, useStructuredResult, env);
    } else {
      FreedWhenSucceeds(s, query, parameters, useStructuredResult, env);
    }
  }

  /** After a successful prepare and the bind, one statement is held. */
  lemma LifecyclePrepared(query: string, parameters: Option<seq<Value>>)
    ensures Lifecycle(Opening(query, parameters) + [Prepare(query, true)] + BindEvents(parameters), false) == Some(true)
  {
    LifecycleOpening(query, parameters);
    LifecycleAppend(Opening(query, parameters), [Prepare(query, true)], false);
    LifecycleAppend(Opening(query, parameters) + [Prepare(query, true)], BindEvents(parameters), false);
    assert Lifecycle(BindEvents(parameters), true) == Some(true);
  }

  lemma LifecycleTimed(query: string, parameters: Option<seq<Value>>, env: QueryEnv)
    ensures Lifecycle(Timed(query, parameters, env), false) == Some(true)
  {
    LifecyclePrepared(query, parameters);
    LifecycleAppend(Opening(query, parameters) + [Prepare(query, true)] + BindEvents(parameters),
                    SlowEvents(query, parameters, env), false);
    assert Lifecycle(SlowEvents(query, parameters, env), true) == Some(true);
  }

  lemma FreedWhenBindFails(s: Session, query: string, parameters: Option<seq<Value>>, useStructuredResult: bool, env: QueryEnv)
    requires !s.isReleased && env.statement.prepare.Pass? && Binds(parameters) && env.statement.bind.Fail?
    ensures var t := Query(s, query, parameters, useStructuredResult, env).trace;
            StatementsFreed(t) && t != [] && t[|t| - 1] == AwaitSubscribers
  {
    var prepared := Opening(query, parameters) + [Prepare(query, true)] + BindEvents(parameters);
    TraceWhenBindFails(s, query, parameters, useStructuredResult, env);
    LifecyclePrepared(query, parameters);
    LifecycleAppend(prepared, [Free], false);
    LifecycleFailQuery(s, query, NormaliseList(parameters), env.statement.bind.error, prepared + [Free]);
  }

  lemma FreedWhenStepFails(s: Session, query: string, parameters: Option<seq<Value>>, useStructuredResult: bool, env: QueryEnv)
    requires !s.isReleased && Stepped(env.statement, parameters) && env.statement.stepEnd.Fail?
    ensures var t := Query(s, query, parameters, useStructuredResult, env).trace;
            StatementsFreed(t) && t != [] && t[|t| - 1] == AwaitSubscribers
  {
    var timed := Timed(query, parameters, env);
    TraceWhenStepFails(s, query, parameters, useStructuredResult, env);
    LifecycleTimed(query, parameters, env);
    LifecycleAppend(timed, [Free], false);
    LifecycleFailQuery(s, query, NormaliseList(parameters), env.statement.stepEnd.error, timed + [Free]);
  }

  lemma FreedWhenSucceeds(s: Session, query: string, parameters: Option<seq<Value>>, useStructuredResult: bool, env: QueryEnv)
    requires !s.isReleased && Stepped(env.statement, parameters) && env.statement.stepEnd.Pass?
    ensures var t := Query(s, query, parameters, useStructuredResult, env).trace;
            StatementsFreed(t) && t != [] && t[|t| - 1] == AwaitSubscribers
  {
    TraceWhenSucceeds(s, query, parameters, useStructuredResult, env);
    LifecycleTimed(query, parameters, env);
    LifecycleAppend(Timed(query, parameters, env), SuccessEvents(query, parameters, env), false);
    LifecycleSuccessEvents(query, parameters, env);
  }

  lemma LifecycleOpening(query: string, parameters: Option<seq<Value>>)
    ensures forall held :: Lifecycle(Opening(query, parameters), held) == Some(held)
  {
    forall held: bool ensures Lifecycle(Opening(query, parameters), held) == Some(held) {
      var t := Opening(query, parameters);
      assert Lifecycle(t[1..][1..], held) == Some(held);
      assert Lifecycle(t[1..], held) == Some(held);
    }
  }

  lemma LifecycleFailQuery(s: Session, query: string, reported: Option<seq<Value>>, cause: Cause, before: seq<Event>)
    requires Lifecycle(before, false) == Some(false)
    ensures StatementsFreed(FailQuery(s, query, reported, cause, before).trace)
    ensures FailQuery(s, query, reported, cause, before).trace[|FailQuery(s, query, reported, cause, before).trace| - 1] == AwaitSubscribers
  {
    var tail := Failing(query, reported, cause);
    LifecycleAppend(before, tail, false);
    assert tail[1..][1..] == [AwaitSubscribers];
    assert Lifecycle(tail[1..][1..][1..], false) == Some(false);
    assert Lifecycle(tail[1..][1..], false) == Some(false);
    assert Lifecycle(tail[1..], false) == Some(false);
  }

  lemma LifecycleSuccessEvents(query: string, parameters: Option<seq<Value>>, env: QueryEnv)
    ensures Lifecycle(SuccessEvents(query, parameters, env), true) == Some(false)
  {
    var closing := SuccessEvents(query, parameters, env);
    assert closing[1..][1..] == [AwaitSubscribers];
    assert Lifecycle(closing[1..][1..][1..], false) == Some(false);
    assert Lifecycle(closing[1..][1..], false) == Some(false);
    assert Lifecycle(closing[1..], true) == Some(false);
  }

  /** The outcome is reported exactly once, with its own success flag: one
      after-query broadcast of success, or one error log and one broadcast of
      failure. */
  lemma QueryReportsOutcomeOnce(s: Session, query: string, parameters: Option<seq<Value>>, useStructuredResult: bool, env: QueryEnv)
    requires !s.isReleased
    ensures var r := Query(s, query, parameters, useStructuredResult, env);
            && Count(r.trace, AfterSuccessKind) == (if r.outcome.Success? then 1 else 0)
            && Count(r.trace, AfterFailureKind) == (if r.outcome.Failure? then 1 else 0)
            && Count(r.trace, LogErrorKind) == (if r.outcome.Failure? then 1 else 0)
  {
    QueryCounts(s, query, parameters, useStructuredResult, env, AfterSuccessKind);
    QueryCounts(s, query, parameters, useStructuredResult, env, AfterFailureKind);
    QueryCounts(s, query, parameters, useStructuredResult, env, LogErrorKind);
  }

  /** The call is logged and announced to the BeforeQuery subscribers before
      anything else happens, on every path. */
  lemma QueryAnnouncedFirst(s: Session, query: string, parameters: Option<seq<Value>>, useStructuredResult: bool, env: QueryEnv)
    requires !s.isReleased
    ensures var t := Query(s, query, parameters, useStructuredResult, env).trace;
            && |t| >= 2
            && t[0] == LogQuery(query, parameters)
            && t[1] == BroadcastBefore(query, parameters)
  {
    var st := env.statement;
    var opening := Opening(query, parameters);
    if st.prepare.Fail? {
      TraceWhenPrepareFails(s, query, parameters, useStructuredResult, env);
      OpeningFirst(query, parameters, [Prepare(query, false)] + Failing(query, parameters, st.prepare.error));
    } else if Binds(parameters) && st.bind.Fail? {
      TraceWhenBindFails(s, query, parameters, useStructuredResult, env);
      var reported := NormaliseList(parameters);
      OpeningFirst(query, parameters, [Prepare(query, true)] + BindEvents(parameters) + [Free]
                                      + Failing(query, reported, st.bind.error));
    } else if st.stepEnd.Fail? {
      TraceWhenStepFails(s, query, parameters, useStructuredResult, env);
      var reported := NormaliseList(parameters);
      OpeningFirst(query, parameters, [Prepare(query, true)] + BindEvents(parameters)
                                      + SlowEvents(query, parameters, env) + [Free]
                                      + Failing(query, reported, st.stepEnd.error));
    } else {
      TraceWhenSucceeds(s, query, parameters, useStructuredResult, env);
      OpeningFirst(query, parameters, [Prepare(query, true)] + BindEvents(parameters)
                                      + SlowEvents(query, parameters, env)
                                      + SuccessEvents(query, parameters, env));
    }
  }

  lemma OpeningFirst(query: string, parameters: Option<seq<Value>>, rest: seq<Event>)
    ensures var t := Opening(query, parameters) + rest;
            |t| >= 2 && t[0] == LogQuery(query, parameters) && t[1] == BroadcastBefore(query, parameters)
  {
  }

  /** The slow-query log is written exactly when `prepare` and `bind` succeeded
      (the time is taken after binding and before stepping) and the option is set,
      non-zero and strictly exceeded. */
  lemma QueryLogsSlowExactly(s: Session, query: string, parameters: Option<seq<Value>>, useStructuredResult: bool, env: QueryEnv)
    requires !s.isReleased
    ensures Count(Query(s, query, parameters, useStructuredResult, env).trace, LogSlowKind)
         == if && env.statement.prepare.Pass?
               && (parameters.None? || env.statement.bind.Pass?)
               && env.maxQueryExecutionTime.Some?
               && env.maxQueryExecutionTime.value != 0
               && env.endTime - env.startTime > env.maxQueryExecutionTime.value
            then 1 else 0
  {
    QueryCounts(s, query, parameters, useStructuredResult, env, LogSlowKind);
  }

  /** What is bound is the normalised list: one bind, of `Normalise(parameters)`,
      whenever a statement exists and a list was given, and none otherwise. */
  lemma QueryBindsNormalised(s: Session, query: string, parameters: Option<seq<Value>>, useStructuredResult: bool, env: QueryEnv)
    requires !s.isReleased
    ensures var t := Query(s, query, parameters, useStructuredResult, env).trace;
            && Count(t, BindKind) == (if env.statement.prepare.Pass? && parameters.Some? then 1 else 0)
            && (env.statement.prepare.Pass? && parameters.Some? ==> Bind(Normalise(parameters.value)) in t)
  {
    QueryCounts(s, query, parameters, useStructuredResult, env, BindKind);
    var st := env.statement;
    if st.prepare.Pass? && parameters.Some? {
      if st.bind.Fail? {
        BoundWhenBindFails(s, query, parameters, useStructuredResult, env);
      } else {
        BoundWhenStepped(s, query, parameters, useStructuredResult, env);
      }
    }
  }

  lemma BoundWhenBindFails(s: Session, query: string, parameters: Option<seq<Value>>, useStructuredResult: bool, env: QueryEnv)
    requires !s.isReleased && env.statement.prepare.Pass? && parameters.Some? && env.statement.bind.Fail?
    ensures Bind(Normalise(parameters.value)) in Query(s, query, parameters, useStructuredResult, env).trace
  {
  }

  lemma BoundWhenStepped(s: Session, query: string, parameters: Option<seq<Value>>, useStructuredResult: bool, env: QueryEnv)
    requires !s.isReleased && env.statement.prepare.Pass? && parameters.Some? && env.statement.bind.Pass?
    ensures Bind(Normalise(parameters.value)) in Query(s, query, parameters, useStructuredResult, env).trace
  {
  }

  /** What a successful call reports is the normalised list: the success
      broadcast carries it, the measured time and the rows. */
  lemma QueryBroadcastsNormalised(s: Session, query: string, parameters: Option<seq<Value>>, useStructuredResult: bool, env: QueryEnv)
    ensures var r := Query(s, query, parameters, useStructuredResult, env);
            r.outcome.Success? ==>
              BroadcastAfter(true, query, NormaliseList(parameters), Some(env.endTime - env.startTime),
                             Some(env.statement.rows), None) in r.trace
  {
    if !s.isReleased && FirstFailure(env.statement, parameters).None? {
      TraceWhenSucceeds(s, query, parameters, useStructuredResult, env);
      assert SuccessEvents(query, parameters, env)[0] in SuccessEvents(query, parameters, env);
    }
  }
}
