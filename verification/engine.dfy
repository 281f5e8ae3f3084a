/** The sql.js engine as an oracle: what `prepare`, `bind`, `step`/`getAsObject`
    and `getRowsModified` answer for one statement. The engine's SQL semantics are
    not modelled; only the answers the runner observes. */
module Engine {
  import opened Wrappers
  import opened Params

  /** An error thrown by the engine (or by another collaborator), kept opaque. */
  type Cause = string

  /** The engine's answers for one call of `query`. `bind` is consulted only when a
      parameter list is bound; the rows are produced by successive `step` calls,
      after which `step` either returns false (`stepEnd` passes) or throws. */
  datatype Statement = Statement(
    prepare: Outcome<Cause>,
    bind: Outcome<Cause>,
    rows: seq<Row>,
    stepEnd: Outcome<Cause>,
    rowsModified: nat)

  /** What the k-th `step()` call (counting from 0) does. */
  datatype StepAnswer = HasRow(row: Row) | NoMoreRows | StepThrew(cause: Cause)

  function StepAt(st: Statement, k: nat): (a: StepAnswer)
    ensures a.HasRow? <==> k < |st.rows|
  {
    if k < |st.rows| then HasRow(st.rows[k])
    else match st.stepEnd
      case Pass => NoMoreRows
      case Fail(c) => StepThrew(c)
  }

  /** The result of draining the statement, as a single value. */
  function Drained(st: Statement): Result<seq<Row>, Cause> {
    match st.stepEnd
    case Pass => Success(st.rows)
    case Fail(c) => Failure(c)
  }

  /** The `while (statement.step()) records.push(statement.getAsObject())` loop:
      collects every row in step order, or reports the error a `step` throws. */
  method DrainStatement(st: Statement) returns (r: Result<seq<Row>, Cause>)
    ensures r.Success? <==> st.stepEnd.Pass?
    ensures r.Success? ==> r.value == st.rows
    ensures r.Failure? ==> r.error == st.stepEnd.error
  {
    var records: seq<Row> := [];
    var k := 0;
    var answer := StepAt(st, 0);
    while answer.HasRow?
      invariant k <= |st.rows|
      invariant records == st.rows[..k]
      invariant answer == StepAt(st, k)
      decreases |st.rows| - k
    {
      records := records + [answer.row];
      k := k + 1;
      answer := StepAt(st, k);
    }
    if answer.StepThrew? {
      return Failure(answer.cause);
    }
    assert records == st.rows;
    return Success(records);
  }
}
