/** The columnar query engine the planner drives, seen only at its interface.

    A DataFrame is a logical plan: the registered base table plus the
    operations applied to it so far, in order. What those operations compute
    is the engine's business and is not modelled; whether an operation fails
    (an unknown column, a malformed condition, a type mismatch) is decided by
    an Engine value. The engine is a parameter: every property proved about
    the planner holds for every engine, except those that require AcceptsAll.
 */
module DataFrames {

  /** The engine's error; its content is opaque to the planner. */
  datatype DataFusionError = DataFusionError(message: string)

  datatype Option<T> = None | Some(value: T)

  /** The engine's fallible result, usable with `:-` like Rust's `?`. */
  datatype Result<T> = Ok(value: T) | Err(error: DataFusionError) {
    predicate IsFailure() { Err? }

    function PropagateFailure<U>(): Result<U>
      requires Err?
    {
      Err(error)
    }

    function Extract(): T
      requires Ok?
    {
      value
    }
  }

  /** The engine's expression language, reduced to the shapes the planner builds. */
  datatype Expr =
    | SqlCondition(text: string)                      // what parsing a filter condition yields
    | AggregateCall(fn: string, column: string)       // sum(c), avg(c), min(c), max(c), count(c)
    | Alias(inner: Expr, name: string)                // e.alias(name)
    | Scalar(description: string)                     // any caller-supplied expression

  /** One operation applied to a logical plan. */
  datatype Op =
    | Project(columns: seq<string>)                   // DataFrame::select
    | FilterRows(condition: Expr)                     // DataFrame::filter
    | Aggregation(keys: seq<string>, aggs: seq<Expr>) // DataFrame::aggregate
    | WithColumn(name: string, value: Expr)           // DataFrame::with_column

  datatype DataFrame = DataFrame(table: string, log: seq<Op>)

  /** Which requests the engine refuses, and with what error. */
  datatype Engine = Engine(
    rejectsCondition: (DataFrame, string) -> Option<DataFusionError>,
    rejects: (DataFrame, Op) -> Option<DataFusionError>)

  /** An engine that refuses nothing. */
  ghost predicate AcceptsAll(engine: Engine)
  {
    && (forall df, text :: engine.rejectsCondition(df, text) == None)
    && (forall df, op :: engine.rejects(df, op) == None)
  }

  /** Apply one operation: the engine either refuses it or extends the plan by it. */
  function Apply(engine: Engine, df: DataFrame, op: Op): Result<DataFrame>
  {
    match engine.rejects(df, op)
    case Some(e) => Err(e)
    case None => Ok(DataFrame(df.table, df.log + [op]))
  }

  /** DataFrame::parse_sql_expr: parse a condition against the frame's columns. */
  function ParseSqlExpr(engine: Engine, df: DataFrame, text: string): Result<Expr>
  {
    match engine.rejectsCondition(df, text)
    case Some(e) => Err(e)
    case None => Ok(SqlCondition(text))
  }
}
