/** The planner: walks an ordered instruction list and applies, one step at a
    time, the matching operation to a DataFrame, stopping at the first
    operation the engine refuses.

    Grouping and aggregation are coupled: every GroupBy scans the WHOLE list
    for Aggregate instructions, before or after it, and if there is one it
    aggregates by its own keys with the combined, in-order list of aliased
    aggregate expressions drawn from every Aggregate. An Aggregate on its own
    does nothing.

    This is the planner-side instruction shape: six kinds, and an Aggregate
    whose targets are (alias, column) pairs.
 */
module Parser {
  import opened DataFrames
  import Definition

  type AggregateType = Definition.AggregateType

  /** One aggregate target: the output alias and the source column. */
  datatype ExprValue = ExprValue(alias: string, column: string)

  datatype Instruction =
    | Select(columns: seq<string>)
    | GroupBy(columns: seq<string>)
    | Aggregate(kind: AggregateType, targets: seq<ExprValue>)
    | Filter(condition: string)
    | Literal(alias: string, value: Expr)
    | NewCol(alias: string, value: Expr)

  // ---------------------------------------------------------------------
  // The combined aggregate-expression list
  // ---------------------------------------------------------------------

  /** The position of the first Aggregate instruction, if any: the iterator
      `find` that a GroupBy runs over the whole list. */
  function FindAggregate(instructions: seq<Instruction>): (r: Option<nat>)
    ensures r.Some? ==> r.value < |instructions| && instructions[r.value].Aggregate?
    ensures r.Some? ==> forall j :: 0 <= j < r.value ==> !instructions[j].Aggregate?
    ensures r.None? ==> forall j :: 0 <= j < |instructions| ==> !instructions[j].Aggregate?
  {
    if instructions == [] then None
    else if instructions[0].Aggregate? then Some(0)
    else
      match FindAggregate(instructions[1..])
      case None => None
      case Some(j) => Some(j + 1)
  }

  /** Whether `find` succeeds: the list holds an Aggregate somewhere. */
  function HasAggregate(instructions: seq<Instruction>): (found: bool)
    ensures found <==> exists j | 0 <= j < |instructions| :: instructions[j].Aggregate?
  {
    FindAggregate(instructions).Some?
  }

  /** The engine function each aggregate kind stands for. */
  function AggregateFunctionName(kind: AggregateType): string
  {
    match kind
    case Sum => "sum"
    case Avg => "avg"
    case Min => "min"
    case Max => "max"
    case Count => "count"
  }

  /** The expression for one target of an Aggregate instruction. As parse does,
      it matches on the instruction again, with its own copy of the kind to
      function table; the ensures shows that copy is the same mapping as
      AggregateFunctionName. The requires makes every non-Aggregate arm
      impossible, so none is written. */
  function AggregateExpr(i: Instruction, target: ExprValue): (e: Expr)
    requires i.Aggregate?
    ensures e == Alias(AggregateCall(AggregateFunctionName(i.kind), target.column), target.alias)
  {
    match i
    case Aggregate(Sum, _) => Alias(AggregateCall("sum", target.column), target.alias)
    case Aggregate(Avg, _) => Alias(AggregateCall("avg", target.column), target.alias)
    case Aggregate(Min, _) => Alias(AggregateCall("min", target.column), target.alias)
    case Aggregate(Max, _) => Alias(AggregateCall("max", target.column), target.alias)
    case Aggregate(Count, _) => Alias(AggregateCall("count", target.column), target.alias)
  }

  /** The expressions for a list of targets: one per pair, in order, each the
      instruction's function applied to the pair's column under the pair's alias. */
  function TargetExprs(i: Instruction, targets: seq<ExprValue>): (r: seq<Expr>)
    requires i.Aggregate?
    ensures |r| == |targets|
    ensures forall k :: 0 <= k < |targets| ==>
      r[k] == Alias(AggregateCall(AggregateFunctionName(i.kind), targets[k].column), targets[k].alias)
  {
    if targets == [] then []
    else [AggregateExpr(i, targets[0])] + TargetExprs(i, targets[1..])
  }

  /** What one instruction contributes to the combined list. */
  function InstructionExprs(i: Instruction): seq<Expr>
  {
    if i.Aggregate? then TargetExprs(i, i.targets) else []
  }

  /** The number of (alias, column) pairs over all Aggregate instructions. */
  function TargetCount(instructions: seq<Instruction>): nat
  {
    if instructions == [] then 0
    else
      (if instructions[0].Aggregate? then |instructions[0].targets| else 0)
      + TargetCount(instructions[1..])
  }

  /** The combined aggregate-expression list of a whole instruction list. */
  function AggExprs(instructions: seq<Instruction>): (r: seq<Expr>)
    ensures |r| == TargetCount(instructions)
    ensures !HasAggregate(instructions) ==> r == []
  {
    if instructions == [] then []
    else InstructionExprs(instructions[0]) + AggExprs(instructions[1..])
  }

  lemma {:induction false} AggExprsAppend(a: seq<Instruction>, b: seq<Instruction>)
    ensures AggExprs(a + b) == AggExprs(a) + AggExprs(b)
  {
    if a == [] {
      assert a + b == b;
    } else {
      assert (a + b)[0] == a[0];
      assert (a + b)[1..] == a[1..] + b;
      AggExprsAppend(a[1..], b);
    }
  }

  lemma HeadExprAt(rest: seq<Instruction>, k: nat)
    requires rest != [] && rest[0].Aggregate? && k < |rest[0].targets|
    ensures k < |AggExprs(rest)|
    ensures AggExprs(rest)[k]
      == Alias(AggregateCall(AggregateFunctionName(rest[0].kind), rest[0].targets[k].column),
               rest[0].targets[k].alias)
  {
    var own := TargetExprs(rest[0], rest[0].targets);
    assert AggExprs(rest) == own + AggExprs(rest[1..]);
  }

  /** Target k of the Aggregate at position j sits at offset
      TargetCount(prefix) + k of the combined list, as its kind's function
      applied to its column, under its alias. */
  lemma AggExprAt(instructions: seq<Instruction>, j: nat, k: nat)
    requires j < |instructions| && instructions[j].Aggregate?
    requires k < |instructions[j].targets|
    ensures TargetCount(instructions[..j]) + k < |AggExprs(instructions)|
    ensures AggExprs(instructions)[TargetCount(instructions[..j]) + k]
      == Alias(AggregateCall(AggregateFunctionName(instructions[j].kind),
                             instructions[j].targets[k].column),
               instructions[j].targets[k].alias)
  {
    var pre, rest := instructions[..j], instructions[j..];
    assert instructions == pre + rest;
    assert rest[0] == instructions[j];
    AggExprsAppend(pre, rest);
    var front, back := AggExprs(pre), AggExprs(rest);
    assert |front| == TargetCount(pre);
    HeadExprAt(rest, k);
    assert (front + back)[|front| + k] == back[k];
  }

  // ---------------------------------------------------------------------
  // The planner's semantics
  // ---------------------------------------------------------------------

  /** The operations one instruction emits when nothing fails. */
  function Emitted(all: seq<Instruction>, i: Instruction): seq<Op>
  {
    match i
    case Select(columns) => [Project(columns)]
    case GroupBy(columns) => if HasAggregate(all) then [Aggregation(columns, AggExprs(all))] else []
    case Filter(condition) => [FilterRows(SqlCondition(condition))]
    case Literal(alias, value) => [WithColumn(alias, value)]
    case NewCol(alias, value) => [WithColumn(alias, value)]
    case Aggregate(_, _) => []
  }

  /** The operations a run of `s` applies, in order, when nothing fails. */
  function Plan(all: seq<Instruction>, s: seq<Instruction>): seq<Op>
    decreases |s|
  {
    if s == [] then [] else Plan(all, s[..|s| - 1]) + Emitted(all, s[|s| - 1])
  }

  /** One instruction applied to the current frame; `all` is the whole list,
      which a GroupBy scans. */
  function Step(engine: Engine, all: seq<Instruction>, i: Instruction, df: DataFrame): (r: Result<DataFrame>)
    ensures r.Ok? ==> r.value == DataFrame(df.table, df.log + Emitted(all, i))
  {
    match i
    case Select(columns) => Apply(engine, df, Project(columns))
    case GroupBy(columns) =>
      if HasAggregate(all) then Apply(engine, df, Aggregation(columns, AggExprs(all))) else Ok(df)
    case Filter(condition) =>
      var filterExpr :- ParseSqlExpr(engine, df, condition);
      Apply(engine, df, FilterRows(filterExpr))
    case Literal(alias, value) => Apply(engine, df, WithColumn(alias, value))
    case NewCol(alias, value) => Apply(engine, df, WithColumn(alias, value))
    case Aggregate(_, _) => Ok(df)
  }

  /** The instructions of `s` applied in order, each to the frame the ones
      before it produced; the first error ends the walk. A successful run
      keeps the base table and extends its log by exactly the planned
      operations, in list order. */
  function Run(engine: Engine, all: seq<Instruction>, s: seq<Instruction>, df: DataFrame): (r: Result<DataFrame>)
    ensures r.Ok? ==> r.value == DataFrame(df.table, df.log + Plan(all, s))
    decreases |s|
  {
    if s == [] then Ok(df)
    else
      var d :- Run(engine, all, s[..|s| - 1], df);
      Step(engine, all, s[|s| - 1], d)
  }

  /** parse (parser.rs): a loop over the instructions that reassigns the frame
      and returns at the first error. */
  method Parse(engine: Engine, instructions: seq<Instruction>, dataframe: DataFrame)
    returns (r: Result<DataFrame>)
    ensures r == Run(engine, instructions, instructions, dataframe)
    ensures instructions == [] ==> r == Ok(dataframe)
  {
    var df := dataframe;
    for i := 0 to |instructions|
      invariant Run(engine, instructions, instructions[..i], dataframe) == Ok(df)
    {
      var next: Result<DataFrame>;
      match instructions[i] {
        case Select(columns) =>
          next := Apply(engine, df, Project(columns));
        case GroupBy(columns) =>
          if HasAggregate(instructions) {
            var aggExprs := AggExprs(instructions);
            next := Apply(engine, df, Aggregation(columns, aggExprs));
          } else {
            next := Ok(df);
          }
        case Filter(condition) =>
          var filterExpr := ParseSqlExpr(engine, df, condition);
          if filterExpr.Err? {
            next := Err(filterExpr.error);
          } else {
            next := Apply(engine, df, FilterRows(filterExpr.value));
          }
        case Literal(alias, value) =>
          next := Apply(engine, df, WithColumn(alias, value));
        case NewCol(alias, value) =>
          next := Apply(engine, df, WithColumn(alias, value));
        case Aggregate(_, _) =>
          next := Ok(df);
      }
      assert next == Step(engine, instructions, instructions[i], df);
      if next.Err? {
        FirstFailureWins(engine, instructions, instructions, dataframe, i, df);
        return next;
      }
      assert instructions[..i + 1][..i] == instructions[..i];
      assert instructions[..i + 1][i] == instructions[i];
      df := next.value;
    }
    assert instructions[..|instructions|] == instructions;
    r := Ok(df);
  }

  // ---------------------------------------------------------------------
  // Properties of the planner
  // ---------------------------------------------------------------------

  lemma {:induction false} ErrorPersists(engine: Engine, all: seq<Instruction>, s: seq<Instruction>,
                                        df: DataFrame, n: nat, e: DataFusionError)
    requires n <= |s| && Run(engine, all, s[..n], df) == Err(e)
    ensures Run(engine, all, s, df) == Err(e)
    decreases |s|
  {
    if n < |s| {
      var init := s[..|s| - 1];
      assert init[..n] == s[..n];
      ErrorPersists(engine, all, init, df, n, e);
    } else {
      assert s[..n] == s;
    }
  }

  /** When the instruction at position n is the first whose step fails, the
      whole run fails with that step's error: nothing after it is applied. */
  lemma FirstFailureWins(engine: Engine, all: seq<Instruction>, s: seq<Instruction>,
                         df: DataFrame, n: nat, d: DataFrame)
    requires n < |s| && Run(engine, all, s[..n], df) == Ok(d)
    requires Step(engine, all, s[n], d).Err?
    ensures Run(engine, all, s, df) == Step(engine, all, s[n], d)
  {
    var prefix := s[..n + 1];
    assert prefix[..n] == s[..n];
    ErrorPersists(engine, all, s, df, n + 1, Step(engine, all, s[n], d).error);
  }

  /** On an engine that refuses nothing, every run succeeds with the plan. */
  lemma {:induction false} RunAccepted(engine: Engine, all: seq<Instruction>, s: seq<Instruction>, df: DataFrame)
    requires AcceptsAll(engine)
    ensures Run(engine, all, s, df) == Ok(DataFrame(df.table, df.log + Plan(all, s)))
    decreases |s|
  {
    if s != [] {
      RunAccepted(engine, all, s[..|s| - 1], df);
      var d := DataFrame(df.table, df.log + Plan(all, s[..|s| - 1]));
      StepAccepted(engine, all, s[|s| - 1], d);
      assert d.log + Emitted(all, s[|s| - 1]) == df.log + Plan(all, s);
    } else {
      assert df.log + [] == df.log;
    }
  }

  lemma StepAccepted(engine: Engine, all: seq<Instruction>, i: Instruction, d: DataFrame)
    requires AcceptsAll(engine)
    ensures Step(engine, all, i, d) == Ok(DataFrame(d.table, d.log + Emitted(all, i)))
  {
    match i
    case Select(columns) =>
      assert engine.rejects(d, Project(columns)) == None;
    case GroupBy(columns) =>
      assert engine.rejects(d, Aggregation(columns, AggExprs(all))) == None;
      assert d.log + [] == d.log;
    case Filter(condition) =>
      assert engine.rejectsCondition(d, condition) == None;
      assert engine.rejects(d, FilterRows(SqlCondition(condition))) == None;
    case Literal(alias, value) =>
      assert engine.rejects(d, WithColumn(alias, value)) == None;
    case NewCol(alias, value) =>
      assert engine.rejects(d, WithColumn(alias, value)) == None;
    case Aggregate(_, _) =>
      assert d.log + [] == d.log;
  }

  /** Running a concatenation is running the first part, then the second on
      its result. */
  lemma {:induction false} RunAppend(engine: Engine, all: seq<Instruction>, a: seq<Instruction>,
                                     b: seq<Instruction>, df: DataFrame)
    ensures Run(engine, all, a + b, df) ==
      match Run(engine, all, a, df)
      case Err(e) => Err(e)
      case Ok(d) => Run(engine, all, b, d)
    decreases |b|
  {
    if b == [] {
      assert a + b == a;
    } else {
      var init := b[..|b| - 1];
      assert (a + b)[..|a + b| - 1] == a + init;
      assert (a + b)[|a + b| - 1] == b[|b| - 1];
      RunAppend(engine, all, a, init, df);
    }
  }

  lemma {:induction false} PlanAppend(all: seq<Instruction>, a: seq<Instruction>, b: seq<Instruction>)
    ensures Plan(all, a + b) == Plan(all, a) + Plan(all, b)
    decreases |b|
  {
    if b == [] {
      assert a + b == a;
    } else {
      var init := b[..|b| - 1];
      assert (a + b)[..|a + b| - 1] == a + init;
      assert (a + b)[|a + b| - 1] == b[|b| - 1];
      PlanAppend(all, a, init);
    }
  }

  /** The plan is laid out instruction by instruction, in list order: the
      operations of the instructions before position j, then those of the
      instruction at j, then those of the instructions after it. */
  lemma PlanAt(all: seq<Instruction>, s: seq<Instruction>, j: nat)
    requires j < |s|
    ensures Plan(all, s) == Plan(all, s[..j]) + Emitted(all, s[j]) + Plan(all, s[j + 1..])
  {
    assert s == s[..j] + [s[j]] + s[j + 1..];
    PlanAppend(all, s[..j] + [s[j]], s[j + 1..]);
    PlanAppend(all, s[..j], [s[j]]);
    assert [s[j]][..0] == [];
  }

  /** A run depends on the whole list only through the coupling: whether it
      holds an Aggregate, and the combined aggregate-expression list. */
  lemma {:induction false} RunDependsOnCouplingOnly(engine: Engine, all1: seq<Instruction>, all2: seq<Instruction>,
                                                    s: seq<Instruction>, df: DataFrame)
    requires HasAggregate(all1) == HasAggregate(all2)
    requires AggExprs(all1) == AggExprs(all2)
    ensures Run(engine, all1, s, df) == Run(engine, all2, s, df)
    decreases |s|
  {
    if s != [] {
      RunDependsOnCouplingOnly(engine, all1, all2, s[..|s| - 1], df);
      match Run(engine, all1, s[..|s| - 1], df)
      case Err(_) =>
      case Ok(d) => StepDependsOnCouplingOnly(engine, all1, all2, s[|s| - 1], d);
    }
  }

  lemma StepDependsOnCouplingOnly(engine: Engine, all1: seq<Instruction>, all2: seq<Instruction>,
                                  i: Instruction, d: DataFrame)
    requires HasAggregate(all1) == HasAggregate(all2)
    requires AggExprs(all1) == AggExprs(all2)
    ensures Step(engine, all1, i, d) == Step(engine, all2, i, d)
  {
  }

  /** An Aggregate step changes nothing, so it commutes with the step before it. */
  lemma SwapAdjacentAggregate(engine: Engine, all: seq<Instruction>, g: Instruction, x: Instruction, d: DataFrame)
    requires x.Aggregate?
    ensures Run(engine, all, [g, x], d) == Run(engine, all, [x, g], d)
  {
    assert [g, x][..1] == [g] && [x, g][..1] == [x];
    assert [g][..0] == [] && [x][..0] == [];
  }

  lemma {:induction false} PairExprs(g: Instruction, x: Instruction)
    requires !g.Aggregate?
    ensures AggExprs([g, x]) == InstructionExprs(x) && AggExprs([x, g]) == InstructionExprs(x)
  {
    assert [g, x][1..] == [x] && [x, g][1..] == [g];
    assert [x][1..] == [] && [g][1..] == [];
  }

  /** Moving an Aggregate across its neighbour leaves the coupling unchanged. */
  lemma SwapKeepsCoupling(a: seq<Instruction>, b: seq<Instruction>, g: Instruction, x: Instruction)
    requires x.Aggregate? && !g.Aggregate?
    ensures HasAggregate(a + [g, x] + b) && HasAggregate(a + [x, g] + b)
    ensures AggExprs(a + [g, x] + b) == AggExprs(a + [x, g] + b)
  {
    var p, q := a + [g, x] + b, a + [x, g] + b;
    assert p[|a| + 1] == x;
    assert q[|a|] == x;
    calc {
      AggExprs(p);
      { AggExprsAppend(a + [g, x], b); }
      AggExprs(a + [g, x]) + AggExprs(b);
      { AggExprsAppend(a, [g, x]); PairExprs(g, x); }
      AggExprs(a) + InstructionExprs(x) + AggExprs(b);
      { AggExprsAppend(a, [x, g]); PairExprs(g, x); }
      AggExprs(a + [x, g]) + AggExprs(b);
      { AggExprsAppend(a + [x, g], b); }
      AggExprs(q);
    }
  }

  /** A GroupBy directly followed by an Aggregate plans exactly as the
      Aggregate followed by the GroupBy: position does not matter. */
  lemma SwapGroupByAndAggregate(engine: Engine, a: seq<Instruction>, b: seq<Instruction>,
                                keys: seq<string>, kind: AggregateType, targets: seq<ExprValue>,
                                df: DataFrame)
    ensures
      var g, x := GroupBy(keys), Aggregate(kind, targets);
      var p, q := a + [g, x] + b, a + [x, g] + b;
      Run(engine, p, p, df) == Run(engine, q, q, df)
  {
    var g, x := GroupBy(keys), Aggregate(kind, targets);
    var p, q := a + [g, x] + b, a + [x, g] + b;
    SwapKeepsCoupling(a, b, g, x);
    RunDependsOnCouplingOnly(engine, p, q, p, df);
    RunAppend(engine, q, a + [g, x], b, df);
    RunAppend(engine, q, a + [x, g], b, df);
    RunAppend(engine, q, a, [g, x], df);
    RunAppend(engine, q, a, [x, g], df);
    match Run(engine, q, a, df)
    case Err(_) =>
    case Ok(d) => SwapAdjacentAggregate(engine, q, g, x, d);
  }

  // ---------------------------------------------------------------------
  // Where aggregations come from
  // ---------------------------------------------------------------------

  function GroupByCount(s: seq<Instruction>): nat
    decreases |s|
  {
    if s == [] then 0 else GroupByCount(s[..|s| - 1]) + if s[|s| - 1].GroupBy? then 1 else 0
  }

  function AggregationCount(ops: seq<Op>): nat
    decreases |ops|
  {
    if ops == [] then 0 else AggregationCount(ops[..|ops| - 1]) + if ops[|ops| - 1].Aggregation? then 1 else 0
  }

  lemma {:induction false} AggregationCountAppend(x: seq<Op>, y: seq<Op>)
    ensures AggregationCount(x + y) == AggregationCount(x) + AggregationCount(y)
    decreases |y|
  {
    if y == [] {
      assert x + y == x;
    } else {
      assert (x + y)[..|x + y| - 1] == x + y[..|y| - 1];
      AggregationCountAppend(x, y[..|y| - 1]);
    }
  }

  /** Every GroupBy aggregates once when the list holds an Aggregate, and no
      step aggregates otherwise. */
  lemma {:induction false} AggregationPerGroupBy(all: seq<Instruction>, s: seq<Instruction>)
    ensures AggregationCount(Plan(all, s)) == if HasAggregate(all) then GroupByCount(s) else 0
    decreases |s|
  {
    if s != [] {
      var init := s[..|s| - 1];
      AggregationPerGroupBy(all, init);
      AggregationCountAppend(Plan(all, init), Emitted(all, s[|s| - 1]));
      EmittedAggregations(all, s[|s| - 1]);
    }
  }

  lemma EmittedAggregations(all: seq<Instruction>, i: Instruction)
    ensures AggregationCount(Emitted(all, i)) == if HasAggregate(all) && i.GroupBy? then 1 else 0
  {
    var e := Emitted(all, i);
    if e != [] {
      assert e[..|e| - 1] == [];
    }
  }

  /** Every aggregation planned uses the keys of some GroupBy of the list and
      the combined expression list of the whole list. */
  lemma {:induction false} AggregationShape(all: seq<Instruction>, s: seq<Instruction>)
    ensures forall op :: op in Plan(all, s) && op.Aggregation? ==>
      op.aggs == AggExprs(all) && GroupBy(op.keys) in s
    decreases |s|
  {
    if s != [] {
      var init := s[..|s| - 1];
      AggregationShape(all, init);
      forall op | op in Plan(all, s) && op.Aggregation?
        ensures op.aggs == AggExprs(all) && GroupBy(op.keys) in s
      {
        if op in Plan(all, init) {
          var j :| 0 <= j < |init| && init[j] == GroupBy(op.keys);
          assert s[j] == GroupBy(op.keys);
        } else {
          assert s[|s| - 1] == GroupBy(op.keys);
        }
      }
    }
  }

  /** With an Aggregate somewhere in the list, each GroupBy of the list
      aggregates by its own keys with the combined expression list. */
  lemma {:induction false} GroupByAggregates(all: seq<Instruction>, s: seq<Instruction>, j: nat)
    requires HasAggregate(all)
    requires j < |s| && s[j].GroupBy?
    ensures Aggregation(s[j].columns, AggExprs(all)) in Plan(all, s)
    decreases |s|
  {
    var init := s[..|s| - 1];
    var op := Aggregation(s[j].columns, AggExprs(all));
    assert Plan(all, s) == Plan(all, init) + Emitted(all, s[|s| - 1]);
    if j < |s| - 1 {
      assert init[j] == s[j];
      GroupByAggregates(all, init, j);
      assert op in Plan(all, init);
    } else {
      assert Emitted(all, s[j]) == [op];
    }
  }

  /** Without a GroupBy, Aggregate instructions change nothing: no
      aggregation is planned. */
  lemma AggregateAloneIsInert(all: seq<Instruction>, s: seq<Instruction>)
    requires forall j :: 0 <= j < |s| ==> !s[j].GroupBy?
    ensures forall op :: op in Plan(all, s) ==> !op.Aggregation?
  {
    AggregationShape(all, s);
  }
}
