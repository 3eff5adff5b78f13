/** The hand-over from a built Transformation to the planner.

    The builder records an Aggregate as a kind and plain column names, while
    the planner expects an (alias, column) pair per column. No code in this
    snapshot turns one into the other, so how a name gets its output alias is
    not modelled as a rule: it is the parameter `aliasFor`, an explicit
    assumption of every statement below that mentions it.
 */
module Pipeline {
  import opened DataFrames
  import Definition
  import Parser

  /** Pairs each aggregated column with its output alias, in order. */
  function Targets(kind: Definition.AggregateType, columns: seq<string>,
                   aliasFor: (Definition.AggregateType, string) -> string): (r: seq<Parser.ExprValue>)
    ensures |r| == |columns|
    ensures forall k :: 0 <= k < |columns| ==>
      r[k] == Parser.ExprValue(aliasFor(kind, columns[k]), columns[k])
  {
    if columns == [] then []
    else [Parser.ExprValue(aliasFor(kind, columns[0]), columns[0])] + Targets(kind, columns[1..], aliasFor)
  }

  function LowerInstruction(i: Definition.Instruction,
                            aliasFor: (Definition.AggregateType, string) -> string): Parser.Instruction
  {
    match i
    case Select(columns) => Parser.Select(columns)
    case GroupBy(columns) => Parser.GroupBy(columns)
    case Aggregate(kind, columns) => Parser.Aggregate(kind, Targets(kind, columns, aliasFor))
    case Filter(condition) => Parser.Filter(condition)
  }

  /** The planner-side list of a built transformation: one instruction per
      built instruction, same kind, same position. */
  function Lower(instructions: seq<Definition.Instruction>,
                 aliasFor: (Definition.AggregateType, string) -> string): (r: seq<Parser.Instruction>)
    ensures |r| == |instructions|
    ensures forall j :: 0 <= j < |instructions| ==> r[j] == LowerInstruction(instructions[j], aliasFor)
  {
    if instructions == [] then []
    else [LowerInstruction(instructions[0], aliasFor)] + Lower(instructions[1..], aliasFor)
  }

  /** Hands a transformation's instructions to the planner, as `execute` does
      once the batches are registered as the table behind `table`. */
  method PlanTransformation(engine: Engine, t: Definition.Transformation,
                            aliasFor: (Definition.AggregateType, string) -> string, table: DataFrame)
    returns (r: Result<DataFrame>)
    ensures var lowered := Lower(t.instructions, aliasFor);
            r == Parser.Run(engine, lowered, lowered, table)
  {
    var lowered := Lower(t.instructions, aliasFor);
    r := Parser.Parse(engine, lowered, table);
  }

  /** The default transformation leaves the table as it is, whatever the
      engine and the alias rule. */
  method PlanDefault(engine: Engine, aliasFor: (Definition.AggregateType, string) -> string, table: DataFrame)
    returns (r: Result<DataFrame>)
    ensures r == Ok(table)
  {
    r := PlanTransformation(engine, Definition.DefaultTransformation(), aliasFor, table);
  }

  /** The alias rule "the alias is the column name": the count of `value` is
      expected as a column named `value` in test_execute_dataset_with_filter
      (src/core/computing.rs:70-73). */
  function SameName(kind: Definition.AggregateType, column: string): string
  {
    column
  }

  /** Select, count of `value`, group by `category`: a projection, then one
      aggregation by `category` whose only expression is count(value) named
      `value`, so two output columns. */
  method PlanSelectCountGroupBy(engine: Engine, table: DataFrame) returns (r: Result<DataFrame>)
    requires AcceptsAll(engine)
    ensures r == Ok(DataFrame(table.table, table.log + [
      Project(["id", "value", "category"]),
      Aggregation(["category"], [Alias(AggregateCall("count", "value"), "value")])
    ]))
  {
    var t := Definition.BuildSelectCountGroupBy();
    r := PlanTransformation(engine, t, SameName, table);
    ghost var lowered := Lower(t.instructions, SameName);
    Parser.RunAccepted(engine, lowered, lowered, table);
    PlanOfSelectCountGroupBy(lowered);
  }

  lemma PlanOfSelectCountGroupBy(lowered: seq<Parser.Instruction>)
    requires lowered == Lower(Definition.Transformation([
      Definition.Instruction.Select(["id", "value", "category"]),
      Definition.Instruction.Aggregate(Definition.Count, ["value"]),
      Definition.Instruction.GroupBy(["category"])]).instructions, SameName)
    ensures Parser.Plan(lowered, lowered) == [
      Project(["id", "value", "category"]),
      Aggregation(["category"], [Alias(AggregateCall("count", "value"), "value")])
    ]
  {
    var s := lowered;
    var agg := Alias(AggregateCall("count", "value"), "value");
    assert s[1].targets == [Parser.ExprValue("value", "value")];
    assert s[..1] == [s[0]] && [s[0]][1..] == [];
    assert Parser.TargetCount(s[..1]) == 0;
    Parser.AggExprAt(s, 1, 0);
    assert Parser.AggExprs(s) == [agg];
    assert Parser.HasAggregate(s);
    assert s[..1][..0] == [];
    assert Parser.Plan(s, s[..1]) == [Project(["id", "value", "category"])];
    assert s[..2][..1] == s[..1];
    assert Parser.Plan(s, s[..2]) == [Project(["id", "value", "category"])];
    assert s[..3][..2] == s[..2] && s[..3] == s;
  }

  /** Select, filter, count, group by: the projection, then the filter on the
      projected frame, then the aggregation by `category`, exactly in that order. */
  method PlanSelectFilterCountGroupBy(engine: Engine, table: DataFrame) returns (r: Result<DataFrame>)
    requires AcceptsAll(engine)
    ensures r == Ok(DataFrame(table.table, table.log + [
      Project(["id", "value", "category"]),
      FilterRows(SqlCondition("value > 5")),
      Aggregation(["category"], [Alias(AggregateCall("count", "value"), "value")])
    ]))
  {
    var t := Definition.BuildSelectFilterCountGroupBy();
    r := PlanTransformation(engine, t, SameName, table);
    ghost var lowered := Lower(t.instructions, SameName);
    Parser.RunAccepted(engine, lowered, lowered, table);
    PlanOfSelectFilterCountGroupBy(lowered);
  }

  lemma PlanOfSelectFilterCountGroupBy(lowered: seq<Parser.Instruction>)
    requires lowered == Lower([
      Definition.Instruction.Select(["id", "value", "category"]),
      Definition.Instruction.Filter("value > 5"),
      Definition.Instruction.Aggregate(Definition.Count, ["value"]),
      Definition.Instruction.GroupBy(["category"])], SameName)
    ensures Parser.Plan(lowered, lowered) == [
      Project(["id", "value", "category"]),
      FilterRows(SqlCondition("value > 5")),
      Aggregation(["category"], [Alias(AggregateCall("count", "value"), "value")])
    ]
  {
    var s := lowered;
    CoupledCount(s);
    var project, filter := Project(["id", "value", "category"]), FilterRows(SqlCondition("value > 5"));
    assert Parser.Emitted(s, s[0]) == [project];
    assert Parser.Emitted(s, s[1]) == [filter];
    assert Parser.Emitted(s, s[2]) == [];
    assert s[..1][..0] == [];
    assert Parser.Plan(s, s[..1]) == [project];
    assert s[..2][..1] == s[..1];
    assert Parser.Plan(s, s[..2]) == [project, filter];
    assert s[..3][..2] == s[..2];
    assert Parser.Plan(s, s[..3]) == [project, filter];
    assert s[..4][..3] == s[..3] && s[..4] == s;
  }

  /** The coupling of that chain: one Aggregate, whose only expression is
      count(value) named `value`. */
  lemma CoupledCount(s: seq<Parser.Instruction>)
    requires s == Lower([
      Definition.Instruction.Select(["id", "value", "category"]),
      Definition.Instruction.Filter("value > 5"),
      Definition.Instruction.Aggregate(Definition.Count, ["value"]),
      Definition.Instruction.GroupBy(["category"])], SameName)
    ensures Parser.HasAggregate(s)
    ensures Parser.AggExprs(s) == [Alias(AggregateCall("count", "value"), "value")]
  {
    assert s[2].targets == [Parser.ExprValue("value", "value")];
    assert s[..2] == [s[0], s[1]] && [s[0], s[1]][1..] == [s[1]] && [s[1]][1..] == [];
    assert Parser.TargetCount([s[1]]) == 0;
    assert Parser.TargetCount(s[..2]) == 0;
    Parser.AggExprAt(s, 2, 0);
    assert s[3..][1..] == [] && s[2..][1..] == s[3..] && s[1..][1..] == s[2..];
    assert Parser.TargetCount(s[3..]) == 0;
    assert Parser.TargetCount(s[2..]) == 1;
    assert Parser.TargetCount(s[1..]) == 1;
  }
}
