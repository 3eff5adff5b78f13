# df-metrics: instruction planner and transformation builder

df-metrics lets a caller describe a tabular transformation as an ordered list
of instructions (select, filter, group by, aggregate, literal and derived
columns), built with a fluent `TransformationBuilder`, and then has `parse`
turn that list into operations on a DataFusion `DataFrame`, one instruction
at a time. This project models those two parts and proves what they do.

- `DataFrames` (dataframe.dfy): the query engine, seen only at its interface.
  A `DataFrame` is a logical plan: the base table and the log of operations
  applied to it (`Project`, `FilterRows`, `Aggregation`, `WithColumn`). An
  `Engine` value decides which requests fail and with which error. The engine
  is a parameter: every result holds for every engine, except those that
  require `AcceptsAll` (an engine that refuses nothing): `StepAccepted`,
  `RunAccepted`, `PlanSelectCountGroupBy` and `PlanSelectFilterCountGroupBy`.
  What the operations compute is not modelled.
- `Definition` (definition.dfy): `AggregateType`, the builder-side
  `Instruction` (four kinds; an Aggregate names plain columns), the
  `Transformation` record and its default, and `TransformationBuilder` as a
  class whose `instructions` field each chained call extends by one.
- `Parser` (parser.dfy): the planner-side `Instruction` (six kinds; an
  Aggregate carries `(alias, column)` pairs), the combined aggregate-expression
  list `AggExprs`, the step semantics `Step`/`Run`, the reference plan
  `Plan` (the operations a run applies when nothing fails), the `Parse` method
  with its loop, and the lemmas about ordering, coupling and failure.
- `Pipeline` (pipeline.dfy): hands a built transformation to the planner.
  The two instruction shapes come from two versions of the code; the rule that
  gives a builder column its output alias is not in the repository, so it is a
  parameter `aliasFor`, an explicit assumption. The repository's test chains are
  planned under the rule "alias = column name", which is the output column name
  `value` that test_execute_dataset_with_filter expects
  (src/core/computing.rs:70-73).

The coupling rule, as the code has it: each GroupBy scans the whole list; if
any Aggregate occurs anywhere (before or after it) the GroupBy aggregates by
its own keys with the in-order concatenation of the aliased expressions of
every Aggregate; otherwise it does nothing. An Aggregate alone never changes
the frame. Two consequences of the code:
- a list with Aggregates but no GroupBy performs no aggregation at all, not a
  global one (src/core/parser.rs:64; `AggregateAloneIsInert`);
- a list with several GroupBy instructions aggregates once per GroupBy, each
  by its own keys (src/core/parser.rs:17-54; `AggregationPerGroupBy`).

## Model

| member | source | states |
|---|---|---|
| `Parser.Parse` | src/core/parser.rs:7-69 | the loop's result is `Run` over the whole list from the input frame; an empty list returns the input frame unchanged |
| `Parser.TargetExprs` | src/core/parser.rs:27-46 | one expression per `(alias, column)` pair, in order: Sum→sum, Avg→avg, Min→min, Max→max, Count→count applied to the pair's column, aliased to the pair's alias; the non-Aggregate arm cannot be reached |
| `Parser.AggExprs` | src/core/parser.rs:22-53 | the combined list has one expression per pair over all Aggregate instructions, and is empty when the list holds no Aggregate |
| `Parser.AggExprsAppend` | src/core/parser.rs:22-53 | the combined list of a concatenation is the concatenation of the combined lists: it follows list order |
| `Parser.HeadExprAt` | src/core/parser.rs:24-46 | the first expressions of a list starting with an Aggregate are that Aggregate's, pair by pair |
| `Parser.AggExprAt` | src/core/parser.rs:22-53 | pair k of the Aggregate at position j is at offset (pairs before j) + k, as its kind's function on its column under its alias |
| `Parser.FirstFailureWins` | src/core/parser.rs:13-63 | when the step at position n is the first to fail, the whole parse fails with that step's error and nothing after it is applied |
| `Parser.ErrorPersists` | src/core/parser.rs:11-66 | an error reached on a prefix is the result of the whole walk |
| `Parser.FindAggregate` | src/core/parser.rs:18-21 | the scan for an Aggregate: a found position holds an Aggregate and none comes before it; not found means the list holds none |
| `Parser.HasAggregate` | src/core/parser.rs:18-21 | `find(...).is_some()`: true iff some instruction of the whole list is an Aggregate |
| `Parser.AggregateExpr` | src/core/parser.rs:28-45 | the closure over one pair: Sum→sum, Avg→avg, Min→min, Max→max, Count→count applied to the pair's column, aliased to the pair's alias, i.e. the reference table `AggregateFunctionName`; the `unreachable!()` arm is excluded by `requires i.Aggregate?`, as the filter before it guarantees |
| `Parser.Step` | src/core/parser.rs:12-65 | one match arm, case by case: Select projects (arm 13-16); GroupBy aggregates by its keys with `AggExprs` when `HasAggregate` holds, else leaves the frame (17-55); Filter parses the condition then filters (57-60); Literal and NewCol add one column (61-62); Aggregate leaves the frame (64). A success keeps the table and extends the log by exactly that instruction's planned operations |
| `Parser.Run` | src/core/parser.rs:11-66 | the walk with `?`: a prefix's error is the result, otherwise the last step runs on the prefix's frame; a success keeps the base table and extends its log by exactly the planned operations, in list order |
| `Parser.StepAccepted` | src/core/parser.rs:12-65 | on an engine that refuses nothing, each instruction applies exactly its planned operations to the frame it receives (Literal and NewCol both as with_column) |
| `Parser.RunAccepted` | src/core/parser.rs:11-68 | on an engine that refuses nothing, parse succeeds and applies exactly the plan |
| `Parser.RunAppend` | src/core/parser.rs:11-66 | each instruction sees the frame the instructions before it produced: running a concatenation is running its first part, then its second on that result |
| `Parser.PlanAppend` | src/core/parser.rs:11-66 | the plan of a concatenation is the concatenation of the plans |
| `Parser.PlanAt` | src/core/parser.rs:11-66 | the plan is the operations of the instructions before j, then those of instruction j, then those after it |
| `Parser.RunDependsOnCouplingOnly` | src/core/parser.rs:17-55 | the whole list matters to a parse only through whether it holds an Aggregate and through its combined expression list |
| `Parser.SwapKeepsCoupling` | src/core/parser.rs:18-53 | moving an Aggregate across a neighbouring non-Aggregate keeps "has an Aggregate" and the combined list |
| `Parser.SwapAdjacentAggregate` | src/core/parser.rs:64 | an Aggregate step commutes with the step next to it, since it changes nothing |
| `Parser.SwapGroupByAndAggregate` | src/core/parser.rs:17-55 | GroupBy then Aggregate parses exactly as Aggregate then GroupBy, for any engine, including the errors |
| `Parser.PairExprs` | src/core/parser.rs:24-51 | a two-instruction list with one Aggregate contributes that Aggregate's expressions, whatever the order |
| `Parser.EmittedAggregations` | src/core/parser.rs:17-56 | an instruction plans an aggregation iff it is a GroupBy and the list holds an Aggregate |
| `Parser.AggregationPerGroupBy` | src/core/parser.rs:17-56 | the number of aggregations planned is the number of GroupBy instructions when an Aggregate occurs anywhere, and zero otherwise |
| `Parser.AggregationShape` | src/core/parser.rs:17-54 | every planned aggregation groups by the keys of some GroupBy of the list and uses the combined expression list |
| `Parser.GroupByAggregates` | src/core/parser.rs:17-54 | with an Aggregate anywhere, each GroupBy plans an aggregation by exactly its own keys, in order, with the combined list |
| `Parser.AggregateAloneIsInert` | src/core/parser.rs:64 | a list with no GroupBy plans no aggregation, however many Aggregates it holds |
| `Definition.DefaultTransformation` | src/core/definition.rs:66-69 | the default transformation holds no instructions |
| `Definition.TransformationBuilder.constructor` | src/core/definition.rs:24-28 | a new builder holds no instructions |
| `Definition.TransformationBuilder.Select` | src/core/definition.rs:30-35 | appends one Select with the given names in order; earlier instructions unchanged |
| `Definition.TransformationBuilder.GroupBy` | src/core/definition.rs:37-42 | appends one GroupBy with the given names in order, also when there are none |
| `Definition.TransformationBuilder.Aggregate` | src/core/definition.rs:44-50 | appends one Aggregate with the given kind and names in order |
| `Definition.TransformationBuilder.Filter` | src/core/definition.rs:52-56 | appends one Filter whose text is the condition unchanged |
| `Definition.TransformationBuilder.Build` | src/core/definition.rs:58-62 | the transformation holds exactly the appended instructions in call order |
| `Definition.BuildEmpty` | src/core/definition.rs:24-69 | building a fresh builder gives the default transformation |
| `Definition.BuildSelectCountGroupBy` | src/core/definition.rs:77-90 | select, aggregate(Count), group_by builds exactly those three instructions in call order, the Select among them |
| `Definition.BuildSelectFilterCountGroupBy` | src/core/computing.rs:58-64 | select, filter, aggregate(Count), group_by builds exactly those four instructions in call order |
| `Pipeline.Targets` | src/core/definition.rs:44-50 | under the alias rule, one `(alias, column)` pair per aggregated column, in order |
| `Pipeline.Lower` | src/core/computing.rs:17 | the planner-side list has one instruction per built instruction, in the same position |
| `Pipeline.PlanTransformation` | src/core/computing.rs:17 | planning a transformation is parsing its instructions against the table |
| `Pipeline.PlanDefault` | src/core/computing.rs:17 | the default transformation returns the table unchanged, for any engine |
| `Pipeline.PlanSelectCountGroupBy` | src/core/computing.rs:37-51 | the chain plans a projection, then one aggregation by `category` with count(value) named `value`: two output columns |
| `Pipeline.PlanOfSelectCountGroupBy` | src/core/computing.rs:40-44 | the plan of that chain, with the Aggregate placed before the GroupBy, is projection then aggregation |
| `Pipeline.PlanSelectFilterCountGroupBy` | src/core/computing.rs:55-68 | the chain plans the projection, then the filter `value > 5`, then the aggregation by `category`, in that order |
| `Pipeline.PlanOfSelectFilterCountGroupBy` | src/core/computing.rs:58-64 | the plan of that chain is projection, filter, aggregation |

## Left out

- What `select`, `filter`, `parse_sql_expr`, `aggregate`, `with_column` and the `sum`/`avg`/`min`/`max`/`count` functions compute: they belong to DataFusion, which is not part of this model. The model records which operations are applied, in which order, and lets an `Engine` value decide failures.
- `parse_sql_expr` is modelled as either failing or yielding the condition itself (`SqlCondition(text)`); the parsed expression's structure is the engine's.
- `Pipeline.PlanSelectFilterCountGroupBy`: proves the planned operations of the test at src/core/computing.rs:55-94, not the row values it checks (groups `b` and `c`, counts 1); those need DataFusion's semantics.
- `Pipeline.PlanSelectCountGroupBy`: proves the plan has one aggregation with one key and one expression, not the column count of DataFusion's actual output batches.
- `execute` in src/core/computing.rs: table registration (`MemTable`, `SessionContext`), `show` and `collect` are engine I/O; only the hand-over at line 17 is modelled. Its `batches.first().unwrap()` (line 12) assumes at least one batch; the model starts from an already registered table.
- async/await: the walk is strictly sequential and is modelled synchronously.
- `MetricsManager` and `publish` in src/metrics.rs, and the backend enumeration in src/storage/mod.rs: output plumbing.
- `BuiltInMetricsBuilder`: used by src/metrics.rs but its code is not part of this model.
- The rule that turns a builder Aggregate's plain column names into `(alias, column)` pairs: no code for it is present, so it is the parameter `aliasFor`.
- src/computing.rs and src/definition.rs are not declared as modules (src/lib.rs:2-5) and are dead code; src/test.rs holds Arrow fixtures and floating-point data.
- The error enum wiring in src/lib.rs.
