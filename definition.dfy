/** The instruction vocabulary as the builder produces it, and the fluent
    builder that accumulates instructions one chained call at a time.

    This is the builder-side shape: four instruction kinds, and an Aggregate
    that names its columns without output aliases. The planner consumes a
    richer shape (module Parser).
 */
module Definition {

  datatype AggregateType = Sum | Avg | Min | Max | Count

  datatype Instruction =
    | Select(columns: seq<string>)
    | GroupBy(columns: seq<string>)
    | Aggregate(kind: AggregateType, columns: seq<string>)
    | Filter(condition: string)

  /** An ordered list of instructions, fixed once built. */
  datatype Transformation = Transformation(instructions: seq<Instruction>)

  /** Transformation::default(): the transformation with no instructions. */
  function DefaultTransformation(): (t: Transformation)
    ensures |t.instructions| == 0
  {
    Transformation([])
  }

  /** The fluent builder. Each Rust call takes the builder by value, pushes one
      instruction and hands the builder back; here the calls update one object. */
  class TransformationBuilder {
    var instructions: seq<Instruction>

    /** TransformationBuilder::new */
    constructor ()
      ensures instructions == []
    {
      instructions := [];
    }

    method Select(columns: seq<string>)
      modifies this
      ensures instructions == old(instructions) + [Instruction.Select(columns)]
    {
      instructions := instructions + [Instruction.Select(columns)];
    }

    /** Also records an empty key list: a global aggregation. */
    method GroupBy(columns: seq<string>)
      modifies this
      ensures instructions == old(instructions) + [Instruction.GroupBy(columns)]
    {
      instructions := instructions + [Instruction.GroupBy(columns)];
    }

    method Aggregate(kind: AggregateType, columns: seq<string>)
      modifies this
      ensures instructions == old(instructions) + [Instruction.Aggregate(kind, columns)]
    {
      instructions := instructions + [Instruction.Aggregate(kind, columns)];
    }

    /** The condition text is stored unparsed; it is checked only when planned. */
    method Filter(condition: string)
      modifies this
      ensures instructions == old(instructions) + [Instruction.Filter(condition)]
    {
      instructions := instructions + [Instruction.Filter(condition)];
    }

    /** Hands the accumulated instructions over, in call order. */
    method Build() returns (t: Transformation)
      ensures t.instructions == instructions
    {
      t := Transformation(instructions);
    }
  }

  /** A fresh builder that is built straight away gives the default transformation. */
  method BuildEmpty() returns (t: Transformation)
    ensures t == DefaultTransformation()
  {
    var builder := new TransformationBuilder();
    t := builder.Build();
  }

  /** The chain select, aggregate, group_by yields exactly those three
      instructions in call order, the projection among them. */
  method BuildSelectCountGroupBy() returns (t: Transformation)
    ensures Instruction.Select(["id", "value", "category"]) in t.instructions
    ensures t.instructions == [
      Instruction.Select(["id", "value", "category"]),
      Instruction.Aggregate(Count, ["value"]),
      Instruction.GroupBy(["category"])
    ]
  {
    var builder := new TransformationBuilder();
    builder.Select(["id", "value", "category"]);
    builder.Aggregate(Count, ["value"]);
    builder.GroupBy(["category"]);
    t := builder.Build();
  }

  /** The same chain with a filter after the projection: the condition is
      kept as text, in call order. */
  method BuildSelectFilterCountGroupBy() returns (t: Transformation)
    ensures t.instructions == [
      Instruction.Select(["id", "value", "category"]),
      Instruction.Filter("value > 5"),
      Instruction.Aggregate(Count, ["value"]),
      Instruction.GroupBy(["category"])
    ]
  {
    var builder := new TransformationBuilder();
    builder.Select(["id", "value", "category"]);
    builder.Filter("value > 5");
    builder.Aggregate(Count, ["value"]);
    builder.GroupBy(["category"]);
    t := builder.Build();
  }
}
