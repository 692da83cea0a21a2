/**
 * What the four agent variants share: the error kinds a stage can raise, the
 * operation names, and the fixed table from a processed node's name to the file
 * it writes (the same nine entries appear in start-web-server.js,
 * imageAgent-windows-safe.js and imageAgent-context.js).
 */
module Stages {
  import opened Js
  import opened Outcomes

  /** The exceptions a stage raises, one constructor per distinct `throw`. */
  datatype StageError =
    | MissingOperation                 // `params.operation` is falsy
    | MissingParams                    // neither `params` nor `context.params` (imageAgent.js)
    | InvalidInput(input: Value)       // a source that is neither a string nor an object
    | NoPathInObject(input: Value)     // an object whose outputPath/value is not a string
    | UnsupportedOperation(operation: Value)
    | UnknownNode(name: string)
    | DependencyNotFound(path: string)
    | DependencyTimeout(path: string)
    | InputNotFound(input: Value)
    | InvalidOutputPath(outputPath: Value) // `path.dirname` of a non-string (or empty) `params.outputPath`
    | PropertyOfNull                   // a TypeError from reading a property of null
    | Transform(message: string)       // a failure inside the image library
    | FileSystem(code: string)         // a mkdir or rename error code that is rethrown

  /** The three image-transforming operations; `summary` is the fourth operation. */
  datatype ImageOp = Mosaic | Rotate | Resize

  const SummaryOp: string := "summary"

  function OpName(op: ImageOp): string {
    match op
    case Mosaic => "mosaic"
    case Rotate => "rotate"
    case Resize => "resize"
  }

  /** `params.operation` read as one of the three image operations, if it is one. */
  function ParseImageOp(operation: Value): (r: Option<ImageOp>)
    ensures r.Some? ==> operation == Str(OpName(r.value))
    ensures r.None? ==> forall op :: operation != Str(OpName(op))
  {
    if operation == Str("mosaic") then Some(Mosaic)
    else if operation == Str("rotate") then Some(Rotate)
    else if operation == Str("resize") then Some(Resize)
    else None
  }

  /** The pipelines of the demo graph are numbered 1 to 3. */
  type Lane = n: int | 1 <= n <= 3 witness 1

  function Digit(n: Lane): char {
    "123"[n - 1]
  }

  /** The graph's name for the node applying `op` in pipeline `n`, e.g. `rotate2`. */
  function NodeName(op: ImageOp, n: Lane): string {
    OpName(op) + [Digit(n)]
  }

  /** The word an operation's output file carries: mosaic, rotated, final. */
  function Artifact(op: ImageOp): string {
    match op
    case Mosaic => "mosaic"
    case Rotate => "rotated"
    case Resize => "final"
  }

  /** The naming convention `./output/image<n>_<artifact>.jpg`. */
  function ConventionalOutput(op: ImageOp, n: Lane): string {
    "./output/image" + [Digit(n)] + "_" + Artifact(op) + ".jpg"
  }

  const OutputRoot: string := "./output/"
  const InputRoot: string := "./images/"

  /** A string that names a file under the input or output root (`includes('./images/')` or `includes('./output/')`). */
  predicate IsRootedPath(s: string) {
    Includes(s, InputRoot) || Includes(s, OutputRoot)
  }

  /** What a stage consumes: one path (or value), or for `summary` the whole list of inputs. */
  datatype StageInput = Single(source: Value) | Batch(items: seq<Value>)

  /**
   * The context fields read by the agents of imageAgent-windows-safe.js and
   * imageAgent-context.js (`nodeId` is `context.debugInfo?.nodeId`).
   */
  datatype AgentContext = AgentContext(namedInputs: Value, inputs: Value, params: Value, nodeId: Value)

  /** `context.namedInputs || context.inputs || {}`. */
  function NamedInputs(ctx: AgentContext): Value {
    Or(Or(ctx.namedInputs, ctx.inputs), Obj([]))
  }

  /** `context.params || {}`. */
  function ContextParams(ctx: AgentContext): Value {
    Or(ctx.params, Obj([]))
  }

  /** The literal table of processed-node output paths. */
  const ProcessedOutputs: map<string, string> := map[
    "mosaic1" := "./output/image1_mosaic.jpg",
    "mosaic2" := "./output/image2_mosaic.jpg",
    "mosaic3" := "./output/image3_mosaic.jpg",
    "rotate1" := "./output/image1_rotated.jpg",
    "rotate2" := "./output/image2_rotated.jpg",
    "rotate3" := "./output/image3_rotated.jpg",
    "resize1" := "./output/image1_final.jpg",
    "resize2" := "./output/image2_final.jpg",
    "resize3" := "./output/image3_final.jpg"
  ]

  /** The literal table is exactly the naming convention over the nine processed nodes. */
  lemma ProcessedOutputsFollowConvention()
    ensures forall op, n: Lane :: NodeName(op, n) in ProcessedOutputs
    ensures forall op, n: Lane :: ProcessedOutputs[NodeName(op, n)] == ConventionalOutput(op, n)
    ensures forall name | name in ProcessedOutputs :: exists op, n: Lane :: name == NodeName(op, n)
  {
    forall op, n: Lane
      ensures NodeName(op, n) in ProcessedOutputs
      ensures ProcessedOutputs[NodeName(op, n)] == ConventionalOutput(op, n)
    {
      TableEntry(op, n);
    }
    forall name | name in ProcessedOutputs
      ensures exists op, n: Lane :: name == NodeName(op, n)
    {
      if name == "mosaic1" { TableEntry(Mosaic, 1); }
      else if name == "mosaic2" { TableEntry(Mosaic, 2); }
      else if name == "mosaic3" { TableEntry(Mosaic, 3); }
      else if name == "rotate1" { TableEntry(Rotate, 1); }
      else if name == "rotate2" { TableEntry(Rotate, 2); }
      else if name == "rotate3" { TableEntry(Rotate, 3); }
      else if name == "resize1" { TableEntry(Resize, 1); }
      else if name == "resize2" { TableEntry(Resize, 2); }
      else { TableEntry(Resize, 3); }
    }
  }

  /** One entry of the table, spelled out. */
  lemma TableEntry(op: ImageOp, n: Lane)
    ensures NodeName(op, n) in ProcessedOutputs
    ensures ProcessedOutputs[NodeName(op, n)] == ConventionalOutput(op, n)
  {
    var d := Digit(n);
    assert d == '1' || d == '2' || d == '3';
    match op {
      case Mosaic =>
        if d == '1' { assert NodeName(op, n) == "mosaic1"; assert ConventionalOutput(op, n) == "./output/image1_mosaic.jpg"; }
        else if d == '2' { assert NodeName(op, n) == "mosaic2"; assert ConventionalOutput(op, n) == "./output/image2_mosaic.jpg"; }
        else { assert NodeName(op, n) == "mosaic3"; assert ConventionalOutput(op, n) == "./output/image3_mosaic.jpg"; }
      case Rotate =>
        if d == '1' { assert NodeName(op, n) == "rotate1"; assert ConventionalOutput(op, n) == "./output/image1_rotated.jpg"; }
        else if d == '2' { assert NodeName(op, n) == "rotate2"; assert ConventionalOutput(op, n) == "./output/image2_rotated.jpg"; }
        else { assert NodeName(op, n) == "rotate3"; assert ConventionalOutput(op, n) == "./output/image3_rotated.jpg"; }
      case Resize =>
        if d == '1' { assert NodeName(op, n) == "resize1"; assert ConventionalOutput(op, n) == "./output/image1_final.jpg"; }
        else if d == '2' { assert NodeName(op, n) == "resize2"; assert ConventionalOutput(op, n) == "./output/image2_final.jpg"; }
        else { assert NodeName(op, n) == "resize3"; assert ConventionalOutput(op, n) == "./output/image3_final.jpg"; }
    }
  }

  /** Every path in the table lies under the output root, so it passes the agents' `./output/` test. */
  lemma ProcessedOutputsUnderOutputRoot()
    ensures forall name | name in ProcessedOutputs ::
      |OutputRoot| <= |ProcessedOutputs[name]| && ProcessedOutputs[name][..|OutputRoot|] == OutputRoot
    ensures forall name | name in ProcessedOutputs :: Includes(ProcessedOutputs[name], OutputRoot)
  {
    ProcessedOutputsFollowConvention();
    forall name | name in ProcessedOutputs
      ensures |OutputRoot| <= |ProcessedOutputs[name]| && ProcessedOutputs[name][..|OutputRoot|] == OutputRoot
      ensures Includes(ProcessedOutputs[name], OutputRoot)
    {
      var op, n: Lane :| name == NodeName(op, n);
      ConventionalOutputUnderRoot(op, n);
    }
  }

  lemma ConventionalOutputUnderRoot(op: ImageOp, n: Lane)
    ensures |OutputRoot| <= |ConventionalOutput(op, n)|
    ensures ConventionalOutput(op, n)[..|OutputRoot|] == OutputRoot
    ensures Includes(ConventionalOutput(op, n), OutputRoot)
  {
    var rest := "image" + [Digit(n)] + "_" + Artifact(op) + ".jpg";
    var p := ConventionalOutput(op, n);
    assert p == OutputRoot + rest;
    assert p[..|OutputRoot|] == OutputRoot;
    assert OccursAt(p, OutputRoot, 0);
    IncludesAt(p, OutputRoot);
  }
}
