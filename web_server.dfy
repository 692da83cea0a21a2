/**
 * The stage agent of start-web-server.js (`completeImageProcessingAgent`) and the
 * helpers it relies on: resolving a symbolic node name against the loaded graph
 * declaration, classifying a stage's first input, the mosaic size computation,
 * the readiness wait for a dependency file, and the summary record.
 *
 * The image library, the clock and the filesystem are outside the model: what
 * they report is passed in (`execute`, `processingTime`, `timestamp`, the mkdir
 * and write outcomes, the file observations of a wait).
 */
module WebServer {
  import opened Outcomes
  import opened Js
  import opened Stages
  import Mosaic
  import DirCreation

  // ----- Reference resolution -----

  /** `graphData.nodes[nodeName]`, or undefined when there is no graph or no nodes table. */
  function Declaration(nodeName: string, graphData: Value): Value {
    if Truthy(graphData) && Truthy(Field(graphData, "nodes")) then Field(Field(graphData, "nodes"), nodeName)
    else Undefined
  }

  /**
   * `resolveNodeValue`: a declared node's truthy `value` wins; a declared node
   * without one resolves through the processed-node table; any other name comes
   * back unchanged. It never throws.
   */
  function ResolveNodeValue(nodeName: string, graphData: Value): (r: Value)
    ensures !Truthy(Declaration(nodeName, graphData)) ==> r == Str(nodeName)
    ensures Truthy(Declaration(nodeName, graphData)) && Truthy(Field(Declaration(nodeName, graphData), "value")) ==>
      r == Field(Declaration(nodeName, graphData), "value")
    ensures Truthy(Declaration(nodeName, graphData)) && !Truthy(Field(Declaration(nodeName, graphData), "value")) ==>
      r == Str(if nodeName in ProcessedOutputs then ProcessedOutputs[nodeName] else nodeName)
  {
    if !Truthy(graphData) || !Truthy(Field(graphData, "nodes")) then
      Str(nodeName)
    else
      var node := Field(Field(graphData, "nodes"), nodeName);
      if !Truthy(node) then Str(nodeName)
      else if Truthy(Field(node, "value")) then Field(node, "value")
      else if nodeName in ProcessedOutputs then Str(ProcessedOutputs[nodeName])
      else Str(nodeName)
  }

  /** Without graph data, or without its `nodes` table, every name resolves to itself. */
  lemma ResolveWithoutGraphIsIdentity(nodeName: string, graphData: Value)
    requires !Truthy(graphData) || !Truthy(Field(graphData, "nodes"))
    ensures ResolveNodeValue(nodeName, graphData) == Str(nodeName)
  {
  }

  /**
   * A declared processed node without a value resolves by the naming convention
   * `./output/image<n>_<artifact>.jpg`, so resolution agrees with the convention.
   */
  lemma ResolveFollowsConvention(op: ImageOp, n: Lane, graphData: Value)
    requires Truthy(Declaration(NodeName(op, n), graphData))
    requires !Truthy(Field(Declaration(NodeName(op, n), graphData), "value"))
    ensures ResolveNodeValue(NodeName(op, n), graphData) == Str(ConventionalOutput(op, n))
  {
    TableEntry(op, n);
  }

  /** Resolution changes a name only for a declared node. */
  lemma ResolveChangesOnlyDeclared(nodeName: string, graphData: Value)
    requires ResolveNodeValue(nodeName, graphData) != Str(nodeName)
    ensures Truthy(Declaration(nodeName, graphData))
  {
  }

  // ----- Input classification -----

  /**
   * The first-input branch of `completeImageProcessingAgent`: a rooted path is used
   * as is, any other string is resolved as a node name, an object yields its
   * `outputPath || value` which must be a string, and anything else is refused.
   */
  function ClassifyFirstInput(first: Value, graphData: Value): (r: Result<Value, StageError>)
    ensures first.Str? && IsRootedPath(first.s) ==> r == Ok(first)
    ensures first.Str? && !IsRootedPath(first.s) ==> r == Ok(ResolveNodeValue(first.s, graphData))
    ensures IsObject(first) && r.Ok? ==>
      r.value.Str? && r.value.s != "" &&
      (r.value == Field(first, "outputPath") || (!Truthy(Field(first, "outputPath")) && r.value == Field(first, "value")))
    ensures IsObject(first) && Field(first, "outputPath").Str? && Field(first, "outputPath").s != "" ==>
      r == Ok(Field(first, "outputPath"))
    ensures IsObject(first) && !Truthy(Field(first, "outputPath")) &&
            Field(first, "value").Str? && Field(first, "value").s != "" ==>
      r == Ok(Field(first, "value"))
    ensures IsObject(first) ==>
      (r.Err? <==>
        !(Field(first, "outputPath").Str? && Field(first, "outputPath").s != "") &&
        !(!Truthy(Field(first, "outputPath")) && Field(first, "value").Str? && Field(first, "value").s != ""))
    ensures IsObject(first) && r.Err? ==> r.error == NoPathInObject(first)
    ensures !first.Str? && !IsObject(first) ==> r == Err(InvalidInput(first))
  {
    if first.Str? then
      if IsRootedPath(first.s) then Ok(first) else Ok(ResolveNodeValue(first.s, graphData))
    else if IsObject(first) then
      var v := Or(Or(Field(first, "outputPath"), Field(first, "value")), first);
      if v.Str? then Ok(v) else Err(NoPathInObject(first))
    else
      Err(InvalidInput(first))
  }

  /** A path produced by resolution through the table is rooted, so classifying it again leaves it unchanged. */
  lemma ResolvedTablePathIsStable(nodeName: string, graphData: Value, other: Value)
    requires nodeName in ProcessedOutputs
    requires ResolveNodeValue(nodeName, graphData) == Str(ProcessedOutputs[nodeName])
    ensures ClassifyFirstInput(ResolveNodeValue(nodeName, graphData), other) == Ok(Str(ProcessedOutputs[nodeName]))
  {
    ProcessedOutputsUnderOutputRoot();
  }

  /** The context fields the agent reads; an absent `inputs` is the empty list. */
  datatype WebContext = WebContext(namedInputs: Value, inputs: seq<Value>, params: Value, nodeId: Value)

  /** `context.params || {}`. */
  function Params(ctx: WebContext): Value {
    Or(ctx.params, Obj([]))
  }

  function Operation(ctx: WebContext): Value {
    Field(Params(ctx), "operation")
  }

  /** `inputs.length > 0 ? inputs[0] : Object.values(namedInputs)[0]`. */
  function FirstInput(ctx: WebContext): (r: Value)
    ensures |ctx.inputs| > 0 ==> r == ctx.inputs[0]
    ensures |ctx.inputs| == 0 && ctx.namedInputs.Obj? && |ctx.namedInputs.props| > 0 ==> r == ctx.namedInputs.props[0].val
    ensures |ctx.inputs| == 0 && (!Truthy(ctx.namedInputs) || ctx.namedInputs == Obj([])) ==> r == Undefined
  {
    if |ctx.inputs| > 0 then ctx.inputs[0]
    else
      var vs := ObjectValues(Or(ctx.namedInputs, Obj([])));
      if |vs| > 0 then vs[0] else Undefined
  }

  /**
   * The checks and input selection that precede the dispatch. A summary takes
   * the positional inputs, or else the named inputs in order; any other
   * operation takes the first of those, as a path.
   */
  function SelectInput(ctx: WebContext, graphData: Value): (r: Result<StageInput, StageError>)
    ensures !Truthy(Operation(ctx)) ==> r == Err(MissingOperation)
    ensures Operation(ctx) == Str(SummaryOp) ==> r.Ok? && r.value.Batch?
    ensures Operation(ctx) == Str(SummaryOp) && |ctx.inputs| > 0 ==> r.value.items == ctx.inputs
    ensures Operation(ctx) == Str(SummaryOp) && |ctx.inputs| == 0 && ctx.namedInputs.Obj? ==>
      |r.value.items| == |ctx.namedInputs.props| &&
      forall i :: 0 <= i < |r.value.items| ==> r.value.items[i] == ctx.namedInputs.props[i].val
    ensures Operation(ctx) == Str(SummaryOp) && |ctx.inputs| == 0 && !Truthy(ctx.namedInputs) ==> r.value.items == []
    ensures Truthy(Operation(ctx)) && Operation(ctx) != Str(SummaryOp) ==> r.Ok? ==> r.value.Single?
    ensures Truthy(Operation(ctx)) && Operation(ctx) != Str(SummaryOp) && |ctx.inputs| > 0 &&
            ctx.inputs[0].Str? && IsRootedPath(ctx.inputs[0].s) ==>
      r == Ok(Single(ctx.inputs[0]))
    ensures Truthy(Operation(ctx)) && Operation(ctx) != Str(SummaryOp) && |ctx.inputs| > 0 && IsObject(ctx.inputs[0]) &&
            Field(ctx.inputs[0], "outputPath").Str? && Field(ctx.inputs[0], "outputPath").s != "" ==>
      r == Ok(Single(Field(ctx.inputs[0], "outputPath")))
    ensures Truthy(Operation(ctx)) && Operation(ctx) != Str(SummaryOp) && |ctx.inputs| == 0 &&
            ctx.namedInputs.Obj? && |ctx.namedInputs.props| > 0 && ctx.namedInputs.props[0].val.Str? &&
            IsRootedPath(ctx.namedInputs.props[0].val.s) ==>
      r == Ok(Single(ctx.namedInputs.props[0].val))
    ensures Truthy(Operation(ctx)) && Operation(ctx) != Str(SummaryOp) && |ctx.inputs| == 0 &&
            (!Truthy(ctx.namedInputs) || ctx.namedInputs == Obj([])) ==>
      r == Err(InvalidInput(Undefined))
    ensures Truthy(Operation(ctx)) && Operation(ctx) != Str(SummaryOp) ==>
      (r.Ok? <==> ClassifyFirstInput(FirstInput(ctx), graphData).Ok?) &&
      (r.Ok? ==> r.value == Single(ClassifyFirstInput(FirstInput(ctx), graphData).value)) &&
      (r.Err? ==> r.error == ClassifyFirstInput(FirstInput(ctx), graphData).error)
    ensures r.Err? ==> r.error == MissingOperation || r.error.InvalidInput? || r.error.NoPathInObject?
  {
    if !Truthy(Operation(ctx)) then Err(MissingOperation)
    else if Operation(ctx) == Str(SummaryOp) then
      Ok(Batch(if |ctx.inputs| > 0 then ctx.inputs else ObjectValues(Or(ctx.namedInputs, Obj([])))))
    else
      match ClassifyFirstInput(FirstInput(ctx), graphData)
      case Ok(v) => Ok(Single(v))
      case Err(e) => Err(e)
  }

  // ----- The summary record -----

  /** One line of the summary; `operation` is present only for object inputs. */
  datatype Entry = Entry(pipeline: nat, processingTime: Value, outputPath: Value, operation: Option<Value>)

  /** The summary record, without its wall-clock `completedAt` and its `processingNode`. */
  datatype Summary = Summary(totalProcessed: nat, results: seq<Entry>)

  const NotAvailable: Value := Str("N/A")

  /** The `inputs.map` callback of `safeSummary`. */
  function NormalizeEntry(index: nat, input: Value): Entry {
    if IsObject(input) then
      Entry(index + 1, Or(Field(input, "processingTime"), NotAvailable),
            Or(Field(input, "outputPath"), Field(input, "value")), Some(Field(input, "operation")))
    else
      Entry(index + 1, NotAvailable, input, None)
  }

  /**
   * `safeSummary`: one entry per input, numbered from 1 in input order; an object
   * contributes its `outputPath || value` and `processingTime || 'N/A'`, anything
   * else is taken as the path itself with no processing time.
   */
  function SafeSummary(inputs: seq<Value>): (s: Summary)
    ensures s.totalProcessed == |inputs| == |s.results|
    ensures forall i :: 0 <= i < |inputs| ==> s.results[i].pipeline == i + 1
    ensures forall i :: 0 <= i < |inputs| && !IsObject(inputs[i]) ==>
      s.results[i].outputPath == inputs[i] && s.results[i].processingTime == NotAvailable && s.results[i].operation.None?
    ensures forall i :: 0 <= i < |inputs| && IsObject(inputs[i]) ==>
      s.results[i].outputPath == Or(Field(inputs[i], "outputPath"), Field(inputs[i], "value")) &&
      s.results[i].processingTime == Or(Field(inputs[i], "processingTime"), NotAvailable) &&
      s.results[i].operation == Some(Field(inputs[i], "operation"))
  {
    Summary(|inputs|, seq(|inputs|, i requires 0 <= i < |inputs| => NormalizeEntry(i, inputs[i])))
  }

  /** The summary of a concatenation is the two summaries, the second renumbered after the first. */
  lemma {:induction false} SafeSummaryAppend(a: seq<Value>, b: seq<Value>)
    ensures SafeSummary(a + b).results ==
      SafeSummary(a).results + seq(|b|, j requires 0 <= j < |b| => NormalizeEntry(|a| + j, b[j]))
  {
    var lhs := SafeSummary(a + b).results;
    var rhs := SafeSummary(a).results + seq(|b|, j requires 0 <= j < |b| => NormalizeEntry(|a| + j, b[j]));
    assert |lhs| == |rhs|;
    forall i | 0 <= i < |lhs| ensures lhs[i] == rhs[i] {
      if i < |a| {
        assert (a + b)[i] == a[i];
      } else {
        assert (a + b)[i] == b[i - |a|];
      }
    }
  }

  // ----- Dispatch and the stage's result record -----

  /** The record the agent returns to the graph engine (its `timestamp` is passed in). */
  function StageRecord(params: Value, result: Value, processingTime: int, timestamp: string, nodeId: Value): Value {
    var out := Or(Field(params, "outputPath"), result);
    Obj([Prop("outputPath", out), Prop("operation", Field(params, "operation")), Prop("processingTime", Num(processingTime)),
         Prop("timestamp", Str(timestamp)), Prop("nodeId", nodeId), Prop("value", out)])
  }

  /** The summary record as the JSON object `safeSummary` returns. */
  function SummaryValue(s: Summary): Value {
    Obj([Prop("totalProcessed", Num(s.totalProcessed)),
         Prop("results", Arr(seq(|s.results|, i requires 0 <= i < |s.results| => EntryValue(s.results[i]))))])
  }

  function EntryValue(e: Entry): Value {
    Obj([Prop("pipeline", Num(e.pipeline)), Prop("processingTime", e.processingTime), Prop("outputPath", e.outputPath)] +
        (if e.operation.Some? then [Prop("operation", e.operation.value)] else []))
  }

  /**
   * `completeImageProcessingAgent`. `execute` stands for safeMosaic, safeRotate
   * and safeResize (the image library and the filesystem); the summary is built
   * here, and `summaryMkdir`/`summaryWrite` are the outcomes of creating its
   * directory and writing its file.
   */
  function CompleteAgent(ctx: WebContext, graphData: Value, execute: (ImageOp, Value) -> Result<Value, StageError>,
                         summaryMkdir: Option<string>, summaryWrite: Option<string>,
                         processingTime: int, timestamp: string): (r: Result<Value, StageError>)
    ensures SelectInput(ctx, graphData).Err? ==> r == Err(SelectInput(ctx, graphData).error)
    ensures SelectInput(ctx, graphData).Ok? && Operation(ctx) != Str(SummaryOp) && ParseImageOp(Operation(ctx)).None? ==>
      r == Err(UnsupportedOperation(Operation(ctx)))
    ensures r.Ok? && Operation(ctx) != Str(SummaryOp) ==>
      var op := ParseImageOp(Operation(ctx)).value;
      var src := SelectInput(ctx, graphData).value.source;
      execute(op, src).Ok? && r.value == StageRecord(Params(ctx), execute(op, src).value, processingTime, timestamp, ctx.nodeId)
    ensures r.Ok? && Operation(ctx) == Str(SummaryOp) ==>
      r.value == StageRecord(Params(ctx), SummaryValue(SafeSummary(SelectInput(ctx, graphData).value.items)),
                             processingTime, timestamp, ctx.nodeId)
    ensures r.Err? && SelectInput(ctx, graphData).Ok? && ParseImageOp(Operation(ctx)).Some? ==>
      execute(ParseImageOp(Operation(ctx)).value, SelectInput(ctx, graphData).value.source) == Err(r.error)
    ensures SelectInput(ctx, graphData).Ok? && ParseImageOp(Operation(ctx)).Some? ==>
      (r.Ok? <==> execute(ParseImageOp(Operation(ctx)).value, SelectInput(ctx, graphData).value.source).Ok?)
    ensures Operation(ctx) == Str(SummaryOp) && !Field(Params(ctx), "outputPath").Str? ==>
      r == Err(InvalidOutputPath(Field(Params(ctx), "outputPath")))
    ensures Operation(ctx) == Str(SummaryOp) && Field(Params(ctx), "outputPath").Str? ==>
      (r.Ok? <==> DirCreation.EnsureDirTolerant(summaryMkdir).Ok? && summaryWrite.None?) &&
      (DirCreation.EnsureDirTolerant(summaryMkdir).Err? ==> r == Err(FileSystem(summaryMkdir.value))) &&
      (DirCreation.EnsureDirTolerant(summaryMkdir).Ok? && summaryWrite.Some? ==> r == Err(FileSystem(summaryWrite.value)))
  {
    match SelectInput(ctx, graphData)
    case Err(e) => Err(e)
    case Ok(input) =>
      var operation := Operation(ctx);
      if operation == Str(SummaryOp) then
        var out := Field(Params(ctx), "outputPath");
        if !out.Str? then Err(InvalidOutputPath(out))
        else
        match DirCreation.EnsureDirTolerant(summaryMkdir)
        case Err(code) => Err(FileSystem(code))
        case Ok(_) =>
          if summaryWrite.Some? then Err(FileSystem(summaryWrite.value))
          else Ok(StageRecord(Params(ctx), SummaryValue(SafeSummary(input.items)), processingTime, timestamp, ctx.nodeId))
      else
        match ParseImageOp(operation)
        case None => Err(UnsupportedOperation(operation))
        case Some(op) =>
          match execute(op, input.source)
          case Err(e) => Err(e)
          case Ok(result) => Ok(StageRecord(Params(ctx), result, processingTime, timestamp, ctx.nodeId))
  }

  /**
   * A stage's record feeds the next stage: when the stage was given a non-empty
   * `params.outputPath`, classifying its record as the next stage's first input
   * yields exactly that path.
   */
  lemma RecordFeedsNextStage(params: Value, result: Value, processingTime: int, timestamp: string, nodeId: Value, graphData: Value)
    requires Field(params, "outputPath").Str? && Field(params, "outputPath").s != ""
    ensures ClassifyFirstInput(StageRecord(params, result, processingTime, timestamp, nodeId), graphData) ==
      Ok(Field(params, "outputPath"))
  {
    var rec := StageRecord(params, result, processingTime, timestamp, nodeId);
    assert Field(rec, "outputPath") == Field(params, "outputPath");
  }

  /** The summary lists, for each stage record it receives, the path that stage wrote and its time. */
  lemma SummaryOfRecords(records: seq<Value>, paths: seq<string>, times: seq<int>, i: nat)
    requires |records| == |paths| == |times| && i < |records|
    requires paths[i] != "" && times[i] != 0
    requires exists params, result, timestamp, nodeId ::
      Field(params, "outputPath") == Str(paths[i]) && records[i] == StageRecord(params, result, times[i], timestamp, nodeId)
    ensures SafeSummary(records).results[i].outputPath == Str(paths[i])
    ensures SafeSummary(records).results[i].processingTime == Num(times[i])
    ensures SafeSummary(records).results[i].pipeline == i + 1
  {
    var params, result, timestamp, nodeId :|
      Field(params, "outputPath") == Str(paths[i]) && records[i] == StageRecord(params, result, times[i], timestamp, nodeId);
    var props := records[i].props;
    assert Field(records[i], "outputPath") == Str(paths[i]);
    assert Lookup(props, "processingTime") == Lookup(props[1..], "processingTime") == Lookup(props[2..], "processingTime");
    assert Field(records[i], "processingTime") == Num(times[i]);
  }

  // ----- The mosaic stage's checks and size -----

  /**
   * `const { blockSize = 10 } = params` as the division sees it: the default for
   * an absent value, the number itself, and `Number(v)` for a boolean or null.
   * Strings, arrays and objects are not converted (`None`).
   */
  function BlockSize(params: Value): (b: Option<int>)
    ensures Field(params, "blockSize") == Undefined ==> b == Some(10)
    ensures Field(params, "blockSize").Num? ==> b == Some(Field(params, "blockSize").n)
    ensures Field(params, "blockSize") == Null || Field(params, "blockSize") == Bool(false) ==> b == Some(0)
    ensures Field(params, "blockSize") == Bool(true) ==> b == Some(1)
  {
    match Field(params, "blockSize")
    case Undefined => Some(10)
    case Num(n) => Some(n)
    case Null => Some(0)
    case Bool(t) => Some(if t then 1 else 0)
    case _ => None
  }

  /**
   * `safeMosaic` up to the resize: `path.dirname(outputPath)` needs a string, the
   * output directory is ensured first, then the input must exist, then the
   * reduced size is computed from the image's metadata with each side clamped
   * to at least 1.
   */
  function SafeMosaicSize(inputPath: Value, params: Value, mkdirError: Option<string>, inputExists: bool,
                          original: Mosaic.Size): (r: Result<Mosaic.Size, StageError>)
    requires original.width >= 1 && original.height >= 1
    ensures !Field(params, "outputPath").Str? ==> r == Err(InvalidOutputPath(Field(params, "outputPath")))
    ensures Field(params, "outputPath").Str? && DirCreation.EnsureDirTolerant(mkdirError).Err? ==>
      r == Err(FileSystem(mkdirError.value))
    ensures Field(params, "outputPath").Str? && DirCreation.EnsureDirTolerant(mkdirError).Ok? && !inputExists ==>
      r == Err(InputNotFound(inputPath))
    ensures r.Ok? <==>
      Field(params, "outputPath").Str? && DirCreation.EnsureDirTolerant(mkdirError).Ok? && inputExists &&
      BlockSize(params).Some? && BlockSize(params).value != 0
    ensures r.Ok? ==> r.value == Mosaic.ClampedSize(original, BlockSize(params).value).value
    ensures r.Ok? ==> 1 <= r.value.width && 1 <= r.value.height
    ensures r.Ok? && BlockSize(params).value > 0 ==>
      r.value.width <= original.width && r.value.height <= original.height
  {
    if !Field(params, "outputPath").Str? then Err(InvalidOutputPath(Field(params, "outputPath")))
    else
    match DirCreation.EnsureDirTolerant(mkdirError)
    case Err(code) => Err(FileSystem(code))
    case Ok(_) =>
      if !inputExists then Err(InputNotFound(inputPath))
      else
        match BlockSize(params)
        case None => Err(Transform("block size is not a number"))
        case Some(b) =>
          match Mosaic.ClampedSize(original, b)
          case None => Err(Transform("block size is zero"))
          case Some(s) => Ok(s)
  }

  // ----- Waiting for a dependency -----

  /** What one turn of the wait loop sees: no file, or a file of some size. */
  datatype Probe = Missing | Present(size: nat)

  predicate Ready(p: Probe) {
    p.Present? && p.size > 0
  }

  /**
   * `waitForFileSafe`: `polls` holds one observation per loop turn that the
   * 5000 ms deadline admits. The wait succeeds at the first observation of a
   * non-empty file and fails with a timeout when no turn saw one.
   */
  method WaitForFileSafe(filePath: string, polls: seq<Probe>) returns (r: Result<bool, StageError>, turns: nat)
    ensures turns <= |polls|
    ensures forall j :: 0 <= j < turns - 1 ==> !Ready(polls[j])
    ensures r.Ok? ==> r.value && turns > 0 && Ready(polls[turns - 1])
    ensures r.Err? ==> r.error == DependencyTimeout(filePath) && turns == |polls| && forall j :: 0 <= j < |polls| ==> !Ready(polls[j])
    ensures r.Ok? <==> exists j :: 0 <= j < |polls| && Ready(polls[j])
  {
    var i := 0;
    while i < |polls|
      invariant 0 <= i <= |polls|
      invariant forall j :: 0 <= j < i ==> !Ready(polls[j])
    {
      if Ready(polls[i]) {
        return Ok(true), i + 1;
      }
      i := i + 1;
    }
    return Err(DependencyTimeout(filePath)), |polls|;
  }
}
