/**
 * The agent of imageAgent-windows-safe.js: every image stage writes through
 * `windowsSafeFileWrite`, which holds a registry key for the target while it
 * writes a temporary file and renames it into place. Node names are resolved
 * with a bounded number of existence probes, and a per-node stagger delay is
 * looked up before the write.
 *
 * The filesystem is the map `files`; the millisecond clock that names temporary
 * files is the counter `clock`; what the image library does with a temporary
 * path is the parameter `produce`, and the outcomes of mkdir, rename and file
 * probes are parameters as well.
 */
module WindowsSafe {
  import opened Outcomes
  import opened Js
  import opened Stages
  import opened Locks
  import DirCreation

  // ----- Temporary file names -----

  /** `outputPath + '.tmp' + Date.now()`. */
  function TempPath(outputPath: string, tick: nat): string {
    outputPath + ".tmp" + DecimalString(tick)
  }

  /** A temporary path never coincides with its target, and different ticks give different names. */
  lemma TempPathFresh(outputPath: string, t1: nat, t2: nat)
    ensures TempPath(outputPath, t1) != outputPath
    ensures TempPath(outputPath, t1) == TempPath(outputPath, t2) ==> t1 == t2
  {
    var n := |outputPath| + 4;
    if TempPath(outputPath, t1) == TempPath(outputPath, t2) {
      assert TempPath(outputPath, t1)[n..] == DecimalString(t1);
      assert TempPath(outputPath, t2)[n..] == DecimalString(t2);
      DecimalStringInjective(t1, t2);
    }
  }

  // ----- Stagger delays -----

  /** The per-node delay table of `getNodeDelay`, in milliseconds. */
  const NodeDelays: map<string, nat> := map[
    "mosaic1" := 0, "mosaic2" := 25, "mosaic3" := 50,
    "rotate1" := 10, "rotate2" := 35, "rotate3" := 60,
    "resize1" := 20, "resize2" := 45, "resize3" := 70
  ]

  /** `getNodeDelay`: no delay for a missing or unknown node id, the table's value otherwise. */
  function GetNodeDelay(nodeId: Value): (d: nat)
    ensures d <= 70
    ensures nodeId.Str? && nodeId.s in NodeDelays ==> d == NodeDelays[nodeId.s]
    ensures !(nodeId.Str? && nodeId.s in NodeDelays) ==> d == 0
  {
    if !Truthy(nodeId) then 0
    else if nodeId.Str? && nodeId.s in NodeDelays then NodeDelays[nodeId.s]
    else 0
  }

  /** The offset of an operation inside its pipeline's stagger. */
  function OpOffset(op: ImageOp): nat {
    match op
    case Mosaic => 0
    case Rotate => 10
    case Resize => 20
  }

  /** The table follows one rule: 25 ms per pipeline plus 10 ms per step. */
  lemma NodeDelayStagger(op: ImageOp, n: Lane)
    ensures GetNodeDelay(Str(NodeName(op, n))) == 25 * (n - 1) + OpOffset(op)
  {
    TableEntry(op, n);
    var d := Digit(n);
    assert d == '1' || d == '2' || d == '3';
    match op {
      case Mosaic =>
        if d == '1' { assert NodeName(op, n) == "mosaic1"; }
        else if d == '2' { assert NodeName(op, n) == "mosaic2"; }
        else { assert NodeName(op, n) == "mosaic3"; }
      case Rotate =>
        if d == '1' { assert NodeName(op, n) == "rotate1"; }
        else if d == '2' { assert NodeName(op, n) == "rotate2"; }
        else { assert NodeName(op, n) == "rotate3"; }
      case Resize =>
        if d == '1' { assert NodeName(op, n) == "resize1"; }
        else if d == '2' { assert NodeName(op, n) == "resize2"; }
        else { assert NodeName(op, n) == "resize3"; }
    }
  }

  /** No two of the nine processed nodes share a delay, so their first filesystem accesses are staggered. */
  lemma NodeDelaysDistinct(op1: ImageOp, n1: Lane, op2: ImageOp, n2: Lane)
    requires op1 != op2 || n1 != n2
    ensures GetNodeDelay(Str(NodeName(op1, n1))) != GetNodeDelay(Str(NodeName(op2, n2)))
  {
    NodeDelayStagger(op1, n1);
    NodeDelayStagger(op2, n2);
  }

  // ----- Node name resolution with bounded probing -----

  /** The initial input nodes of `resolveNodeNameToPath`. */
  const BaseImages: map<string, string> := map[
    "image1" := "./images/image1.jpg",
    "image2" := "./images/image2.jpg",
    "image3" := "./images/image3.jpg"
  ]

  const MaxProbes: nat := 10

  /** Whether existence probe `i` (`fs.access`) found the file; probes beyond the list find nothing. */
  predicate Found(found: seq<bool>, i: int) {
    0 <= i < |found| && found[i]
  }

  /** Some probe among the ten finds the file. */
  predicate SomeProbeFinds(found: seq<bool>) {
    exists j :: 0 <= j < MaxProbes && Found(found, j)
  }

  /**
   * What `resolveNodeNameToPath` settles on: an input node maps to its image
   * without a check; a processed node maps to its output file when one of the
   * ten probes finds it, else "dependency not found"; any other name is unknown.
   * Every path it yields is rooted, so feeding it back as a source leaves it as is.
   */
  function ResolvedPath(nodeName: string, found: seq<bool>): (r: Result<string, StageError>)
    ensures r.Ok? ==> IsRootedPath(r.value)
    ensures r.Ok? <==> nodeName in BaseImages || (nodeName in ProcessedOutputs && SomeProbeFinds(found))
    ensures r.Ok? && nodeName in BaseImages ==> r.value == BaseImages[nodeName]
    ensures r.Ok? && nodeName !in BaseImages ==> nodeName in ProcessedOutputs && r.value == ProcessedOutputs[nodeName]
    ensures r.Err? && nodeName in ProcessedOutputs ==> r.error == DependencyNotFound(ProcessedOutputs[nodeName])
    ensures nodeName !in BaseImages && nodeName !in ProcessedOutputs ==> r == Err(UnknownNode(nodeName))
  {
    if nodeName in BaseImages then
      BaseImagesUnderInputRoot(nodeName);
      Ok(BaseImages[nodeName])
    else if nodeName in ProcessedOutputs then
      ProcessedOutputsUnderOutputRoot();
      if SomeProbeFinds(found) then Ok(ProcessedOutputs[nodeName])
      else Err(DependencyNotFound(ProcessedOutputs[nodeName]))
    else Err(UnknownNode(nodeName))
  }

  lemma BaseImagesUnderInputRoot(name: string)
    requires name in BaseImages
    ensures Includes(BaseImages[name], InputRoot)
  {
    var p := BaseImages[name];
    if name == "image1" { assert p == InputRoot + "image1.jpg"; }
    else if name == "image2" { assert p == InputRoot + "image2.jpg"; }
    else { assert p == InputRoot + "image3.jpg"; }
    assert p[..|InputRoot|] == InputRoot;
    assert OccursAt(p, InputRoot, 0);
    IncludesAt(p, InputRoot);
  }

  /** A string without a slash contains neither root, so it is read as a node name. */
  lemma SlashFreeNotRooted(s: string)
    requires '/' !in s
    ensures !IsRootedPath(s)
  {
    IncludesAt(s, InputRoot);
    IncludesAt(s, OutputRoot);
    forall i | 0 <= i <= |s| - |InputRoot|
      ensures !OccursAt(s, InputRoot, i)
    {
      assert s[i..i + |InputRoot|][1] == s[i + 1] != '/';
    }
    forall i | 0 <= i <= |s| - |OutputRoot|
      ensures !OccursAt(s, OutputRoot, i)
    {
      assert s[i..i + |OutputRoot|][1] == s[i + 1] != '/';
    }
  }

  /**
   * `resolveNodeNameToPath` with its probing loop: up to ten `fs.access` checks,
   * stopping at the first that finds the processed node's file.
   */
  method ResolveNodeNameToPath(nodeName: string, found: seq<bool>) returns (r: Result<string, StageError>, probes: nat)
    ensures r == ResolvedPath(nodeName, found)
    ensures nodeName in BaseImages || nodeName !in ProcessedOutputs ==> probes == 0
    ensures nodeName !in BaseImages && nodeName in ProcessedOutputs ==>
      1 <= probes <= MaxProbes && (forall j :: 0 <= j < probes - 1 ==> !Found(found, j)) &&
      (r.Ok? ==> Found(found, probes - 1)) && (r.Err? ==> probes == MaxProbes)
  {
    if nodeName in BaseImages {
      return Ok(BaseImages[nodeName]), 0;
    }
    if nodeName in ProcessedOutputs {
      var i := 0;
      while i < MaxProbes
        invariant 0 <= i <= MaxProbes
        invariant forall j :: 0 <= j < i ==> !Found(found, j)
      {
        if Found(found, i) {
          return Ok(ProcessedOutputs[nodeName]), i + 1;
        }
        i := i + 1;
      }
      return Err(DependencyNotFound(ProcessedOutputs[nodeName])), MaxProbes;
    }
    return Err(UnknownNode(nodeName)), 0;
  }

  /**
   * The non-summary source selection of `imageProcessingAgent`: a rooted path is
   * used as is, another string is resolved as a node name, an object yields
   * `outputPath || the object itself`, and anything else is refused.
   */
  function SelectSource(source: Value, found: seq<bool>): (r: Result<Value, StageError>)
    ensures source.Str? && IsRootedPath(source.s) ==> r == Ok(source)
    ensures source.Str? && !IsRootedPath(source.s) ==>
      (r.Ok? <==> source.s in BaseImages || (source.s in ProcessedOutputs && SomeProbeFinds(found)))
    ensures r.Ok? && source.Str? ==> r.value.Str? && IsRootedPath(r.value.s)
    ensures source.Str? && !IsRootedPath(source.s) && r.Ok? ==> r == Ok(Str(ResolvedPath(source.s, found).value))
    ensures source.Str? && !IsRootedPath(source.s) && r.Err? ==> r.error == ResolvedPath(source.s, found).error
    ensures IsObject(source) ==> r == Ok(Or(Field(source, "outputPath"), source))
    ensures !source.Str? && !IsObject(source) ==> r == Err(InvalidInput(source))
  {
    if source.Str? then
      if IsRootedPath(source.s) then Ok(source)
      else
        match ResolvedPath(source.s, found)
        case Ok(p) => Ok(Str(p))
        case Err(e) => Err(e)
    else if IsObject(source) then Ok(Or(Field(source, "outputPath"), source))
    else Err(InvalidInput(source))
  }

  /** Selecting a string source is idempotent: what it yields is selected unchanged. */
  lemma SelectSourceIdempotent(source: Value, found: seq<bool>, later: seq<bool>)
    requires source.Str? && SelectSource(source, found).Ok?
    ensures SelectSource(SelectSource(source, found).value, later) == SelectSource(source, found)
  {
  }

  /** A processed node resolves to the conventional output of its operation and pipeline. */
  lemma ResolvedNodeFollowsConvention(op: ImageOp, n: Lane, found: seq<bool>)
    requires SomeProbeFinds(found)
    ensures SelectSource(Str(NodeName(op, n)), found) == Ok(Str(ConventionalOutput(op, n)))
  {
    TableEntry(op, n);
    ConventionalOutputUnderRoot(op, n);
    var name := NodeName(op, n);
    assert name[0] != 'i' && '/' !in name by {
      match op {
        case Mosaic =>
        case Rotate =>
        case Resize =>
      }
    }
    assert name !in BaseImages;
    SlashFreeNotRooted(name);
  }

  // ----- The summary -----

  /** One line of `createSummary`'s results. */
  datatype Line = Line(pipeline: nat, outputPath: Value, processingTime: Value)

  /** The `inputs.map` callback; reading a property of `null` (whose typeof is 'object') throws. */
  function SummaryLine(index: nat, input: Value): Result<Line, StageError> {
    if input == Null then Err(PropertyOfNull)
    else if IsObject(input) then Ok(Line(index + 1, Field(input, "outputPath"), Field(input, "processingTime")))
    else Ok(Line(index + 1, input, Str("N/A")))
  }

  /**
   * `createSummary`: one line per input, numbered from 1; an object contributes
   * its own `outputPath` and `processingTime`, anything else is the path itself
   * with 'N/A'. A `null` input makes the whole summary throw.
   */
  function CreateSummary(inputs: seq<Value>): (r: Result<seq<Line>, StageError>)
    ensures r.Err? <==> Null in inputs
    ensures r.Err? ==> r.error == PropertyOfNull
    ensures r.Ok? ==> |r.value| == |inputs|
    ensures r.Ok? ==> forall i :: 0 <= i < |inputs| ==> r.value[i].pipeline == i + 1
    ensures r.Ok? ==> forall i :: 0 <= i < |inputs| && IsObject(inputs[i]) ==>
      r.value[i].outputPath == Field(inputs[i], "outputPath") && r.value[i].processingTime == Field(inputs[i], "processingTime")
    ensures r.Ok? ==> forall i :: 0 <= i < |inputs| && !IsObject(inputs[i]) ==>
      r.value[i].outputPath == inputs[i] && r.value[i].processingTime == Str("N/A")
  {
    if Null in inputs then Err(PropertyOfNull)
    else Ok(seq(|inputs|, i requires 0 <= i < |inputs| => SummaryLine(i, inputs[i]).value))
  }

  /** The JSON document `createSummary` writes (without its wall-clock `completedAt`). */
  function SummaryDocument(lines: seq<Line>): Value {
    Obj([Prop("totalProcessed", Num(|lines|)),
         Prop("results", Arr(seq(|lines|, i requires 0 <= i < |lines| =>
           Obj([Prop("pipeline", Num(lines[i].pipeline)), Prop("outputPath", lines[i].outputPath),
                Prop("processingTime", lines[i].processingTime)]))))])
  }

  /** The record the agent returns (no `value` field in this variant). */
  function AgentRecord(params: Value, result: Value, processingTime: int, timestamp: string, nodeId: Value): Value {
    Obj([Prop("outputPath", Or(Field(params, "outputPath"), result)), Prop("operation", Field(params, "operation")),
         Prop("processingTime", Num(processingTime)), Prop("timestamp", Str(timestamp)), Prop("nodeId", nodeId)])
  }

  // ----- What a call will do -----

  /** A stage reduced to the write it performs: the summary document, or one image through the lock. */
  datatype Plan = WriteSummary(inputs: seq<Value>, outputPath: string) | WriteImage(op: ImageOp, input: Value, outputPath: string)

  /** `params.outputPath` when it is a usable path (a non-empty string). */
  function TargetPath(params: Value): Option<string> {
    var out := Field(params, "outputPath");
    if out.Str? && out.s != "" then Some(out.s) else None
  }

  /**
   * Everything `imageProcessingAgent` decides before touching the filesystem:
   * the operation check, the input selection (all inputs for `summary`, the
   * resolved `source` otherwise, even for an operation the switch then refuses),
   * the dispatch on the operation and the target path.
   */
  function PlanStage(ctx: AgentContext, found: seq<bool>): (r: Result<Plan, StageError>)
    ensures var op := Field(ContextParams(ctx), "operation");
      (r == Err(MissingOperation) <==> !Truthy(op)) &&
      ((r.Ok? && r.value.WriteSummary?) ==>
        op == Str(SummaryOp) && r.value.inputs == ObjectValues(NamedInputs(ctx))) &&
      ((r.Ok? && r.value.WriteImage?) ==>
        op == Str(OpName(r.value.op)) &&
        SelectSource(Field(NamedInputs(ctx), "source"), found) == Ok(r.value.input)) &&
      (r.Ok? ==> TargetPath(ContextParams(ctx)) == Some(r.value.outputPath))
    ensures var op := Field(ContextParams(ctx), "operation");
      var source := SelectSource(Field(NamedInputs(ctx), "source"), found);
      Truthy(op) && op != Str(SummaryOp) ==>
        (source.Err? ==> r == Err(source.error)) &&
        (source.Ok? && ParseImageOp(op).None? ==> r == Err(UnsupportedOperation(op))) &&
        (source.Ok? && ParseImageOp(op).Some? && TargetPath(ContextParams(ctx)).Some? ==>
          r == Ok(WriteImage(ParseImageOp(op).value, source.value, TargetPath(ContextParams(ctx)).value))) &&
        (source.Ok? && ParseImageOp(op).Some? && TargetPath(ContextParams(ctx)).None? ==>
          r == Err(InvalidOutputPath(Field(ContextParams(ctx), "outputPath"))))
    ensures var op := Field(ContextParams(ctx), "operation");
      op == Str(SummaryOp) ==>
        (TargetPath(ContextParams(ctx)).Some? ==>
          r == Ok(WriteSummary(ObjectValues(NamedInputs(ctx)), TargetPath(ContextParams(ctx)).value))) &&
        (TargetPath(ContextParams(ctx)).None? ==> r == Err(InvalidOutputPath(Field(ContextParams(ctx), "outputPath"))))
  {
    var params := ContextParams(ctx);
    var op := Field(params, "operation");
    if !Truthy(op) then Err(MissingOperation)
    else if op == Str(SummaryOp) then
      match TargetPath(params)
      case None => Err(InvalidOutputPath(Field(params, "outputPath")))
      case Some(out) => Ok(WriteSummary(ObjectValues(NamedInputs(ctx)), out))
    else
      match SelectSource(Field(NamedInputs(ctx), "source"), found)
      case Err(e) => Err(e)
      case Ok(input) =>
        match ParseImageOp(op)
        case None => Err(UnsupportedOperation(op))
        case Some(imageOp) =>
          match TargetPath(params)
          case None => Err(InvalidOutputPath(Field(params, "outputPath")))
          case Some(out) => Ok(WriteImage(imageOp, input, out))
  }

  /** An image stage whose source is a processed node's name reads that node's conventional output. */
  lemma ChainedStageReadsConventionalOutput(ctx: AgentContext, found: seq<bool>, prev: ImageOp, n: Lane)
    requires SomeProbeFinds(found)
    requires Field(NamedInputs(ctx), "source") == Str(NodeName(prev, n))
    requires PlanStage(ctx, found).Ok? && PlanStage(ctx, found).value.WriteImage?
    ensures PlanStage(ctx, found).value.input == Str(ConventionalOutput(prev, n))
  {
    ResolvedNodeFollowsConvention(prev, n, found);
  }

  /** The record of an image stage hands its output path to the next stage's source selection. */
  lemma RecordFeedsNextStage(params: Value, out: string, processingTime: int, timestamp: string, nodeId: Value, found: seq<bool>)
    requires TargetPath(params) == Some(out)
    ensures SelectSource(AgentRecord(params, Str(out), processingTime, timestamp, nodeId), found) == Ok(Str(out))
  {
  }

  // ----- The workspace: the filesystem, the clock and the lock registry -----

  /** A file's content: the bytes an image stage produced, or a summary's JSON document. */
  datatype Content = Bytes(data: seq<int>) | Json(doc: Value)

  /** What the stage's `processFunction` does with the temporary path: write it fully, or fail (maybe after a partial write). */
  datatype Produce = Produced(data: seq<int>) | Failed(message: string, partial: Option<seq<int>>)

  /** A call that would spin on a held key, or one that ran to completion with some outcome. */
  datatype Attempt<T> = WouldBlock | Completed(outcome: T)

  function InputExists(files: map<string, Content>, inputPath: Value): bool {
    inputPath.Str? && inputPath.s in files
  }

  class Workspace {
    var files: map<string, Content>
    var clock: nat
    const registry: Registry

    ghost predicate Valid()
      reads this, registry
    {
      registry.Valid()
    }

    constructor (files: map<string, Content>, clock: nat)
      ensures Valid() && fresh(registry)
      ensures this.files == files && this.clock == clock && registry.held == {} && registry.log == []
    {
      this.files := files;
      this.clock := clock;
      registry := new Registry();
    }

    /**
     * The body of `windowsSafeFileWrite` that runs under the lock: directory,
     * input check, temporary file, rename, and cleanup of the temporary file on failure.
     */
    method WriteThroughTemp(inputPath: Value, outputPath: string, produce: Produce,
                            mkdirError: Option<string>, renameError: Option<string>) returns (r: Result<(), StageError>)
      modifies this`files, this`clock
      ensures DirCreation.EnsureDirTolerant(mkdirError).Err? ==>
        r == Err(FileSystem(mkdirError.value)) && files == old(files) && clock == old(clock)
      ensures DirCreation.EnsureDirTolerant(mkdirError).Ok? && !InputExists(old(files), inputPath) ==>
        r == Err(InputNotFound(inputPath)) && files == old(files) && clock == old(clock)
      ensures DirCreation.EnsureDirTolerant(mkdirError).Ok? && InputExists(old(files), inputPath) ==>
        clock == old(clock) + 1 &&
        var temp := TempPath(outputPath, old(clock));
        match produce
        case Produced(data) =>
          if renameError.None? then r == Ok(()) && files == (old(files) - {temp})[outputPath := Bytes(data)]
          else r == Err(FileSystem(renameError.value)) && files == old(files) - {temp}
        case Failed(message, _) => r == Err(Transform(message)) && files == old(files) - {temp}
    {
      match DirCreation.EnsureDirTolerant(mkdirError) {
        case Err(code) => return Err(FileSystem(code));
        case Ok(_) =>
      }
      if !InputExists(files, inputPath) {
        return Err(InputNotFound(inputPath));
      }
      var temp := TempPath(outputPath, clock);
      clock := clock + 1;
      match produce {
        case Produced(data) =>
          files := files[temp := Bytes(data)];
          if renameError.None? {
            files := (files - {temp})[outputPath := files[temp]];
            r := Ok(());
          } else {
            files := files - {temp};
            r := Err(FileSystem(renameError.value));
          }
        case Failed(message, partial) =>
          if partial.Some? {
            files := files[temp := Bytes(partial.value)];
          }
          files := files - {temp};
          r := Err(Transform(message));
      }
    }

    /**
     * `windowsSafeFileWrite`: spin on the key `operation-outputPath` (one turn of
     * the spin here), hold it while writing through a temporary file, and release
     * it on every exit path.
     */
    method WindowsSafeFileWrite(operation: string, inputPath: Value, outputPath: string, produce: Produce,
                                mkdirError: Option<string>, renameError: Option<string>)
      returns (r: Attempt<Result<(), StageError>>)
      requires Valid()
      modifies this, registry
      ensures Valid()
      ensures registry.held == old(registry.held)
      ensures r.WouldBlock? <==> LockKey(operation, outputPath) in old(registry.held)
      ensures r.WouldBlock? ==>
        files == old(files) && clock == old(clock) && registry.log == old(registry.log) + [Acquire(LockKey(operation, outputPath))]
      ensures r.Completed? ==>
        registry.log == old(registry.log) + [Acquire(LockKey(operation, outputPath)), LockEvent.Release(LockKey(operation, outputPath))]
      ensures r.Completed? ==>
        (r.outcome.Ok? <==>
          DirCreation.EnsureDirTolerant(mkdirError).Ok? && InputExists(old(files), inputPath) &&
          produce.Produced? && renameError.None?)
      ensures r.Completed? && r.outcome.Ok? ==>
        files == (old(files) - {TempPath(outputPath, old(clock))})[outputPath := Bytes(produce.data)] &&
        files[outputPath] == Bytes(produce.data) && TempPath(outputPath, old(clock)) !in files
      ensures r.Completed? && r.outcome.Err? ==>
        files - {TempPath(outputPath, old(clock))} == old(files) - {TempPath(outputPath, old(clock))} &&
        (outputPath in files <==> outputPath in old(files)) &&
        (outputPath in files ==> files[outputPath] == old(files)[outputPath])
      ensures r.Completed? && DirCreation.EnsureDirTolerant(mkdirError).Ok? && InputExists(old(files), inputPath) ==>
        TempPath(outputPath, old(clock)) !in files && clock == old(clock) + 1
      ensures r.Completed? && DirCreation.EnsureDirTolerant(mkdirError).Err? ==>
        r.outcome == Err(FileSystem(mkdirError.value)) && files == old(files) && clock == old(clock)
      ensures r.Completed? && DirCreation.EnsureDirTolerant(mkdirError).Ok? && !InputExists(old(files), inputPath) ==>
        r.outcome == Err(InputNotFound(inputPath)) && files == old(files) && clock == old(clock)
      ensures (r.Completed? && DirCreation.EnsureDirTolerant(mkdirError).Ok? && InputExists(old(files), inputPath)) ==>
        (produce.Failed? ==> r.outcome == Err(Transform(produce.message))) &&
        (produce.Produced? && renameError.Some? ==> r.outcome == Err(FileSystem(renameError.value)))
    {
      var key := LockKey(operation, outputPath);
      var acquired := registry.TryAcquire(key);
      if !acquired {
        return WouldBlock;
      }
      TempPathFresh(outputPath, clock, clock);
      var outcome := WriteThroughTemp(inputPath, outputPath, produce, mkdirError, renameError);
      registry.Release(key);
      r := Completed(outcome);
    }

    /**
     * `imageProcessingAgent`: plan the call, then either write the summary
     * document directly (no lock) or run the image write under the lock, and
     * return the record the next stage consumes.
     */
    method ImageProcessingAgent(ctx: AgentContext, found: seq<bool>, produce: Produce, mkdirError: Option<string>,
                 renameError: Option<string>, writeError: Option<string>, processingTime: int, timestamp: string)
      returns (r: Attempt<Result<Value, StageError>>)
      requires Valid()
      modifies this, registry
      ensures Valid()
      ensures registry.held == old(registry.held)
      ensures PlanStage(ctx, found).Err? ==>
        r == Completed(Err(PlanStage(ctx, found).error)) &&
        files == old(files) && clock == old(clock) && registry.log == old(registry.log)
      ensures PlanStage(ctx, found).Ok? && PlanStage(ctx, found).value.WriteSummary? ==>
        var plan := PlanStage(ctx, found).value;
        var summary := CreateSummary(plan.inputs);
        r.Completed? && clock == old(clock) && registry.log == old(registry.log) &&
        (r.outcome.Ok? <==> DirCreation.EnsureDirTolerant(mkdirError).Ok? && summary.Ok? && writeError.None?) &&
        (r.outcome.Ok? ==>
          files == old(files)[plan.outputPath := Json(SummaryDocument(summary.value))] &&
          r.outcome.value == AgentRecord(ContextParams(ctx), SummaryDocument(summary.value), processingTime, timestamp, ctx.nodeId)) &&
        (r.outcome.Err? ==> files == old(files)) &&
        (DirCreation.EnsureDirTolerant(mkdirError).Ok? && summary.Err? ==> r.outcome == Err(PropertyOfNull)) &&
        (DirCreation.EnsureDirTolerant(mkdirError).Err? ==> r.outcome == Err(FileSystem(mkdirError.value))) &&
        (DirCreation.EnsureDirTolerant(mkdirError).Ok? && summary.Ok? && writeError.Some? ==>
          r.outcome == Err(FileSystem(writeError.value)))
      ensures PlanStage(ctx, found).Ok? && PlanStage(ctx, found).value.WriteImage? ==>
        var plan := PlanStage(ctx, found).value;
        var key := LockKey(OpName(plan.op), plan.outputPath);
        (r.WouldBlock? <==> key in old(registry.held)) &&
        (r.WouldBlock? ==> files == old(files) && clock == old(clock)) &&
        (r.Completed? ==> registry.log == old(registry.log) + [Acquire(key), LockEvent.Release(key)]) &&
        (r.Completed? ==>
          (r.outcome.Ok? <==>
            DirCreation.EnsureDirTolerant(mkdirError).Ok? && InputExists(old(files), plan.input) &&
            produce.Produced? && renameError.None?)) &&
        (r.Completed? && r.outcome.Ok? ==>
          files == (old(files) - {TempPath(plan.outputPath, old(clock))})[plan.outputPath := Bytes(produce.data)] &&
          r.outcome.value == AgentRecord(ContextParams(ctx), Str(plan.outputPath), processingTime, timestamp, ctx.nodeId)) &&
        (r.Completed? && r.outcome.Err? ==>
          files - {TempPath(plan.outputPath, old(clock))} == old(files) - {TempPath(plan.outputPath, old(clock))} &&
          (plan.outputPath in files <==> plan.outputPath in old(files)) &&
          (plan.outputPath in files ==> files[plan.outputPath] == old(files)[plan.outputPath])) &&
        (r.Completed? && DirCreation.EnsureDirTolerant(mkdirError).Err? ==>
          r.outcome == Err(FileSystem(mkdirError.value)) && files == old(files) && clock == old(clock)) &&
        (r.Completed? && DirCreation.EnsureDirTolerant(mkdirError).Ok? && !InputExists(old(files), plan.input) ==>
          r.outcome == Err(InputNotFound(plan.input)) && files == old(files) && clock == old(clock)) &&
        (r.Completed? && DirCreation.EnsureDirTolerant(mkdirError).Ok? && InputExists(old(files), plan.input) ==>
          clock == old(clock) + 1 &&
          (produce.Failed? ==> r.outcome == Err(Transform(produce.message))) &&
          (produce.Produced? && renameError.Some? ==> r.outcome == Err(FileSystem(renameError.value))))
    {
      var params := ContextParams(ctx);
      match PlanStage(ctx, found) {
        case Err(e) =>
          r := Completed(Err(e));
        case Ok(WriteSummary(inputs, out)) =>
          match DirCreation.EnsureDirTolerant(mkdirError) {
            case Err(code) =>
              r := Completed(Err(FileSystem(code)));
            case Ok(_) =>
              match CreateSummary(inputs) {
                case Err(e) =>
                  r := Completed(Err(e));
                case Ok(lines) =>
                  if writeError.Some? {
                    r := Completed(Err(FileSystem(writeError.value)));
                  } else {
                    var doc := SummaryDocument(lines);
                    files := files[out := Json(doc)];
                    r := Completed(Ok(AgentRecord(params, doc, processingTime, timestamp, ctx.nodeId)));
                  }
              }
          }
        case Ok(WriteImage(op, input, out)) =>
          var written := WindowsSafeFileWrite(OpName(op), input, out, produce, mkdirError, renameError);
          match written {
            case WouldBlock =>
              r := WouldBlock;
            case Completed(Err(e)) =>
              r := Completed(Err(e));
            case Completed(Ok(_)) =>
              r := Completed(Ok(AgentRecord(params, Str(out), processingTime, timestamp, ctx.nodeId)));
          }
      }
    }
  }
}
