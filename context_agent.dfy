/**
 * The agent of imageAgent-context.js: a `source` that is a bare node name (a
 * string without '/') is looked up in one fixed table, everything else passes
 * through; `summary` collects every named input; the image stages use the
 * unclamped mosaic size and the strict directory check.
 *
 * What the image library does with the chosen input is the parameter `run`
 * (an error message, or none on success); the mkdir and write outcomes are
 * parameters as well.
 */
module ContextAgent {
  import opened Outcomes
  import opened Js
  import opened Stages
  import DirCreation

  /** The input images of this variant are PNG files. */
  const InputImages: map<string, string> := map[
    "image1" := "./images/image1.png",
    "image2" := "./images/image2.png",
    "image3" := "./images/image3.png"
  ]

  /** `nodeNameMapping`: the input images and the processed-node outputs. */
  const NodeNameMapping: map<string, string> := InputImages + ProcessedOutputs

  /** Every mapped path contains a '/', so it is never taken for a node name again. */
  lemma MappedPathsHaveSlash()
    ensures forall name | name in NodeNameMapping :: '/' in NodeNameMapping[name]
  {
    ProcessedOutputsUnderOutputRoot();
    forall name | name in NodeNameMapping
      ensures '/' in NodeNameMapping[name]
    {
      if name in ProcessedOutputs {
        assert ProcessedOutputs[name][..|OutputRoot|][1] == '/';
      } else if name == "image1" {
        assert NodeNameMapping[name][1] == '/';
      } else if name == "image2" {
        assert NodeNameMapping[name][1] == '/';
      } else {
        assert NodeNameMapping[name][1] == '/';
      }
    }
  }

  /** A string that is a node name rather than a path. */
  predicate IsNodeName(source: Value) {
    source.Str? && !Includes(source.s, "/")
  }

  /**
   * The non-summary input: a bare node name found in the table becomes its
   * path; an unmapped name, a string with a '/' and any non-string pass through.
   */
  function MapSource(source: Value): (r: Value)
    ensures source.Str? && '/' !in source.s && source.s in NodeNameMapping ==> r == Str(NodeNameMapping[source.s])
    ensures !(source.Str? && '/' !in source.s && source.s in NodeNameMapping) ==> r == source
  {
    if source.Str? then
      IncludesChar(source.s, '/');
      if IsNodeName(source) && source.s in NodeNameMapping then Str(NodeNameMapping[source.s]) else source
    else source
  }

  /** Mapping is idempotent: a mapped path is passed through by the next stage. */
  lemma MapSourceIdempotent(source: Value)
    ensures MapSource(MapSource(source)) == MapSource(source)
  {
    MappedPathsHaveSlash();
  }

  /** A processed node's name maps to the conventional output of its operation and pipeline. */
  lemma MappedNodeFollowsConvention(op: ImageOp, n: Lane)
    ensures MapSource(Str(NodeName(op, n))) == Str(ConventionalOutput(op, n))
  {
    TableEntry(op, n);
    var name := NodeName(op, n);
    assert '/' !in name by {
      assert name == OpName(op) + [Digit(n)];
      match op {
        case Mosaic => assert OpName(op) == "mosaic";
        case Rotate => assert OpName(op) == "rotate";
        case Resize => assert OpName(op) == "resize";
      }
    }
    assert name !in InputImages by {
      assert name[0] == OpName(op)[0];
      match op {
        case Mosaic => assert OpName(op) == "mosaic";
        case Rotate => assert OpName(op) == "rotate";
        case Resize => assert OpName(op) == "resize";
      }
    }
    assert NodeNameMapping[name] == ProcessedOutputs[name];
  }

  /** The summary document (without its wall-clock `completedAt`): one `{pipeline, outputPath}` per input. */
  function SummaryDocument(inputs: seq<Value>): (doc: Value)
    ensures Field(doc, "totalProcessed") == Num(|inputs|)
    ensures Field(doc, "results").Arr? && |Field(doc, "results").items| == |inputs|
    ensures forall i :: 0 <= i < |inputs| ==>
      Field(Field(doc, "results").items[i], "pipeline") == Num(i + 1) &&
      Field(Field(doc, "results").items[i], "outputPath") == inputs[i]
  {
    var results := seq(|inputs|, i requires 0 <= i < |inputs| =>
      Obj([Prop("pipeline", Num(i + 1)), Prop("outputPath", inputs[i])]));
    var doc := Obj([Prop("totalProcessed", Num(|inputs|)), Prop("results", Arr(results))]);
    assert Lookup(doc.props, "results") == Lookup(doc.props[1..], "results");
    assert forall i :: 0 <= i < |inputs| ==>
      Lookup(results[i].props, "outputPath") == Lookup(results[i].props[1..], "outputPath");
    doc
  }

  /**
   * `imageProcessingAgent`: the operation check, the input selection, the
   * dispatch, and for each stage its directory check and its work; an image
   * stage returns `params.outputPath`, the summary returns its document.
   */
  function ImageProcessingAgent(ctx: AgentContext, mkdirError: Option<string>,
                                run: (ImageOp, Value) -> Option<string>, writeError: Option<string>): (r: Result<Value, StageError>)
    ensures var params := ContextParams(ctx);
      var op := Field(params, "operation");
      var out := Field(params, "outputPath");
      var dir := DirCreation.EnsureDirStrict(mkdirError);
      (!Truthy(op) ==> r == Err(MissingOperation)) &&
      (Truthy(op) && op != Str(SummaryOp) && ParseImageOp(op).None? ==> r == Err(UnsupportedOperation(op))) &&
      (Truthy(op) && (op == Str(SummaryOp) || ParseImageOp(op).Some?) && !out.Str? ==> r == Err(InvalidOutputPath(out))) &&
      (op == Str(SummaryOp) && out.Str? ==>
        (r.Ok? <==> dir.Ok? && writeError.None?) &&
        (r.Ok? ==> r.value == SummaryDocument(ObjectValues(NamedInputs(ctx))))) &&
      (ParseImageOp(op).Some? && out.Str? ==>
        (r.Ok? <==> dir.Ok? && run(ParseImageOp(op).value, MapSource(Field(NamedInputs(ctx), "source"))).None?) &&
        (r.Ok? ==> r.value == out))
    ensures var params := ContextParams(ctx);
      var op := Field(params, "operation");
      var out := Field(params, "outputPath");
      var dir := DirCreation.EnsureDirStrict(mkdirError);
      (op == Str(SummaryOp) || ParseImageOp(op).Some?) && out.Str? ==>
        (dir.Err? ==> r == Err(FileSystem(mkdirError.value))) &&
        (dir.Ok? && op == Str(SummaryOp) && writeError.Some? ==> r == Err(FileSystem(writeError.value))) &&
        ((dir.Ok? && ParseImageOp(op).Some? &&
          run(ParseImageOp(op).value, MapSource(Field(NamedInputs(ctx), "source"))).Some?) ==>
          r == Err(Transform(run(ParseImageOp(op).value, MapSource(Field(NamedInputs(ctx), "source"))).value)))
  {
    var params := ContextParams(ctx);
    var op := Field(params, "operation");
    var out := Field(params, "outputPath");
    if !Truthy(op) then Err(MissingOperation)
    else
      var input := if op == Str(SummaryOp) then Batch(ObjectValues(NamedInputs(ctx)))
                   else Single(MapSource(Field(NamedInputs(ctx), "source")));
      var imageOp := ParseImageOp(op);
      if op != Str(SummaryOp) && imageOp.None? then Err(UnsupportedOperation(op))
      else if !out.Str? then Err(InvalidOutputPath(out))
      else
        match DirCreation.EnsureDirStrict(mkdirError)
        case Err(code) => Err(FileSystem(code))
        case Ok(_) =>
          match input
          case Batch(items) =>
            if writeError.Some? then Err(FileSystem(writeError.value)) else Ok(SummaryDocument(items))
          case Single(source) =>
            match run(imageOp.value, source)
            case Some(message) => Err(Transform(message))
            case None => Ok(out)
  }

  /** An image stage's result is a path the next stage passes through unchanged. */
  lemma ResultFeedsNextStage(ctx: AgentContext, mkdirError: Option<string>, run: (ImageOp, Value) -> Option<string>,
                             writeError: Option<string>)
    requires ParseImageOp(Field(ContextParams(ctx), "operation")).Some?
    requires ImageProcessingAgent(ctx, mkdirError, run, writeError).Ok?
    requires Includes(Field(ContextParams(ctx), "outputPath").s, "/")
    ensures MapSource(ImageProcessingAgent(ctx, mkdirError, run, writeError).value) ==
            ImageProcessingAgent(ctx, mkdirError, run, writeError).value
  {
  }
}
