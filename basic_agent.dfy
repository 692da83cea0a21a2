/**
 * The agent of imageAgent.js, called as `(namedInputs, params, context)`:
 * `params` falls back to `context.params`, the image stages take
 * `namedInputs.source` or else the first named input, every failure inside the
 * stage is turned into a `{success: false}` reply instead of being thrown, and
 * the summary spreads each input into its entry after the pipeline number.
 *
 * What the image library does with the chosen input is the parameter `run`; the
 * mkdir and write outcomes, the elapsed time and the timestamp are parameters too.
 */
module BasicAgent {
  import opened Outcomes
  import opened Js
  import opened Stages
  import DirCreation

  // ----- Object spread -----

  /** `obj[key] = val`: overwrite the value of an existing key in place, or add the key at the end. */
  function SetProp(props: seq<Prop>, key: string, val: Value): seq<Prop>
    decreases |props|
  {
    if props == [] then [Prop(key, val)]
    else if props[0].key == key then [Prop(key, val)] + props[1..]
    else [props[0]] + SetProp(props[1..], key, val)
  }

  lemma {:induction false} LookupSetProp(props: seq<Prop>, key: string, val: Value, k: string)
    ensures Lookup(SetProp(props, key, val), k) == if k == key then val else Lookup(props, k)
    decreases |props|
  {
    if props != [] && props[0].key != key {
      var r := SetProp(props, key, val);
      assert r[1..] == SetProp(props[1..], key, val);
      LookupSetProp(props[1..], key, val, k);
    }
  }

  /** The own enumerable properties a spread copies: an object's properties, or index-keyed items and characters. */
  function OwnEntries(v: Value): seq<Prop> {
    match v
    case Obj(props) => props
    case Arr(items) => seq(|items|, i requires 0 <= i < |items| => Prop(DecimalString(i), items[i]))
    case Str(s) => seq(|s|, i requires 0 <= i < |s| => Prop(DecimalString(i), Str([s[i]])))
    case _ => []
  }

  /** `{...base, ...entries}` as a sequence of assignments, first to last. */
  function Assign(base: seq<Prop>, entries: seq<Prop>): seq<Prop>
    decreases |entries|
  {
    if entries == [] then base else Assign(SetProp(base, entries[0].key, entries[0].val), entries[1..])
  }

  predicate HasKey(props: seq<Prop>, k: string) {
    exists i :: 0 <= i < |props| && props[i].key == k
  }

  /** A well-formed object: no key occurs twice. */
  predicate DistinctKeys(props: seq<Prop>) {
    forall i, j :: 0 <= i < j < |props| ==> props[i].key != props[j].key
  }

  /** After the spread, a copied key has the copied value and every other key keeps the base's value. */
  lemma {:induction false} LookupAssign(base: seq<Prop>, entries: seq<Prop>, k: string)
    requires DistinctKeys(entries)
    ensures Lookup(Assign(base, entries), k) == if HasKey(entries, k) then Lookup(entries, k) else Lookup(base, k)
    decreases |entries|
  {
    if entries != [] {
      var e := entries[0];
      var rest := entries[1..];
      assert DistinctKeys(rest) by {
        forall i, j | 0 <= i < j < |rest| ensures rest[i].key != rest[j].key {
          assert rest[i] == entries[i + 1] && rest[j] == entries[j + 1];
        }
      }
      LookupAssign(SetProp(base, e.key, e.val), rest, k);
      LookupSetProp(base, e.key, e.val, k);
      assert HasKey(entries, k) <==> e.key == k || HasKey(rest, k) by {
        if HasKey(entries, k) && e.key != k {
          var i :| 0 <= i < |entries| && entries[i].key == k;
          assert rest[i - 1] == entries[i];
        }
        if HasKey(rest, k) {
          var i :| 0 <= i < |rest| && rest[i].key == k;
          assert entries[i + 1] == rest[i];
        }
      }
      forall i | 0 <= i < |rest|
        ensures rest[i].key != e.key
      {
        assert rest[i] == entries[i + 1];
      }
    }
  }

  /** The index keys of a string's characters are distinct numerals, none of them "pipeline". */
  lemma StringEntries(s: string)
    ensures DistinctKeys(OwnEntries(Str(s)))
    ensures !HasKey(OwnEntries(Str(s)), "pipeline")
  {
    var entries := OwnEntries(Str(s));
    forall i, j | 0 <= i < j < |entries|
      ensures entries[i].key != entries[j].key
    {
      if DecimalString(i) == DecimalString(j) {
        DecimalStringInjective(i, j);
      }
    }
    forall i | 0 <= i < |entries|
      ensures entries[i].key != "pipeline"
    {
      assert entries[i].key[0] != "pipeline"[0];
    }
  }

  // ----- The summary -----

  /** `{pipeline: index + 1, ...input}`. */
  function SpreadEntry(index: nat, input: Value): Value {
    Obj(Assign([Prop("pipeline", Num(index + 1))], OwnEntries(input)))
  }

  /** The summary document (without its wall-clock `completedAt`). */
  function SpreadSummary(inputs: seq<Value>): (doc: Value)
    ensures Field(doc, "totalProcessed") == Num(|inputs|)
    ensures Field(doc, "results") == Arr(seq(|inputs|, i requires 0 <= i < |inputs| => SpreadEntry(i, inputs[i])))
  {
    var doc := Obj([Prop("totalProcessed", Num(|inputs|)),
                    Prop("results", Arr(seq(|inputs|, i requires 0 <= i < |inputs| => SpreadEntry(i, inputs[i]))))]);
    assert Lookup(doc.props, "results") == Lookup(doc.props[1..], "results");
    doc
  }

  /**
   * A summary entry reads the input's own fields; only when the input has no
   * `pipeline` of its own does the entry's `pipeline` give the position.
   */
  lemma SpreadEntryFields(index: nat, input: Value, k: string)
    requires DistinctKeys(OwnEntries(input))
    ensures Lookup(SpreadEntry(index, input).props, k) ==
      if HasKey(OwnEntries(input), k) then Lookup(OwnEntries(input), k)
      else if k == "pipeline" then Num(index + 1) else Undefined
  {
    LookupAssign([Prop("pipeline", Num(index + 1))], OwnEntries(input), k);
  }

  /** An object input that carries its own `pipeline` field overrides the position. */
  lemma InputPipelineOverridesIndex(index: nat, input: Value)
    requires input.Obj? && DistinctKeys(input.props)
    ensures HasKey(input.props, "pipeline") ==> Field(SpreadEntry(index, input), "pipeline") == Field(input, "pipeline")
    ensures !HasKey(input.props, "pipeline") ==> Field(SpreadEntry(index, input), "pipeline") == Num(index + 1)
  {
    SpreadEntryFields(index, input, "pipeline");
  }

  /** A string input is spread into one index-keyed property per character, next to the position. */
  lemma StringInputSpreadsCharacters(index: nat, s: string, j: nat)
    requires j < |s|
    ensures Lookup(SpreadEntry(index, Str(s)).props, DecimalString(j)) == Str([s[j]])
    ensures Field(SpreadEntry(index, Str(s)), "pipeline") == Num(index + 1)
  {
    StringEntries(s);
    var entries := OwnEntries(Str(s));
    SpreadEntryFields(index, Str(s), DecimalString(j));
    SpreadEntryFields(index, Str(s), "pipeline");
    assert entries[j].key == DecimalString(j);
    LookupUnique(entries, j);
  }

  /** In a well-formed object, looking a key up finds the one property that has it. */
  lemma {:induction false} LookupUnique(props: seq<Prop>, j: nat)
    requires j < |props| && DistinctKeys(props)
    ensures Lookup(props, props[j].key) == props[j].val
    decreases j
  {
    if j > 0 {
      assert props[0].key != props[j].key;
      assert DistinctKeys(props[1..]) by {
        forall a, b | 0 <= a < b < |props| - 1 ensures props[1..][a].key != props[1..][b].key {
          assert props[1..][a] == props[a + 1] && props[1..][b] == props[b + 1];
        }
      }
      assert props[1..][j - 1] == props[j];
      LookupUnique(props[1..], j - 1);
    }
  }

  // ----- The agent -----

  /** The reply record: `{success: true, …}` or `{success: false, error, operation}`. */
  datatype Reply =
    | Success(operation: Value, outputPath: Value, processingTime: int, timestamp: string, result: Value)
    | Failure(error: StageError, operation: Value)

  /** `params`, else `context.params`; with neither the agent throws before its `try`. */
  function ResolveParams(params: Value, context: Value): (r: Result<Value, StageError>)
    ensures r.Ok? ==> Truthy(r.value)
    ensures Truthy(params) ==> r == Ok(params)
    ensures !Truthy(params) && Truthy(Field(context, "params")) ==> r == Ok(Field(context, "params"))
    ensures r.Err? <==> !Truthy(params) && !Truthy(Field(context, "params"))
  {
    if Truthy(params) then Ok(params)
    else if Truthy(context) && Truthy(Field(context, "params")) then Ok(Field(context, "params"))
    else Err(MissingParams)
  }

  /**
   * The input: for `summary` all named-input values; otherwise
   * `namedInputs.source || Object.values(namedInputs)[0]`. Reading either from
   * `undefined` or `null` throws.
   */
  function SelectInput(operation: Value, namedInputs: Value): (r: Result<StageInput, StageError>)
    ensures namedInputs == Undefined || namedInputs == Null ==> r == Err(PropertyOfNull)
    ensures r.Ok? && operation == Str(SummaryOp) ==> r == Ok(Batch(ObjectValues(namedInputs)))
    ensures r.Ok? && operation != Str(SummaryOp) ==>
      r.value.Single? &&
      (Truthy(Field(namedInputs, "source")) ==> r.value.source == Field(namedInputs, "source")) &&
      (!Truthy(Field(namedInputs, "source")) && |ObjectValues(namedInputs)| > 0 ==> r.value.source == ObjectValues(namedInputs)[0]) &&
      (!Truthy(Field(namedInputs, "source")) && |ObjectValues(namedInputs)| == 0 ==> r.value.source == Undefined)
    ensures r.Err? <==> namedInputs == Undefined || namedInputs == Null
  {
    if namedInputs == Undefined || namedInputs == Null then Err(PropertyOfNull)
    else if operation == Str(SummaryOp) then Ok(Batch(ObjectValues(namedInputs)))
    else
      var values := ObjectValues(namedInputs);
      Ok(Single(Or(Field(namedInputs, "source"), if |values| > 0 then values[0] else Undefined)))
  }

  /** When `source` is the first named input, the fallback picks the same value, falsy or not. */
  lemma SourceFirstIsSelected(operation: Value, source: Value, rest: seq<Prop>)
    requires operation != Str(SummaryOp)
    ensures SelectInput(operation, Obj([Prop("source", source)] + rest)) == Ok(Single(source))
  {
    var named := Obj([Prop("source", source)] + rest);
    assert Field(named, "source") == source;
    assert ObjectValues(named)[0] == source;
  }

  /**
   * The stage itself, inside the `try`: dispatch, directory, work. Each step's
   * failure is the error the stage throws.
   */
  function RunStage(operation: Value, params: Value, input: StageInput, mkdirError: Option<string>,
                    run: (ImageOp, Value) -> Option<string>, writeError: Option<string>): (r: Result<Value, StageError>)
    ensures operation != Str(SummaryOp) && ParseImageOp(operation).None? ==> r == Err(UnsupportedOperation(operation))
    ensures (operation == Str(SummaryOp) || ParseImageOp(operation).Some?) && !Field(params, "outputPath").Str? ==>
      r == Err(InvalidOutputPath(Field(params, "outputPath")))
    ensures (operation == Str(SummaryOp) || ParseImageOp(operation).Some?) && Field(params, "outputPath").Str? ==>
      (DirCreation.EnsureDirStrict(mkdirError).Err? ==> r == Err(FileSystem(mkdirError.value))) &&
      (DirCreation.EnsureDirStrict(mkdirError).Ok? && input.Batch? ==>
        r == if writeError.Some? then Err(FileSystem(writeError.value)) else Ok(SpreadSummary(input.items))) &&
      (DirCreation.EnsureDirStrict(mkdirError).Ok? && input.Single? && ParseImageOp(operation).Some? ==>
        r == if run(ParseImageOp(operation).value, input.source).Some?
             then Err(Transform(run(ParseImageOp(operation).value, input.source).value))
             else Ok(Field(params, "outputPath")))
  {
    var out := Field(params, "outputPath");
    if operation != Str(SummaryOp) && ParseImageOp(operation).None? then Err(UnsupportedOperation(operation))
    else if !out.Str? then Err(InvalidOutputPath(out))
    else
      match DirCreation.EnsureDirStrict(mkdirError)
      case Err(code) => Err(FileSystem(code))
      case Ok(_) =>
        match input
        case Batch(items) =>
          if writeError.Some? then Err(FileSystem(writeError.value)) else Ok(SpreadSummary(items))
        case Single(source) =>
          match ParseImageOp(operation)
          case None => Err(UnsupportedOperation(operation))
          case Some(imageOp) =>
            match run(imageOp, source)
            case Some(message) => Err(Transform(message))
            case None => Ok(out)
  }

  /**
   * `imageProcessingAgent`: only a missing `params` escapes as an error; every
   * failure after it, an unsupported or missing operation included, becomes a
   * `Failure` reply carrying the operation.
   */
  function ImageProcessingAgent(namedInputs: Value, params: Value, context: Value, mkdirError: Option<string>,
                                run: (ImageOp, Value) -> Option<string>, writeError: Option<string>,
                                processingTime: int, timestamp: string): (r: Result<Reply, StageError>)
    ensures r.Err? <==> ResolveParams(params, context).Err?
    ensures r.Err? ==> r.error == MissingParams
    ensures r.Ok? ==>
      var p := ResolveParams(params, context).value;
      var op := Field(p, "operation");
      var out := Field(p, "outputPath");
      var input := SelectInput(op, namedInputs);
      r.value.operation == op &&
      (input.Err? ==> r.value == Failure(PropertyOfNull, op)) &&
      (input.Ok? && op != Str(SummaryOp) && ParseImageOp(op).None? ==> r.value == Failure(UnsupportedOperation(op), op)) &&
      (input.Ok? && (op == Str(SummaryOp) || ParseImageOp(op).Some?) && !out.Str? ==>
        r.value == Failure(InvalidOutputPath(out), op)) &&
      ((input.Ok? && (op == Str(SummaryOp) || ParseImageOp(op).Some?) && out.Str? &&
        DirCreation.EnsureDirStrict(mkdirError).Err?) ==> r.value == Failure(FileSystem(mkdirError.value), op)) &&
      (input.Ok? && op == Str(SummaryOp) && out.Str? && DirCreation.EnsureDirStrict(mkdirError).Ok? && writeError.Some? ==>
        r.value == Failure(FileSystem(writeError.value), op)) &&
      ((input.Ok? && ParseImageOp(op).Some? && out.Str? && DirCreation.EnsureDirStrict(mkdirError).Ok? &&
        run(ParseImageOp(op).value, input.value.source).Some?) ==>
        r.value == Failure(Transform(run(ParseImageOp(op).value, input.value.source).value), op)) &&
      (r.value.Success? <==>
        input.Ok? && (op == Str(SummaryOp) || ParseImageOp(op).Some?) && out.Str? &&
        DirCreation.EnsureDirStrict(mkdirError).Ok? &&
        (op == Str(SummaryOp) ==> writeError.None?) &&
        (op != Str(SummaryOp) ==> run(ParseImageOp(op).value, input.value.source).None?)) &&
      (r.value.Success? ==>
        r.value.outputPath == out && r.value.processingTime == processingTime && r.value.timestamp == timestamp &&
        (op == Str(SummaryOp) ==> r.value.result == SpreadSummary(ObjectValues(namedInputs))) &&
        (op != Str(SummaryOp) ==> r.value.result == out))
  {
    match ResolveParams(params, context)
    case Err(e) => Err(e)
    case Ok(p) =>
      var op := Field(p, "operation");
      var outcome :=
        match SelectInput(op, namedInputs)
        case Err(e) => Err(e)
        case Ok(input) => RunStage(op, p, input, mkdirError, run, writeError);
      match outcome
      case Ok(result) => Ok(Success(op, Field(p, "outputPath"), processingTime, timestamp, result))
      case Err(e) => Ok(Failure(e, op))
  }
}
