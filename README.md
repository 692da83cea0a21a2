# Image-pipeline agent: a Dafny model

This project models the per-stage logic of the GraphAI image-pipeline demo. Three
pipelines run mosaic → rotate → resize on their own input image, and a summary
stage collects the three results. Every stage is one call of an agent function.
The repository has four variants of that agent, and the model covers all of them:

- `start-web-server.js`, the complete agent of the web server;
- `imageAgent-windows-safe.js`, the variant with write locks and temporary files;
- `imageAgent-context.js`, the context-shaped variant the showcase demo wraps;
- `imageAgent.js`, the original `(namedInputs, params, context)` variant.

It also models the progress tracker of `run-demo-showcase.js`.

Modules:

- `Js` (js.dfy) models the JavaScript values that flow between the graph engine and the agents. It covers truthiness, `||`, property lookup, `Object.values`, `String.prototype.includes` and the decimal spelling of numbers.
- `Outcomes` (outcomes.dfy) defines `Option` and `Result`. A thrown error is an `Err`.
- `Stages` (stages.dfy) holds what all variants share:
  - the error kinds and the operations;
  - the node-naming convention and the processed-node table `ProcessedOutputs`;
  - the path roots `./images/` and `./output/`;
  - the context shape `context.namedInputs || context.inputs || {}`.
- `Mosaic` (mosaic.dfy) holds the reduced-size arithmetic. `Math.floor` is modelled for either sign of the divisor. Each side is clamped to at least 1 in two variants and unclamped in the other two.
- `DirCreation` (dirs.dfy) holds the two `ensureDir` error policies.
- `Locks` (locks.dfy) is the `processingLocks` registry. It is a class over a set of keys, with a ghost log of acquire and release events, and mutual exclusion is proved over any such log.
- `WebServer` (web_server.dfy), `WindowsSafe` (windows_safe.dfy), `ContextAgent` (context_agent.dfy) and `BasicAgent` (basic_agent.dfy) model one agent file each.
- `Showcase` (showcase.dfy) models the `ParallelProgressTracker` class and the wrapper agent of `run-demo-showcase.js`.

The world outside the agent becomes explicit parameters:

- the outcome of `mkdir`, `rename` and `writeFile`, as an error code or none;
- what `fs.access` saw on each probe;
- the sizes observed while waiting for a file;
- what the image library did, as bytes written or an error message;
- the clock.

In `WindowsSafe.Workspace`, the filesystem is a `map` from path to content. The clock that names temporary files (`Date.now()`) is a counter field. The lock spin is one turn: an acquire that finds its key held returns `WouldBlock`. It leaves the files, the clock and the held keys unchanged; only the ghost event log records the attempt.

Behaviour of the code worth noting:

- `imageAgent.js` turns every error after the params check into a `{success: false, error, operation}` reply and returns it.
- The per-node stagger delay of the windows-safe variant is a literal table of nine values.
- The concurrency statistic counts a start only when its node also has a `complete` event after the sampled time. A stage that only logged an error is never counted as in flight.
- A failed atomic write leaves the final path as it was before the call.
- The windows-safe `createSummary` throws on a `null` input, because `typeof null === 'object'` sends it to the property read. The web-server variant checks for `null` explicitly.

## Model

| member | source | states |
|---|---|---|
| `Js.Or` | start-web-server.js:117 | `a \|\| b` is truthy iff either operand is, and it is one of the two operands |
| `Js.Lookup` | start-web-server.js:36 | looking up an absent key gives `undefined` |
| `Js.ObjectValues` | imageAgent-context.js:34 | `Object.values` of an object lists its property values in order; of an array, its items |
| `Js.IncludesAt` | start-web-server.js:107 | `s.includes(sub)` holds iff `sub` occurs in `s` at some position |
| `Js.IncludesChar` | imageAgent-context.js:41 | `s.includes(c)` for one character is membership of `c` in `s` |
| `Js.DecimalString` | imageAgent-windows-safe.js:131 | `String(n)` is a non-empty string of decimal digits, with at least two digits from 10 up |
| `Js.DecimalStringInjective` | imageAgent-windows-safe.js:131 | distinct numbers are spelled differently |
| `Stages.ParseImageOp` | imageAgent-windows-safe.js:59-78 | the operation is an image operation exactly when it is the string `mosaic`, `rotate` or `resize` |
| `Stages.ProcessedOutputsFollowConvention` | start-web-server.js:49-59 | the nine-entry output table maps exactly the names `mosaicN`/`rotateN`/`resizeN` to `./output/imageN_mosaic.jpg`/`_rotated.jpg`/`_final.jpg` |
| `Stages.TableEntry` | imageAgent-windows-safe.js:246-256 | each processed node's table entry is its conventional output path |
| `Stages.ProcessedOutputsUnderOutputRoot` | imageAgent-context.js:53-61 | every table path starts with, hence includes, `./output/` |
| `Stages.ConventionalOutputUnderRoot` | start-web-server.js:50-58 | a conventional output path starts with `./output/` |
| `Mosaic.FloorDiv` | start-web-server.js:199 | `Math.floor(a / b)` is the integer q with q·b ≤ a < q·b + b (mirrored for negative b) |
| `Mosaic.FloorDivRange` | imageAgent.js:98 | the floor of a non-negative dimension over a positive block lies between 0 and the dimension; over a negative block it is at most 0 |
| `Mosaic.ClampedSide` | start-web-server.js:199-200 | `max(1, floor(dim / block))` is at least 1, at most the dimension for a positive block, exactly 1 for an oversized or negative block, and undefined for block 0 |
| `Mosaic.UnclampedSide` | imageAgent-context.js:126-127 | `floor(dim / block)` lies in 0..dim for a positive block and is 0 when the block exceeds the dimension |
| `Mosaic.ClampedSize` | imageAgent-windows-safe.js:185-186 | the reduced size is the clamped quotient of each side; both sides are at least 1, no larger than the original for a positive block, and exactly 1 on a side the block exceeds |
| `Mosaic.UnclampedSize` | imageAgent.js:98-99 | the reduced size is the floored quotient of each side; both sides lie between 0 and the original for a positive block, and a block larger than a side makes that side 0 |
| `Mosaic.ClampedIsClampOfUnclamped` | start-web-server.js:199 | the clamped side is the unclamped side raised to 1 |
| `Mosaic.VariantsAgreeWhenBlockFits` | imageAgent-context.js:126-127 | when the block fits in both sides, the clamped and unclamped variants agree |
| `Mosaic.UnitBlockKeepsSize` | start-web-server.js:199-200 | block size 1 keeps the original size in both variants |
| `Mosaic.OversizedBlockIsOnePixel` | start-web-server.js:199-200 | an oversized block gives 1×1 clamped and 0×0 unclamped |
| `DirCreation.EnsureDirTolerant` | start-web-server.js:354-367 | the call fails iff mkdir failed with a code other than EEXIST, EPERM or EACCES, and it then rethrows that code |
| `DirCreation.EnsureDirStrict` | imageAgent-context.js:190-196 | the call fails iff mkdir failed with a code other than EEXIST |
| `DirCreation.TolerantFailsLess` | imageAgent-windows-safe.js:300-314 | the tolerant policy fails only where the strict one does, and they differ exactly on EPERM and EACCES |
| `WebServer.ResolveNodeValue` | start-web-server.js:30-68 | an undeclared name comes back unchanged; a declared node's truthy `value` wins; otherwise the table path, or the name itself |
| `WebServer.ResolveWithoutGraphIsIdentity` | start-web-server.js:31-34 | without graph data or its `nodes`, every name resolves to itself |
| `WebServer.ResolveFollowsConvention` | start-web-server.js:42-64 | a declared processed node without a value resolves to its conventional output path |
| `WebServer.ResolveChangesOnlyDeclared` | start-web-server.js:36-40 | only a declared node is ever resolved to something other than its name, even if the name is in the table |
| `WebServer.ClassifyFirstInput` | start-web-server.js:105-124 | a rooted string passes through and another string is resolved. An object gives its non-empty string `outputPath`; when `outputPath` is falsy it gives a non-empty string `value`; it throws iff neither applies. Anything else throws. |
| `WebServer.ResolvedTablePathIsStable` | start-web-server.js:107-109 | a resolved table path is used unchanged when fed to the next stage |
| `WebServer.FirstInput` | start-web-server.js:101 | the first positional input when there is one, else the first named-input value, else `undefined` |
| `WebServer.SelectInput` | start-web-server.js:85-125 | a missing operation throws. `summary` always succeeds, with the positional inputs or else the named-input values in order. Another operation classifies the first input (the first positional input, else the first named-input value): it succeeds iff that classification does and yields its path, so a node name is resolved and an object gives its path. With no input at all it throws. |
| `WebServer.SafeSummary` | start-web-server.js:324-344 | one entry per input numbered i+1. Objects give `outputPath \|\| value`, `processingTime \|\| 'N/A'` and their `operation`. Other inputs give themselves and `'N/A'`, with no operation. |
| `WebServer.SafeSummaryAppend` | start-web-server.js:328-343 | the summary of a concatenation is the two summaries, with the second renumbered after the first |
| `WebServer.CompleteAgent` | start-web-server.js:71-171 | input errors and unsupported operations throw. An image stage succeeds iff its executor does. `summary` throws on a non-string `params.outputPath`, and otherwise succeeds iff mkdir and the write succeed, rethrowing their codes. A success returns `{outputPath: params.outputPath \|\| result, …, value}`. |
| `WebServer.RecordFeedsNextStage` | start-web-server.js:158-165 | the record of a stage with a non-empty `outputPath` is classified by the next stage as exactly that path |
| `WebServer.SummaryOfRecords` | start-web-server.js:334-337 | the summary of stage records lists each stage's output path and processing time |
| `WebServer.BlockSize` | start-web-server.js:177 | an absent block size defaults to 10 and a number is used as is; `null` and `false` divide as 0 and `true` as 1 |
| `WebServer.SafeMosaicSize` | start-web-server.js:176-200 | a non-string output path throws first, then a mkdir error, then a missing input. The stage succeeds iff none of these occurs and the block size is a non-zero number; the size is then the clamped reduced size, each side from 1 to the original |
| `WebServer.WaitForFileSafe` | start-web-server.js:290-314 | the wait succeeds at the first observation of a non-empty file and times out iff no observation saw one |
| `Locks.LockKeyInjective` | imageAgent-windows-safe.js:103 | the key `operation-outputPath` determines both the operation and the path |
| `Locks.ReplayAppend` | imageAgent-windows-safe.js:106-110 | replaying a log with one more event applies that event to the replayed set |
| `Locks.StaysHeld` | imageAgent-windows-safe.js:106-110 | a key stays held across events that do not release it |
| `Locks.MutualExclusion` | imageAgent-windows-safe.js:106-110 | between two granted acquires of the same key there is a release of that key |
| `Locks.ReleaseFrees` | imageAgent-windows-safe.js:152-154 | a release frees its key and leaves every other key as it was |
| `Locks.Registry.constructor` | imageAgent-windows-safe.js:7 | the registry starts empty |
| `Locks.Registry.TryAcquire` | imageAgent-windows-safe.js:106-110 | an acquire is granted iff the key was absent; afterwards the key is held and no other key changed |
| `Locks.Registry.Release` | imageAgent-windows-safe.js:153 | a release removes exactly the key |
| `WindowsSafe.TempPathFresh` | imageAgent-windows-safe.js:131 | the temporary name never equals the target, and different ticks give different names |
| `WindowsSafe.GetNodeDelay` | imageAgent-windows-safe.js:158-175 | a missing or unknown node id gives 0, a known one its table value, and no delay exceeds 70 ms |
| `WindowsSafe.NodeDelayStagger` | imageAgent-windows-safe.js:162-172 | the delay of node `opN` is 25·(N−1) plus 0, 10 or 20 for mosaic, rotate or resize |
| `WindowsSafe.NodeDelaysDistinct` | imageAgent-windows-safe.js:162-172 | no two processed nodes share a delay |
| `WindowsSafe.ResolvedPath` | imageAgent-windows-safe.js:233-276 | an input image resolves, without a check, to its own `.jpg` under `./images/`. A processed node resolves to its table path iff a probe finds the file, else "dependency not found". Other names are unknown. Every result is a rooted path. |
| `WindowsSafe.BaseImagesUnderInputRoot` | imageAgent-windows-safe.js:235-239 | every input image path includes `./images/` |
| `WindowsSafe.SlashFreeNotRooted` | imageAgent-windows-safe.js:42 | a string without a slash includes neither root |
| `WindowsSafe.ResolveNodeNameToPath` | imageAgent-windows-safe.js:258-272 | the probing loop returns what `ResolvedPath` says, using at most ten probes and stopping at the first that finds the file |
| `WindowsSafe.SelectSource` | imageAgent-windows-safe.js:36-54 | a rooted string passes through. Another string becomes exactly the path it resolves to, or that resolution's error. An object gives `outputPath \|\| itself`. Anything else throws. |
| `WindowsSafe.SelectSourceIdempotent` | imageAgent-windows-safe.js:40-47 | selecting the result of a string selection again gives the same result |
| `WindowsSafe.ResolvedNodeFollowsConvention` | imageAgent-windows-safe.js:258-263 | a processed node's name selects its conventional output path once a probe finds it |
| `WindowsSafe.CreateSummary` | imageAgent-windows-safe.js:279-297 | throws iff an input is null; otherwise one line per input numbered i+1, objects give their `outputPath`/`processingTime`, others give themselves and `'N/A'` |
| `WindowsSafe.PlanStage` | imageAgent-windows-safe.js:21-78 | a missing operation throws. `summary` plans a write of all named-input values to the target path. An image operation plans a write of the selected source to the target path. A source error precedes the unsupported-operation error. |
| `WindowsSafe.ChainedStageReadsConventionalOutput` | imageAgent-windows-safe.js:34-47 | a stage whose source is a processed node's name reads that node's conventional output |
| `WindowsSafe.RecordFeedsNextStage` | imageAgent-windows-safe.js:87-93 | an image stage's record is selected by the next stage as exactly its output path |
| `WindowsSafe.Workspace.constructor` | imageAgent-windows-safe.js:7 | a workspace starts with the given files and an empty registry |
| `WindowsSafe.Workspace.WriteThroughTemp` | imageAgent-windows-safe.js:120-150 | a mkdir error comes first, then a missing input; neither touches files or clock. On success the produced bytes land at the target and the temp name is gone. On failure the temp name is removed and the target is untouched. |
| `WindowsSafe.Workspace.WindowsSafeFileWrite` | imageAgent-windows-safe.js:102-155 | the call blocks iff the key is held. A completed call logs acquire then release and leaves the held keys as before. It succeeds iff mkdir, the input check, the work and the rename succeed. Success replaces the target with the produced bytes; failure changes no file other than the temporary name. Each error is the step's own. |
| `WindowsSafe.Workspace.ImageProcessingAgent` | imageAgent-windows-safe.js:10-99 | plan errors change nothing. `summary` writes its JSON document directly (no lock) iff mkdir, the null check and the write succeed, and otherwise rethrows the mkdir or write code, or the null-read error. An image stage writes through the lock and succeeds iff every write step does; on failure it rethrows that step's own error, with the clock advanced once the input check passed. It changes no file other than the target and the temporary name, and returns `{outputPath, operation, processingTime, timestamp, nodeId}`. |
| `Showcase.GetPipelineFromNode` | run-demo-showcase.js:65-70 | the first of '1', '2', '3' (in that order) found in the id picks the pipeline; an id with none is the summary lane |
| `Showcase.PipelineOfNode` | run-demo-showcase.js:65-70 | each processed node is filed under its own pipeline, and `summary` under none |
| `Showcase.NoDigitsInOpName` | run-demo-showcase.js:66-68 | the operation names contain none of the digits 1 to 3 |
| `Showcase.GetStatusEmoji` | run-demo-showcase.js:72-79 | start, complete and error each get their own icon; every other status gets the default |
| `Showcase.RunningOnlyCompletable` | run-demo-showcase.js:172-175 | only starts whose node has a complete event are counted, so error-only nodes never are |
| `Showcase.CompletableAtMostStarts` | run-demo-showcase.js:172-175 | completable starts are at most all starts |
| `Showcase.ConcurrentAtMostStarts` | run-demo-showcase.js:172-176 | a sample never exceeds the number of start events |
| `Showcase.NothingRunsAtEnd` | run-demo-showcase.js:174 | when no event is later than t, nothing counts as running at t |
| `Showcase.NothingRunsAfterLastEvent` | run-demo-showcase.js:171-175 | from the latest event on, the sampled concurrency is 0 |
| `Showcase.MaxElapsed` | run-demo-showcase.js:171 | `Math.max(...elapsed)` bounds every event's offset and is one of them |
| `Showcase.SumAtMostMaxTimesCount` | run-demo-showcase.js:177-185 | the total is at most max × measurements, so the average never exceeds `maxConcurrent` |
| `Showcase.MaxSamplesAtMostStarts` | run-demo-showcase.js:177 | `maxConcurrent` never exceeds the number of start events |
| `Showcase.ProgressTracker.constructor` | run-demo-showcase.js:10-18 | a tracker starts with no start time and no events |
| `Showcase.ProgressTracker.Start` | run-demo-showcase.js:20-21 | `start()` records the start time and keeps the events |
| `Showcase.ProgressTracker.LogEvent` | run-demo-showcase.js:38-55 | appends exactly one event with the given id, status and duration, the id's pipeline and `elapsed = now − startTime`; earlier events are unchanged |
| `Showcase.ProgressTracker.HasLaterComplete` | run-demo-showcase.js:174 | the inner `some` finds a complete event of the node later than t |
| `Showcase.ProgressTracker.CountConcurrent` | run-demo-showcase.js:172-175 | the sample at t counts the starts at or before t whose node completes after t |
| `Showcase.ProgressTracker.CalculateParallelism` | run-demo-showcase.js:166-186 | samples t = 0, 10, …, max elapsed, i.e. max/10 + 1 samples (none for an empty log); returns the maximum and total of the samples |
| `Showcase.RunStage` | run-demo-showcase.js:194-222 | logs start and complete only for a present id and a non-summary operation; logs error for any present id; passes the base agent's outcome through |
| `ContextAgent.MappedPathsHaveSlash` | imageAgent-context.js:46-62 | every mapped path contains a '/' |
| `ContextAgent.MapSource` | imageAgent-context.js:41-73 | a bare name in the table becomes its path; an unmapped name, a string with '/' and any non-string pass through |
| `ContextAgent.MapSourceIdempotent` | imageAgent-context.js:41-73 | mapping a mapped source again changes nothing |
| `ContextAgent.MappedNodeFollowsConvention` | imageAgent-context.js:53-62 | a processed node's name maps to its conventional output path |
| `ContextAgent.SummaryDocument` | imageAgent-context.js:173-183 | `totalProcessed` is the input count and result i is `{pipeline: i+1, outputPath: input i}` |
| `ContextAgent.ImageProcessingAgent` | imageAgent-context.js:7-112 | a missing or unsupported operation throws, and so does a non-string output path. A stage succeeds iff mkdir (EEXIST only) and the work succeed, and otherwise rethrows the mkdir code, the write code or the transformation's message. An image stage returns `params.outputPath`; `summary` returns its document of all named-input values. |
| `ContextAgent.ResultFeedsNextStage` | imageAgent-context.js:41 | an image stage's result, a path with '/', is passed through by the next stage |
| `BasicAgent.LookupSetProp` | imageAgent.js:150-153 | assigning a key changes that key's value and no other |
| `BasicAgent.LookupAssign` | imageAgent.js:150-153 | after a spread, a copied key has the copied value and any other key keeps the base value |
| `BasicAgent.StringEntries` | imageAgent.js:152 | a string spreads into distinct index keys, none of them `pipeline` |
| `BasicAgent.SpreadSummary` | imageAgent.js:147-154 | `totalProcessed` is the input count and result i is `{pipeline: i+1, ...input i}` |
| `BasicAgent.SpreadEntryFields` | imageAgent.js:150-153 | an entry reads the input's own fields, and `pipeline` is the position only where the input has none |
| `BasicAgent.InputPipelineOverridesIndex` | imageAgent.js:150-153 | an input's own `pipeline` overrides the position |
| `BasicAgent.StringInputSpreadsCharacters` | imageAgent.js:150-153 | a string input becomes one index-keyed property per character next to the position |
| `BasicAgent.LookupUnique` | imageAgent.js:152 | in a well-formed object a key's lookup finds its one property |
| `BasicAgent.ResolveParams` | imageAgent.js:16-24 | `params`, else `context.params`; with neither the agent throws |
| `BasicAgent.SelectInput` | imageAgent.js:33-39 | `summary` takes all named-input values; others take `source \|\| first value`; reading from undefined or null throws |
| `BasicAgent.SourceFirstIsSelected` | imageAgent.js:38 | when `source` is the first named input it is selected, falsy or not |
| `BasicAgent.RunStage` | imageAgent.js:41-60 | an unsupported operation throws, then a non-string output path, then a mkdir error. A summary then fails with the write code or returns the spread summary, and an image stage fails with the transformation's message or returns `params.outputPath`. |
| `BasicAgent.ImageProcessingAgent` | imageAgent.js:7-84 | only missing params throw. Every later error becomes `{success: false, error, operation}` carrying that error: the null read, an unsupported operation, a non-string output path, the mkdir or write code, or the transformation's message. Success returns `{success: true, operation, outputPath: params.outputPath, processingTime, timestamp, result}`. |

## Left out

- The pixel work of the image library (nearest-kernel resize, rotate, cover crop, JPEG encoding) is not modelled. A stage's transformation is an opaque outcome: bytes written, or an error message.
- The Express server, its routes and HTML page, the demo drivers that run the GraphAI engine, `runParallelProcessing`, and the test-image generator are not part of this model.
- Concurrency and wall-clock time are not modelled: the 50 ms lock spin, the `setTimeout` waits, the stagger delay's actual sleep, `Date.now()` and the JST/ISO timestamp strings. Clock readings and timestamps are parameters, and the lock spin is one `WouldBlock` turn.
- JavaScript numbers are integers here, so fractional block sizes (which `Math.floor` would still turn into a valid size) are not represented. A zero block size, which gives Infinity or NaN, is an error outcome.
- `WebServer.BlockSize`: a string, array or object block size is refused. JavaScript would coerce some of them to a number (`"8"` divides as 8, `[5]` as 5) and the mosaic would then succeed.
- `Js.ObjectValues` and `BasicAgent.OwnEntries`: strings are sequences of Unicode characters, not UTF-16 code units. `Object.values` of a string, or `{...input}` of a string input, therefore gives one entry per character where JavaScript gives one per code unit; the two differ for characters outside the Basic Multilingual Plane.
- Prototype properties are not modelled (for example `nodeNameMapping['constructor']` being truthy). Objects are property lists whose order is the insertion order. The integer-keys-first ordering of a spread object is not modelled; the lookup lemmas do not depend on order.
- The `completedAt` and `processingNode` fields of the summary documents are left out; they are a wall-clock string and the node id.
- The console output is left out: `updateConcurrentDisplay`, `displayParallelTimeline` and `displayFinalResults`. So is the float `averageParallelism`, which is kept as the pair `totalParallelTime` / `measurements`.
- The bodies of the rotate and resize stages (angle, width and height defaults) are not modelled. They only parameterise the image library.
- Node ids in the tracker are strings, or absent. A non-string truthy id would make `nodeId.includes` throw, and that is not modelled.
- `WindowsSafe.PlanStage`: a missing, non-string or empty `params.outputPath` is refused before any write, with `InvalidOutputPath`. The source instead reaches `path.dirname`, or a failing rename, inside the lock.
- `WindowsSafe.Workspace.WriteThroughTemp`: the cleanup `unlink` is modelled as always succeeding. Its errors are swallowed in the source, so the outcome returned is the same either way.
- `WindowsSafe.GetNodeDelay`: the source passes `params.nodeId` to the write, not the context's node id. The delay only affects timing, so the model keeps it as a pure lookup.
- `Locks.MutualExclusion`: the lock key is `operation-outputPath`. Two different operations writing the same path are therefore not excluded from each other.
- `WebServer.WaitForFileSafe`: the 5000 ms deadline is given as the number of observations it admits, not as a time.
