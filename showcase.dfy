/**
 * The progress tracker of run-demo-showcase.js: an append-only log of stage
 * events (start, complete, error) with their offsets from the demo's start, a
 * sampled statistic of how many stages ran at once, and the wrapper agent that
 * brackets each base-agent call with those events.
 *
 * Clock readings are parameters; the JST timestamp of an event, the console
 * output and the float average are not modelled (the average is kept as the
 * pair total / measurements).
 */
module Showcase {
  import opened Outcomes
  import opened Js
  import opened Stages
  import Mosaic

  // ----- Pipelines and status icons -----

  datatype Pipeline = Pipeline1 | Pipeline2 | Pipeline3 | SummaryLane

  /** `getPipelineFromNode`: the first of the digits '1', '2', '3' (checked in that order) the id contains picks the pipeline. */
  function GetPipelineFromNode(nodeId: string): (p: Pipeline)
    ensures p == Pipeline1 <==> '1' in nodeId
    ensures p == Pipeline2 <==> '1' !in nodeId && '2' in nodeId
    ensures p == Pipeline3 <==> '1' !in nodeId && '2' !in nodeId && '3' in nodeId
    ensures p == SummaryLane <==> '1' !in nodeId && '2' !in nodeId && '3' !in nodeId
  {
    IncludesChar(nodeId, '1');
    IncludesChar(nodeId, '2');
    IncludesChar(nodeId, '3');
    if Includes(nodeId, "1") then Pipeline1
    else if Includes(nodeId, "2") then Pipeline2
    else if Includes(nodeId, "3") then Pipeline3
    else SummaryLane
  }

  function LanePipeline(n: Lane): Pipeline {
    if n == 1 then Pipeline1 else if n == 2 then Pipeline2 else Pipeline3
  }

  /** Every processed node is filed under its own pipeline, and the summary node under none. */
  lemma PipelineOfNode(op: ImageOp, n: Lane)
    ensures GetPipelineFromNode(NodeName(op, n)) == LanePipeline(n)
    ensures GetPipelineFromNode(SummaryOp) == SummaryLane
  {
    var name := NodeName(op, n);
    assert name == OpName(op) + [Digit(n)];
    NoDigitsInOpName(op);
    assert '1' in name <==> Digit(n) == '1';
    assert '2' in name <==> Digit(n) == '2';
    assert '3' in name <==> Digit(n) == '3';
    assert n == 1 || n == 2 || n == 3;
    assert "summary"[0] != '1';
  }

  lemma NoDigitsInOpName(op: ImageOp)
    ensures '1' !in OpName(op) && '2' !in OpName(op) && '3' !in OpName(op)
  {
    match op {
      case Mosaic => assert OpName(op) == "mosaic";
      case Rotate => assert OpName(op) == "rotate";
      case Resize => assert OpName(op) == "resize";
    }
  }

  datatype StatusIcon = Launch | Done | Failure | Working

  /** `getStatusEmoji`: three known statuses get their own icon; every other status gets the default. */
  function GetStatusEmoji(status: string): (icon: StatusIcon)
    ensures icon == Working <==> status !in {"start", "complete", "error"}
    ensures icon == Launch <==> status == "start"
    ensures icon == Done <==> status == "complete"
    ensures icon == Failure <==> status == "error"
  {
    if status == "start" then Launch
    else if status == "complete" then Done
    else if status == "error" then Failure
    else Working
  }

  // ----- Events -----

  /** One logged event (without its wall-clock `timestamp`). */
  datatype Event = Event(nodeId: string, pipeline: Pipeline, status: string, elapsed: int, duration: Option<int>)

  /** `this.startTime` as subtraction sees it: `null` counts as 0. */
  function StartOffset(startTime: Option<int>): int {
    match startTime
    case None => 0
    case Some(t) => t
  }

  // ----- The sampled concurrency statistic -----

  /** Some event of `nodeId` completed strictly after `t`. */
  predicate CompletesAfter(events: seq<Event>, nodeId: string, t: int) {
    exists j :: 0 <= j < |events| && events[j].nodeId == nodeId && events[j].status == "complete" && events[j].elapsed > t
  }

  /** A start event counted as running at `t`: started by `t`, and its node completes after `t`. */
  predicate Running(events: seq<Event>, e: Event, t: int) {
    e.status == "start" && e.elapsed <= t && CompletesAfter(events, e.nodeId, t)
  }

  /** The number of events of `prefix` running at `t`, judged against the whole log `events`. */
  function CountRunning(prefix: seq<Event>, events: seq<Event>, t: int): nat
    decreases |prefix|
  {
    if prefix == [] then 0
    else CountRunning(prefix[..|prefix| - 1], events, t) + (if Running(events, prefix[|prefix| - 1], t) then 1 else 0)
  }

  /** The concurrency sampled at time `t`. */
  function ConcurrentAt(events: seq<Event>, t: int): nat {
    CountRunning(events, events, t)
  }

  /** The number of start events in `prefix`. */
  function CountStarts(prefix: seq<Event>): nat
    decreases |prefix|
  {
    if prefix == [] then 0
    else CountStarts(prefix[..|prefix| - 1]) + (if prefix[|prefix| - 1].status == "start" then 1 else 0)
  }

  /** The number of start events in `prefix` whose node has some complete event in `events`. */
  function CountCompletableStarts(prefix: seq<Event>, events: seq<Event>): nat
    decreases |prefix|
  {
    if prefix == [] then 0
    else
      var e := prefix[|prefix| - 1];
      CountCompletableStarts(prefix[..|prefix| - 1], events) +
      (if e.status == "start" && (exists j :: 0 <= j < |events| && events[j].nodeId == e.nodeId && events[j].status == "complete") then 1 else 0)
  }

  /**
   * Only starts of nodes that complete are ever counted: a node that only
   * logged an error (or never finished) adds nothing to any sample.
   */
  lemma {:induction false} RunningOnlyCompletable(prefix: seq<Event>, events: seq<Event>, t: int)
    ensures CountRunning(prefix, events, t) <= CountCompletableStarts(prefix, events)
    decreases |prefix|
  {
    if prefix != [] {
      RunningOnlyCompletable(prefix[..|prefix| - 1], events, t);
    }
  }

  lemma {:induction false} CompletableAtMostStarts(prefix: seq<Event>, events: seq<Event>)
    ensures CountCompletableStarts(prefix, events) <= CountStarts(prefix)
    decreases |prefix|
  {
    if prefix != [] {
      CompletableAtMostStarts(prefix[..|prefix| - 1], events);
    }
  }

  /** No sample exceeds the number of start events. */
  lemma ConcurrentAtMostStarts(events: seq<Event>, t: int)
    ensures ConcurrentAt(events, t) <= CountCompletableStarts(events, events) <= CountStarts(events)
  {
    RunningOnlyCompletable(events, events, t);
    CompletableAtMostStarts(events, events);
  }

  /** Nothing runs past the last event: nothing completes after it. */
  lemma {:induction false} NothingRunsAtEnd(prefix: seq<Event>, events: seq<Event>, t: int)
    requires forall j :: 0 <= j < |events| ==> events[j].elapsed <= t
    ensures CountRunning(prefix, events, t) == 0
    decreases |prefix|
  {
    if prefix != [] {
      NothingRunsAtEnd(prefix[..|prefix| - 1], events, t);
    }
  }

  /** `Math.max(...events.map(e => e.elapsed))` for a non-empty log. */
  function MaxElapsed(events: seq<Event>): (m: int)
    requires events != []
    ensures forall j :: 0 <= j < |events| ==> events[j].elapsed <= m
    ensures exists j :: 0 <= j < |events| && events[j].elapsed == m
    decreases |events|
  {
    if |events| == 1 then events[0].elapsed
    else
      var rest := MaxElapsed(events[..|events| - 1]);
      assert forall j :: 0 <= j < |events| - 1 ==> events[..|events| - 1][j] == events[j];
      if events[|events| - 1].elapsed > rest then events[|events| - 1].elapsed else rest
  }

  /**
   * How many times `t = 0, 10, …` stays within `Math.max(...elapsed)`; an
   * empty log gives `-Infinity`, so no sample at all.
   */
  function Measurements(events: seq<Event>): nat {
    if events == [] then 0
    else if MaxElapsed(events) < 0 then 0
    else MaxElapsed(events) / 10 + 1
  }

  /** The concurrency at the `k`-th sample, taken at `t = 10k`. */
  function Sample(events: seq<Event>, k: nat): nat {
    ConcurrentAt(events, 10 * k)
  }

  /** The largest of the first `k` samples (0 when there are none). */
  function MaxSamples(events: seq<Event>, k: nat): nat {
    if k == 0 then 0
    else
      var m := MaxSamples(events, k - 1);
      if Sample(events, k - 1) > m then Sample(events, k - 1) else m
  }

  /** The sum of the first `k` samples. */
  function SumSamples(events: seq<Event>, k: nat): nat {
    if k == 0 then 0 else SumSamples(events, k - 1) + Sample(events, k - 1)
  }

  /** The total never exceeds max × measurements, so `averageParallelism` is at most `maxConcurrent`. */
  lemma {:induction false} SumAtMostMaxTimesCount(events: seq<Event>, k: nat)
    ensures SumSamples(events, k) <= MaxSamples(events, k) * k
  {
    if k > 0 {
      SumAtMostMaxTimesCount(events, k - 1);
      var m := MaxSamples(events, k - 1);
      var m' := MaxSamples(events, k);
      var s := Sample(events, k - 1);
      assert m <= m' && s <= m';
      Mosaic.MulMonotone(m, m', k - 1);
      assert SumSamples(events, k) == SumSamples(events, k - 1) + s;
      assert SumSamples(events, k) <= m' * (k - 1) + m';
      assert m' * (k - 1) + m' == m' * k;
    }
  }

  /** Every sample, hence the maximum, is bounded by the number of start events. */
  lemma {:induction false} MaxSamplesAtMostStarts(events: seq<Event>, k: nat)
    ensures MaxSamples(events, k) <= CountStarts(events)
  {
    if k > 0 {
      MaxSamplesAtMostStarts(events, k - 1);
      ConcurrentAtMostStarts(events, 10 * (k - 1));
    }
  }

  /** From the latest event on, nothing is running: no node completes after it. */
  lemma NothingRunsAfterLastEvent(events: seq<Event>, t: int)
    requires events != [] && MaxElapsed(events) <= t
    ensures ConcurrentAt(events, t) == 0
  {
    NothingRunsAtEnd(events, events, t);
  }

  /** `calculateParallelism`'s result; `averageParallelism` is `totalParallelTime / measurements`, or 0. */
  datatype Parallelism = Parallelism(maxConcurrent: nat, totalParallelTime: nat, measurements: nat)

  // ----- The tracker -----

  class ProgressTracker {
    var startTime: Option<int>
    var events: seq<Event>

    constructor ()
      ensures startTime == None && events == []
    {
      startTime := None;
      events := [];
    }

    /** `start()`: record the demo's start time. */
    method Start(now: int)
      modifies this
      ensures startTime == Some(now) && events == old(events)
    {
      startTime := Some(now);
    }

    /** `logEvent`: append exactly one event, stamped with its offset from the start. */
    method LogEvent(nodeId: string, status: string, duration: Option<int>, now: int)
      modifies this
      ensures events == old(events) + [Event(nodeId, GetPipelineFromNode(nodeId), status, now - StartOffset(old(startTime)), duration)]
      ensures startTime == old(startTime)
    {
      var elapsed := now - StartOffset(startTime);
      var pipeline := GetPipelineFromNode(nodeId);
      events := events + [Event(nodeId, pipeline, status, elapsed, duration)];
    }

    /** `this.events.some(e2 => e2.nodeId === nodeId && e2.status === 'complete' && e2.elapsed > t)`. */
    method HasLaterComplete(nodeId: string, t: int) returns (b: bool)
      ensures b == CompletesAfter(events, nodeId, t)
    {
      var j := 0;
      while j < |events|
        invariant 0 <= j <= |events|
        invariant forall k :: 0 <= k < j ==> !(events[k].nodeId == nodeId && events[k].status == "complete" && events[k].elapsed > t)
      {
        if events[j].nodeId == nodeId && events[j].status == "complete" && events[j].elapsed > t {
          return true;
        }
        j := j + 1;
      }
      return false;
    }

    /** The `filter(...).length` of one sample. */
    method CountConcurrent(t: int) returns (count: nat)
      ensures count == ConcurrentAt(events, t)
    {
      count := 0;
      var i := 0;
      while i < |events|
        invariant 0 <= i <= |events|
        invariant count == CountRunning(events[..i], events, t)
      {
        var e := events[i];
        assert events[..i + 1][..i] == events[..i];
        if e.status == "start" && e.elapsed <= t {
          var later := HasLaterComplete(e.nodeId, t);
          if later {
            count := count + 1;
          }
        }
        i := i + 1;
      }
      assert events[..i] == events;
    }

    /** `calculateParallelism`: sample every 10 ms up to the latest event, keeping the maximum and the total. */
    method CalculateParallelism() returns (p: Parallelism)
      ensures p.measurements == Measurements(events)
      ensures p.maxConcurrent == MaxSamples(events, p.measurements)
      ensures p.totalParallelTime == SumSamples(events, p.measurements)
    {
      var maxConcurrent := 0;
      var totalParallelTime := 0;
      var measurements := 0;
      if events == [] {
        return Parallelism(0, 0, 0);
      }
      var bound := MaxElapsed(events);
      var t := 0;
      while t <= bound
        invariant t == 10 * measurements
        invariant measurements == 0 || 10 * (measurements - 1) <= bound
        invariant maxConcurrent == MaxSamples(events, measurements)
        invariant totalParallelTime == SumSamples(events, measurements)
        decreases bound - t
      {
        var concurrent := CountConcurrent(t);
        if concurrent > maxConcurrent {
          maxConcurrent := concurrent;
        }
        totalParallelTime := totalParallelTime + concurrent;
        measurements := measurements + 1;
        t := t + 10;
      }
      if bound >= 0 {
        assert 10 * (measurements - 1) <= bound < 10 * measurements;
        assert bound / 10 == measurements - 1;
      }
      p := Parallelism(maxConcurrent, totalParallelTime, measurements);
    }
  }

  // ----- The wrapper agent -----

  /** A node id that is present and non-empty (`if (nodeId)`). */
  predicate PresentId(nodeId: Option<string>) {
    nodeId.Some? && nodeId.value != ""
  }

  /**
   * `linuxOptimizedAgent`: log `start` and `complete` around the base agent for
   * every node but the summary, log `error` for any node when it throws, and
   * pass the base agent's outcome through unchanged. `startNow` and `endNow`
   * are the clock before and after the base agent.
   */
  method RunStage(tracker: ProgressTracker, nodeId: Option<string>, params: Value, outcome: Result<Value, StageError>,
                  startNow: int, endNow: int) returns (r: Result<Value, StageError>)
    modifies tracker
    ensures r == outcome
    ensures tracker.startTime == old(tracker.startTime)
    ensures var logs := PresentId(nodeId) && Field(params, "operation") != Str(SummaryOp);
      var offset := StartOffset(old(tracker.startTime));
      var started := if logs then [Event(nodeId.value, GetPipelineFromNode(nodeId.value), "start", startNow - offset, None)] else [];
      tracker.events == old(tracker.events) + started +
        (if outcome.Ok? && logs then [Event(nodeId.value, GetPipelineFromNode(nodeId.value), "complete", endNow - offset, Some(endNow - startNow))]
         else if outcome.Err? && PresentId(nodeId) then [Event(nodeId.value, GetPipelineFromNode(nodeId.value), "error", endNow - offset, Some(endNow - startNow))]
         else [])
  {
    var operation := Field(params, "operation");
    if PresentId(nodeId) && operation != Str(SummaryOp) {
      tracker.LogEvent(nodeId.value, "start", None, startNow);
    }
    match outcome {
      case Ok(_) =>
        if PresentId(nodeId) && operation != Str(SummaryOp) {
          tracker.LogEvent(nodeId.value, "complete", Some(endNow - startNow), endNow);
        }
      case Err(_) =>
        if PresentId(nodeId) {
          tracker.LogEvent(nodeId.value, "error", Some(endNow - startNow), endNow);
        }
    }
    r := outcome;
  }
}
