/** The older frame inference (src/analysis/frames.ts): line and column must be truthy, and
    every run starts from a fresh map. */
module LegacyFrames {
  import opened Wrappers
  import opened Frames
  import opened Tasks
  import opened FrameInference

  /** An entry needs a truthy url, line and column, so line 0 or column 0 is rejected; the
      stored value copies url, function name, line and column from the event data. */
  function LegacyEntry(e: TraceEvent): (r: Option<FrameInfo>)
    ensures r.Some? <==> TruthyString(DataOf(e).url) && TruthyNumber(DataOf(e).lineNumber) && TruthyNumber(DataOf(e).columnNumber)
    ensures r.Some? ==> r.value == FrameInfo(DataOf(e).url.value, DataOf(e).functionName,
                                             DataOf(e).lineNumber.value, DataOf(e).columnNumber.value)
  {
    var data := DataOf(e);
    if TruthyString(data.url) && TruthyNumber(data.lineNumber) && TruthyNumber(data.columnNumber) then
      Some(FrameInfo(data.url.value, data.functionName, data.lineNumber.value, data.columnNumber.value))
    else None
  }

  function LegacyGatherFrames(m: FrameMap, ts: seq<Task>): FrameMap {
    Walk(LegacyEntry, m, ts)
  }

  /** gatherFrameInfo (older): same walk, stricter entry rule. */
  method GatherFrameInfo(frameInfoMap: FrameMap, tasks: seq<Task>) returns (m: FrameMap)
    ensures m == LegacyGatherFrames(frameInfoMap, tasks)
    decreases tasks
  {
    m := frameInfoMap;
    for i := 0 to |tasks|
      invariant Walk(LegacyEntry, frameInfoMap, tasks) == Walk(LegacyEntry, m, tasks[i..])
    {
      var task := tasks[i];
      assert tasks[i..][1..] == tasks[i + 1..];
      var data := DataOf(task.event);
      var frame := FrameId(task.event);
      if TruthyString(frame) && TruthyString(data.url) && TruthyNumber(data.lineNumber)
        && TruthyNumber(data.columnNumber) && frame.value !in m
      {
        m := m[frame.value := FrameInfo(data.url.value, data.functionName, data.lineNumber.value, data.columnNumber.value)];
      }
      m := GatherFrameInfo(m, task.children);
    }
  }

  /** inferFrameSourceLocations (older): a fresh map replaces any earlier one. */
  method InferFrameSourceLocations(trace: Trace)
    modifies trace
    ensures trace.frameInfo == Some(LegacyGatherFrames(map[], trace.tasks))
    ensures trace.tasks == old(trace.tasks) && trace.attributionMap == old(trace.attributionMap)
  {
    var frameInfoMap := GatherFrameInfo(map[], trace.tasks);
    trace.frameInfo := Some(frameInfoMap);
  }

  lemma {:induction false} FirstEntryExists(k: string, es: seq<TraceEvent>, i: nat)
    requires i < |es| && FrameId(es[i]) == Some(k) && k != "" && CurrentEntry(es[i]).Some?
    ensures FirstEntry(CurrentEntry, k, es).Some?
    decreases i
  {
    if i > 0 && !(FrameId(es[0]) == Some(k) && CurrentEntry(es[0]).Some?) {
      FirstEntryExists(k, es[1..], i - 1);
    }
  }

  lemma {:induction false} LegacyFirstImpliesCurrent(k: string, es: seq<TraceEvent>)
    requires FirstEntry(LegacyEntry, k, es).Some?
    ensures FirstEntry(CurrentEntry, k, es).Some?
    decreases |es|
  {
    if FrameId(es[0]) == Some(k) && k != "" && LegacyEntry(es[0]).Some? {
      FirstEntryExists(k, es, 0);
    } else {
      LegacyFirstImpliesCurrent(k, es[1..]);
      if !(FrameId(es[0]) == Some(k) && k != "" && CurrentEntry(es[0]).Some?) {
        assert FirstEntry(CurrentEntry, k, es) == FirstEntry(CurrentEntry, k, es[1..]);
      }
    }
  }

  /** Every frame id the older pass maps, the current pass maps too; the values can differ
      when an earlier event had a line or column of 0. */
  lemma {:induction false} LegacyKeysWithinCurrent(ts: seq<Task>)
    ensures LegacyGatherFrames(map[], ts).Keys <= GatherFrames(map[], ts).Keys
  {
    var es := EventsOf(PreOrder(ts));
    WalkIsPreOrderFold(LegacyEntry, map[], ts);
    WalkIsPreOrderFold(CurrentEntry, map[], ts);
    forall k | k in LegacyGatherFrames(map[], ts)
      ensures k in GatherFrames(map[], ts)
    {
      FoldFirstWriter(LegacyEntry, map[], es, k);
      FoldFirstWriter(CurrentEntry, map[], es, k);
      LegacyFirstImpliesCurrent(k, es);
    }
  }
}
