/** Frame-id to source-location inference (src/analysis/inferFrameSourceLocations.ts). The walk
    is written once over the entry a task's event yields, so that the older variant in
    src/analysis/frames.ts can reuse its lemmas with its own entry rule. */
module FrameInference {
  import opened Wrappers
  import opened Frames
  import opened Tasks

  type FrameMap = map<string, FrameInfo>

  /** The map after visiting one event: the event's entry is recorded under its frame id when
      the id is truthy, not yet mapped, and the event yields an entry. */
  function Record(entry: TraceEvent -> Option<FrameInfo>, m: FrameMap, e: TraceEvent): (r: FrameMap)
    ensures m.Keys <= r.Keys && forall k :: k in m ==> r[k] == m[k]
  {
    var frame := FrameId(e);
    if TruthyString(frame) && frame.value !in m && entry(e).Some? then m[frame.value := entry(e).value]
    else m
  }

  /** gatherFrameInfo as a value: each task's event, then its children, then its later
      siblings. */
  function Walk(entry: TraceEvent -> Option<FrameInfo>, m: FrameMap, ts: seq<Task>): (r: FrameMap)
    ensures m.Keys <= r.Keys && forall k :: k in m ==> r[k] == m[k]
    decreases ts
  {
    if ts == [] then m
    else Walk(entry, Walk(entry, Record(entry, m, ts[0].event), ts[0].children), ts[1..])
  }

  /** The events of a task list, in order. */
  function EventsOf(flat: seq<Task>): (r: seq<TraceEvent>)
    ensures |r| == |flat| && forall i :: 0 <= i < |flat| ==> r[i] == flat[i].event
  {
    if flat == [] then [] else [flat[0].event] + EventsOf(flat[1..])
  }

  /** Recording the events of a flat list one after another. */
  function Fold(entry: TraceEvent -> Option<FrameInfo>, m: FrameMap, es: seq<TraceEvent>): FrameMap
    decreases |es|
  {
    if es == [] then m else Fold(entry, Record(entry, m, es[0]), es[1..])
  }

  /** The entry of the first event in the list that names frame `k` and yields an entry. */
  function FirstEntry(entry: TraceEvent -> Option<FrameInfo>, k: string, es: seq<TraceEvent>): Option<FrameInfo> {
    if es == [] then None
    else if FrameId(es[0]) == Some(k) && k != "" && entry(es[0]).Some? then entry(es[0])
    else FirstEntry(entry, k, es[1..])
  }

  lemma {:induction false} FoldAppend(entry: TraceEvent -> Option<FrameInfo>, m: FrameMap, a: seq<TraceEvent>, b: seq<TraceEvent>)
    ensures Fold(entry, m, a + b) == Fold(entry, Fold(entry, m, a), b)
    decreases |a|
  {
    if a == [] {
      assert a + b == b;
    } else {
      assert (a + b)[0] == a[0];
      assert (a + b)[1..] == a[1..] + b;
      FoldAppend(entry, Record(entry, m, a[0]), a[1..], b);
    }
  }

  lemma {:induction false} EventsOfAppend(a: seq<Task>, b: seq<Task>)
    ensures EventsOf(a + b) == EventsOf(a) + EventsOf(b)
  {
  }

  /** The walk visits the tasks in pre-order. */
  lemma {:induction false} WalkIsPreOrderFold(entry: TraceEvent -> Option<FrameInfo>, m: FrameMap, ts: seq<Task>)
    ensures Walk(entry, m, ts) == Fold(entry, m, EventsOf(PreOrder(ts)))
    decreases ts
  {
    if ts != [] {
      var t := ts[0];
      var m1 := Record(entry, m, t.event);
      WalkIsPreOrderFold(entry, m1, t.children);
      WalkIsPreOrderFold(entry, Walk(entry, m1, t.children), ts[1..]);
      var a, b := PreOrder(t.children), PreOrder(ts[1..]);
      EventsOfAppend([t] + a, b);
      EventsOfAppend([t], a);
      assert PreOrder(ts) == [t] + a + b;
      assert EventsOf(PreOrder(ts)) == [t.event] + EventsOf(a) + EventsOf(b);
      FoldAppend(entry, m, [t.event] + EventsOf(a), EventsOf(b));
      FoldAppend(entry, m, [t.event], EventsOf(a));
      assert Fold(entry, m, [t.event]) == m1 by {
        assert [t.event][1..] == [];
      }
    }
  }

  /** First writer wins: an entry already in the map is kept, and a new frame id gets the entry
      of the first event naming it, whatever later events say. */
  lemma {:induction false} FoldFirstWriter(entry: TraceEvent -> Option<FrameInfo>, m: FrameMap, es: seq<TraceEvent>, k: string)
    ensures k in m ==> k in Fold(entry, m, es) && Fold(entry, m, es)[k] == m[k]
    ensures k !in m ==> (k in Fold(entry, m, es) <==> FirstEntry(entry, k, es).Some?)
    ensures k !in m && k in Fold(entry, m, es) ==> Fold(entry, m, es)[k] == FirstEntry(entry, k, es).value
    decreases |es|
  {
    if es != [] {
      var m1 := Record(entry, m, es[0]);
      FoldFirstWriter(entry, m1, es[1..], k);
    }
  }

  /** Re-running the walk on the same tasks, starting from its own result, adds nothing. */
  lemma {:induction false} WalkIdempotent(entry: TraceEvent -> Option<FrameInfo>, m: FrameMap, ts: seq<Task>)
    ensures Walk(entry, Walk(entry, m, ts), ts) == Walk(entry, m, ts)
  {
    var es := EventsOf(PreOrder(ts));
    var m1 := Walk(entry, m, ts);
    WalkIsPreOrderFold(entry, m, ts);
    WalkIsPreOrderFold(entry, m1, ts);
    var m2 := Fold(entry, m1, es);
    forall k
      ensures k in m2 <==> k in m1
      ensures k in m1 ==> m2[k] == m1[k]
    {
      FoldFirstWriter(entry, m, es, k);
      FoldFirstWriter(entry, m1, es, k);
    }
    assert m2 == m1;
  }

  /** The walk reads only the events and their nesting, never the metadata. */
  lemma {:induction false} WalkDependsOnEvents(entry: TraceEvent -> Option<FrameInfo>, m: FrameMap, a: seq<Task>, b: seq<Task>)
    requires Skeleton(a) == Skeleton(b)
    ensures Walk(entry, m, a) == Walk(entry, m, b)
    decreases a
  {
    if a != [] {
      assert b != [];
      assert Skeleton(a)[0] == Skeleton(b)[0];
      assert Skeleton(a)[1..] == Skeleton(a[1..]);
      assert Skeleton(b)[1..] == Skeleton(b[1..]);
      var m1 := Record(entry, m, a[0].event);
      WalkDependsOnEvents(entry, m1, a[0].children, b[0].children);
      WalkDependsOnEvents(entry, Walk(entry, m1, a[0].children), a[1..], b[1..]);
    }
  }

  /** The entry the current pass records for an event: it needs a truthy url and a line
      (`lineNumber ?? startLine`); the column defaults to 0. */
  function CurrentEntry(e: TraceEvent): (r: Option<FrameInfo>)
    ensures r.Some? <==> TruthyString(DataOf(e).url) && Coalesce(DataOf(e).lineNumber, DataOf(e).startLine).Some?
    ensures r.Some? ==> r.value.url == DataOf(e).url.value && r.value.functionName == DataOf(e).functionName
    ensures r.Some? && DataOf(e).lineNumber.Some? ==> r.value.lineNumber == DataOf(e).lineNumber.value
    ensures r.Some? && DataOf(e).lineNumber.None? ==> r.value.lineNumber == DataOf(e).startLine.value
    ensures r.Some? ==> r.value.columnNumber == DataOf(e).columnNumber.GetOr(0)
  {
    var data := DataOf(e);
    var lineNumber := Coalesce(data.lineNumber, data.startLine);
    if TruthyString(data.url) && lineNumber.Some? then
      Some(FrameInfo(data.url.value, data.functionName, lineNumber.value, data.columnNumber.GetOr(0)))
    else None
  }

  function GatherFrames(m: FrameMap, ts: seq<Task>): FrameMap {
    Walk(CurrentEntry, m, ts)
  }

  /** gatherFrameInfo: the map is extended in place by a recursive walk over the forest. */
  method GatherFrameInfo(frameInfoMap: FrameMap, tasks: seq<Task>) returns (m: FrameMap)
    ensures m == GatherFrames(frameInfoMap, tasks)
    decreases tasks
  {
    m := frameInfoMap;
    for i := 0 to |tasks|
      invariant Walk(CurrentEntry, frameInfoMap, tasks) == Walk(CurrentEntry, m, tasks[i..])
    {
      var task := tasks[i];
      assert tasks[i..][1..] == tasks[i + 1..];
      var data := DataOf(task.event);
      var frame := FrameId(task.event);
      if TruthyString(frame) && TruthyString(data.url) && frame.value !in m {
        var lineNumber := Coalesce(data.lineNumber, data.startLine);
        if lineNumber.Some? {
          var columnNumber := data.columnNumber.GetOr(0);
          m := m[frame.value := FrameInfo(data.url.value, data.functionName, lineNumber.value, columnNumber)];
        }
      }
      m := GatherFrameInfo(m, task.children);
    }
  }

  /** inferFrameSourceLocations: an existing map is reused and only extended. */
  method InferFrameSourceLocations(trace: Trace)
    modifies trace
    ensures trace.frameInfo == Some(GatherFrames(old(trace.frameInfo).GetOr(map[]), trace.tasks))
    ensures trace.tasks == old(trace.tasks) && trace.attributionMap == old(trace.attributionMap)
  {
    var frameInfoMap := if trace.frameInfo.Some? then trace.frameInfo.value else map[];
    frameInfoMap := GatherFrameInfo(frameInfoMap, trace.tasks);
    trace.frameInfo := Some(frameInfoMap);
  }

  /** Running the pass twice on an unchanged forest equals running it once. */
  lemma {:induction false} InferTwiceIsOnce(m: FrameMap, ts: seq<Task>)
    ensures GatherFrames(GatherFrames(m, ts), ts) == GatherFrames(m, ts)
  {
    WalkIdempotent(CurrentEntry, m, ts);
  }
}
