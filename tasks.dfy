/** The older attribution record, kind plus context in one value (src/analysis/attribution.ts). */
module AttributionInfos {
  import opened Wrappers
  import opened Frames

  /** `source` attributions optionally carry a generated position and one line of source text. */
  datatype AttributionInfo =
    | UnknownInfo(lighthouseAttributableURLs: seq<string>, triggers: seq<string>)
    | FileInfo(url: string, lighthouseAttributableURLs: seq<string>, triggers: seq<string>)
    | SourceInfo(
        url: string,
        functionName: Option<string>,
        lineNumber: int,
        columnNumber: int,
        generated: Option<FrameInfo>,
        sourceLine: Option<string>,
        lighthouseAttributableURLs: seq<string>,
        triggers: seq<string>)
}

/** Trace events, tasks, their metadata and the trace (src/taskgraph.ts, src/playbyplays.ts). */
module Tasks {
  import opened Wrappers
  import opened Frames
  import opened Attributions
  import opened Breakdowns
  import opened AttributionInfos

  /** The fields of an event's `args.data` that the passes read. `dataType` is `data.type`. */
  datatype EventData = EventData(
    frame: Option<string>,
    url: Option<string>,
    fileName: Option<string>,
    lineNumber: Option<int>,
    columnNumber: Option<int>,
    startLine: Option<int>,
    functionName: Option<string>,
    stackTrace: Option<seq<FrameInfo>>,
    dataType: Option<string>)

  datatype BeginData = BeginData(stackTrace: Option<seq<FrameInfo>>)

  /** `event.args`; a missing `args` object reads exactly like one whose fields are all absent. */
  datatype EventArgs = EventArgs(
    data: Option<EventData>,
    frame: Option<string>,
    fileName: Option<string>,
    beginData: Option<BeginData>)

  datatype TraceEvent = TraceEvent(name: string, cat: string, args: EventArgs)

  const EmptyData := EventData(None, None, None, None, None, None, None, None, None)

  /** `args.data ?? {}` */
  function DataOf(e: TraceEvent): EventData {
    e.args.data.GetOr(EmptyData)
  }

  /** `data.frame ?? args.frame` */
  function FrameId(e: TraceEvent): Option<string> {
    Coalesce(DataOf(e).frame, e.args.frame)
  }

  /** `data.stackTrace ?? args.beginData?.stackTrace` */
  function StackTrace(e: TraceEvent): Option<seq<FrameInfo>> {
    Coalesce(DataOf(e).stackTrace, if e.args.beginData.Some? then e.args.beginData.value.stackTrace else None)
  }

  /** JavaScript truthiness of an optional string: present and not empty. */
  predicate TruthyString(s: Option<string>) {
    s.Some? && s.value != ""
  }

  /** JavaScript truthiness of an optional number: present and not zero. */
  predicate TruthyNumber(n: Option<int>) {
    n.Some? && n.value != 0
  }

  /** One entry of a play-by-play: a name, an attribution, a breakdown and the tasks it covers. */
  datatype PlayByPlayEntry = PlayByPlayEntry(
    name: string,
    attribution: Attribution,
    breakdown: Breakdown,
    taskIds: seq<int>)

  /** What the passes attach to a task. */
  datatype Meta = Meta(
    taskId: int,
    attribution: Attribution,
    context: Context,
    breakdown: Breakdown,
    breakdownsByAttribution: map<Attribution, Breakdown>,
    playByPlay: seq<PlayByPlayEntry>,
    filterMark: Option<bool>,
    attributionInfo: AttributionInfo)

  /** A main-thread task: its event, its task group, its timing, Lighthouse's URLs for it, its
      children in start order and its metadata. */
  datatype Task = Task(
    event: TraceEvent,
    groupId: string,
    duration: int,
    startTime: int,
    attributableURLs: seq<string>,
    children: seq<Task>,
    meta: Meta)

  /** A task with a new metadata record and everything else unchanged. */
  function WithMeta(t: Task, m: Meta): (r: Task)
    ensures r.event == t.event && r.children == t.children && r.meta == m
  {
    t.(meta := m)
  }

  /** Every task of a forest, each before its descendants, siblings in order. */
  function PreOrder(ts: seq<Task>): seq<Task>
    decreases ts
  {
    if ts == [] then [] else [ts[0]] + PreOrder(ts[0].children) + PreOrder(ts[1..])
  }

  lemma {:induction false} PreOrderAppend(a: seq<Task>, b: seq<Task>)
    ensures PreOrder(a + b) == PreOrder(a) + PreOrder(b)
    decreases a
  {
    if a == [] {
      assert a + b == b;
    } else {
      assert (a + b)[0] == a[0];
      assert (a + b)[1..] == a[1..] + b;
      PreOrderAppend(a[1..], b);
      calc {
        PreOrder(a + b);
        [a[0]] + PreOrder(a[0].children) + PreOrder(a[1..] + b);
        [a[0]] + PreOrder(a[0].children) + (PreOrder(a[1..]) + PreOrder(b));
        PreOrder(a) + PreOrder(b);
      }
    }
  }

  /** A task's events and nesting with the metadata stripped off. */
  datatype Shape = Shape(event: TraceEvent, attributableURLs: seq<string>, children: seq<Shape>)

  function Skeleton(ts: seq<Task>): (r: seq<Shape>)
    ensures |r| == |ts|
    decreases ts
  {
    if ts == [] then []
    else [Shape(ts[0].event, ts[0].attributableURLs, Skeleton(ts[0].children))] + Skeleton(ts[1..])
  }

  lemma {:induction false} SkeletonAppend(a: seq<Task>, b: seq<Task>)
    ensures Skeleton(a + b) == Skeleton(a) + Skeleton(b)
    decreases a
  {
    if a == [] {
      assert a + b == b;
    } else {
      assert (a + b)[0] == a[0];
      assert (a + b)[1..] == a[1..] + b;
      SkeletonAppend(a[1..], b);
    }
  }

  /** The trace the passes share: its top-level tasks and the metadata the passes attach. */
  class Trace {
    var tasks: seq<Task>
    var frameInfo: Option<map<string, FrameInfo>>
    var attributionMap: AttributionMap?

    constructor (tasks: seq<Task>)
      ensures this.tasks == tasks && frameInfo.None? && attributionMap == null
    {
      this.tasks := tasks;
      frameInfo := None;
      attributionMap := null;
    }
  }
}
