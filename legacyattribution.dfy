/** The older single-file attribution pass (src/analysis/attribution.ts): every task gets one
    `attributionInfo` record holding the kind and position together with Lighthouse's URLs and
    the triggers. gatherAttributions labels the tree top-down (lifting an only child's
    attribution to its parent); floodAttributions then re-applies each parent's attribution as
    the scope of its children and lets file attributions take the nearest source location among
    their siblings. */
module LegacyAttribution {
  import opened Wrappers
  import opened Strings
  import opened Frames
  import opened Attributions
  import opened AttributionInfos
  import opened Tasks
  import Assign
  import Propagate

  // The record and its two parts

  /** The kind and position of a record, as the newer passes store it. */
  function AttributionOf(info: AttributionInfo): Attribution {
    match info
    case UnknownInfo(_, _) => Unknown
    case FileInfo(url, _, _) => File(url)
    case SourceInfo(url, functionName, lineNumber, columnNumber, generated, sourceLine, _, _) =>
      SourceLocation(url, functionName, lineNumber, columnNumber, generated,
        if sourceLine.Some? then Some([sourceLine.value]) else None)
  }

  /** The URLs and triggers of a record, as the newer passes store them. */
  function ContextOf(info: AttributionInfo): Context {
    Context(false, false, info.lighthouseAttributableURLs, info.triggers)
  }

  /** `{kind: 'source', lighthouseAttributableURLs, triggers, ...frame}` */
  function SourceInfoFromFrame(f: FrameInfo, urls: seq<string>, triggers: seq<string>): AttributionInfo {
    SourceInfo(f.url, f.functionName, f.lineNumber, f.columnNumber, None, None, urls, triggers)
  }

  // extractAttribution, simplifyAttribution, propagateScopeAttribution

  /** extractAttribution: the first heuristic that applies, among stack trace, url with line and
      column, mapped frame id, url, `args.fileName` and a single Lighthouse URL; unknown
      otherwise. The record always carries the task's URLs and the given triggers. */
  function ExtractInfo(frameInfoMap: map<string, FrameInfo>, triggers: seq<string>, t: Task)
    : (r: AttributionInfo)
    ensures r.lighthouseAttributableURLs == t.attributableURLs && r.triggers == triggers
  {
    var e := t.event;
    var data := DataOf(e);
    var frame := FrameId(e);
    var stackTrace := StackTrace(e);
    var url := Assign.EventURL(e);
    var urls := t.attributableURLs;
    if stackTrace.Some? && |stackTrace.value| > 0 then SourceInfoFromFrame(stackTrace.value[0], urls, triggers)
    else if TruthyString(url) && data.lineNumber.Some? && data.columnNumber.Some? then
      SourceInfo(url.value, data.functionName, data.lineNumber.value, data.columnNumber.value, None, None,
        urls, triggers)
    else if TruthyString(frame) && frame.value in frameInfoMap then
      SourceInfoFromFrame(frameInfoMap[frame.value], urls, triggers)
    else if TruthyString(url) then FileInfo(url.value, urls, triggers)
    else if TruthyString(e.args.fileName) then FileInfo(e.args.fileName.value, urls, triggers)
    else if |urls| == 1 then FileInfo(urls[0], urls, triggers)
    else UnknownInfo(urls, triggers)
  }

  /** The older extraction applies the newer one's heuristics in the same order; it lacks only
      the last one (a single Lighthouse URL new to the scope), so the two agree whenever the
      older one finds something, and always at the top level, where the scope is empty. */
  lemma {:induction false} ExtractAgreesWithAssign(frameInfoMap: map<string, FrameInfo>, triggers: seq<string>,
                                scope: set<string>, t: Task)
    ensures var legacy := AttributionOf(ExtractInfo(frameInfoMap, triggers, t));
      var current := Assign.ExtractCandidate(frameInfoMap, scope, t);
      legacy == current || (legacy.Unknown? && current.File?)
    ensures scope == {} ==>
      AttributionOf(ExtractInfo(frameInfoMap, triggers, t)) == Assign.ExtractCandidate(frameInfoMap, scope, t)
  {
    var e := t.event;
    var url := Assign.EventURL(e);
    var frame := FrameId(e);
    var stackTrace := StackTrace(e);
    var legacy := AttributionOf(ExtractInfo(frameInfoMap, triggers, t));
    var current := Assign.ExtractCandidate(frameInfoMap, scope, t);
    if stackTrace.Some? && |stackTrace.value| > 0 {
      assert legacy == current;
    } else if TruthyString(url) && DataOf(e).lineNumber.Some? && DataOf(e).columnNumber.Some? {
      assert legacy == current;
    } else if TruthyString(frame) && frame.value in frameInfoMap {
      assert legacy == current;
    } else if TruthyString(url) || TruthyString(e.args.fileName) || |t.attributableURLs| == 1 {
      assert legacy == current;
    } else if scope == {} {
      NewURLsOfEmptyScope(t.attributableURLs);
    }
  }

  lemma {:induction false} NewURLsOfEmptyScope(urls: seq<string>)
    ensures Assign.NewURLs(urls, {}) == urls
  {
    if urls != [] {
      NewURLsOfEmptyScope(urls[1..]);
    }
  }

  predicate IsTrivialSourceInfo(info: AttributionInfo) {
    info.SourceInfo? && info.lineNumber == 1 && info.columnNumber == 1
  }

  /** simplifyAttribution: a source at line 1, column 1 becomes a file attribution for its url
      with the same URLs and triggers; anything else is returned as it is. */
  function SimplifyInfo(info: AttributionInfo): (r: AttributionInfo)
    ensures r.lighthouseAttributableURLs == info.lighthouseAttributableURLs && r.triggers == info.triggers
    ensures !IsTrivialSourceInfo(r)
    ensures !IsTrivialSourceInfo(info) ==> r == info
  {
    if IsTrivialSourceInfo(info) then
      FileInfo(info.url, info.lighthouseAttributableURLs, info.triggers)
    else info
  }

  /** The older simplification makes of the kind and position what the newer, interning one
      does. */
  lemma {:induction false} SimplifyAgreesWithAssign(table: Assign.Table, info: AttributionInfo)
    requires WellKeyed(table)
    ensures Assign.Simplify(table, AttributionOf(info)).value == AttributionOf(SimplifyInfo(info))
  {
    Assign.SimplifyResult(table, AttributionOf(info));
  }

  /** `{...scope, lighthouseAttributableURLs: task's, triggers: task's}` */
  function Adopt(scope: AttributionInfo, task: AttributionInfo): (r: AttributionInfo)
    ensures AttributionOf(r) == AttributionOf(scope)
    ensures r.lighthouseAttributableURLs == task.lighthouseAttributableURLs && r.triggers == task.triggers
  {
    scope.(lighthouseAttributableURLs := task.lighthouseAttributableURLs, triggers := task.triggers)
  }

  /** propagateScopeAttribution: a source is never replaced; a file is replaced only by a
      source in the same script; an unknown by any known scope. A replacement takes the scope's
      kind and position and keeps the task's URLs and triggers. */
  function PropagateScopeInfo(taskAttribution: AttributionInfo, scopeAttribution: Option<AttributionInfo>)
    : (r: AttributionInfo)
    ensures r.lighthouseAttributableURLs == taskAttribution.lighthouseAttributableURLs
    ensures r.triggers == taskAttribution.triggers
    ensures r == taskAttribution ||
      (scopeAttribution.Some? && r == Adopt(scopeAttribution.value, taskAttribution) &&
       Rank(AttributionOf(r)) > Rank(AttributionOf(taskAttribution)))
  {
    if scopeAttribution.None? then taskAttribution
    else
      var scope := scopeAttribution.value;
      match taskAttribution
      case SourceInfo(_, _, _, _, _, _, _, _) => taskAttribution
      case FileInfo(url, _, _) =>
        if !scope.SourceInfo? || url != scope.url then taskAttribution
        else Adopt(scope, taskAttribution)
      case UnknownInfo(_, _) =>
        if scope.UnknownInfo? then taskAttribution
        else Adopt(scope, taskAttribution)
  }

  /** When exactly the scope replaces the task's attribution. */
  lemma {:induction false} PropagateScopeInfoIff(a: AttributionInfo, scope: Option<AttributionInfo>)
    ensures PropagateScopeInfo(a, scope) != a <==>
      scope.Some? && AttributionOf(scope.value) != AttributionOf(a) &&
      ((a.FileInfo? && scope.value.SourceInfo? && scope.value.url == a.url) ||
       (a.UnknownInfo? && !scope.value.UnknownInfo?))
  {
  }

  /** On kinds and positions the older rule is the newer propagateAttribution. */
  lemma {:induction false} PropagateScopeAgreesWithPropagate(a: AttributionInfo, scope: Option<AttributionInfo>)
    ensures AttributionOf(PropagateScopeInfo(a, scope)) ==
      Propagate.PropagateAttribution(AttributionOf(a), if scope.Some? then Some(AttributionOf(scope.value)) else None)
  {
  }

  // gatherAttributions

  /** One task of gatherAttributions: extract and simplify with the enclosing trigger, take the
      scope's attribution if better, label the children with that result as their scope and
      their own trigger, then, for an only child, take the child's attribution if better. */
  function GatherOne(frameInfoMap: map<string, FrameInfo>, scopeTrigger: string, t: Task,
                     scopeAttribution: Option<AttributionInfo>): (r: Task)
    decreases t, 0
  {
    var taskAttribution := SimplifyInfo(ExtractInfo(frameInfoMap, [scopeTrigger], t));
    var finalAttribution := PropagateScopeInfo(taskAttribution, scopeAttribution);
    var children := Gather(frameInfoMap, Assign.PropagateTrigger(t.event, scopeTrigger), t.children,
      Some(finalAttribution));
    var info := if |t.children| == 1 then
        PropagateScopeInfo(finalAttribution, Some(children[0].meta.attributionInfo))
      else finalAttribution;
    t.(children := children, meta := t.meta.(attributionInfo := info))
  }

  /** gatherAttributions over a list of siblings. */
  function Gather(frameInfoMap: map<string, FrameInfo>, scopeTrigger: string, ts: seq<Task>,
                  scopeAttribution: Option<AttributionInfo>): (r: seq<Task>)
    ensures |r| == |ts|
    decreases ts, 1
  {
    if ts == [] then []
    else
      [GatherOne(frameInfoMap, scopeTrigger, ts[0], scopeAttribution)]
      + Gather(frameInfoMap, scopeTrigger, ts[1..], scopeAttribution)
  }

  lemma {:induction false} GatherAt(frameInfoMap: map<string, FrameInfo>, scopeTrigger: string,
                                    ts: seq<Task>, scope: Option<AttributionInfo>, i: nat)
    requires i < |ts|
    ensures Gather(frameInfoMap, scopeTrigger, ts, scope)[i] == GatherOne(frameInfoMap, scopeTrigger, ts[i], scope)
    decreases ts
  {
    if i > 0 {
      GatherAt(frameInfoMap, scopeTrigger, ts[1..], scope, i - 1);
    }
  }

  /** A task's attribution is the scope-propagated extraction, improved by its child only when
      it has exactly one; its URLs are the task's own and its one trigger the enclosing one. */
  lemma {:induction false} GatherOneFacts(frameInfoMap: map<string, FrameInfo>, scopeTrigger: string, t: Task,
                       scope: Option<AttributionInfo>)
    ensures var r := GatherOne(frameInfoMap, scopeTrigger, t, scope);
      var finalAttribution := PropagateScopeInfo(SimplifyInfo(ExtractInfo(frameInfoMap, [scopeTrigger], t)), scope);
      var info := r.meta.attributionInfo;
      (|t.children| != 1 ==> info == finalAttribution) &&
      (|t.children| == 1 ==>
        info == finalAttribution ||
        (AttributionOf(info) == AttributionOf(r.children[0].meta.attributionInfo) &&
         Rank(AttributionOf(info)) > Rank(AttributionOf(finalAttribution)))) &&
      info.lighthouseAttributableURLs == t.attributableURLs && info.triggers == [scopeTrigger]
  {
  }

  /** Every task below has the record of its own URLs and a single trigger, and no source at
      line 1, column 1. */
  ghost predicate Labelled(ts: seq<Task>)
    decreases ts
  {
    forall i :: 0 <= i < |ts| ==>
      ts[i].meta.attributionInfo.lighthouseAttributableURLs == ts[i].attributableURLs &&
      |ts[i].meta.attributionInfo.triggers| == 1 &&
      !IsTrivialSourceInfo(ts[i].meta.attributionInfo) &&
      Labelled(ts[i].children)
  }

  /** gatherAttributions labels every task of the forest, and a scope that is not a trivial
      source spreads none. It keeps the events and the nesting. */
  lemma {:induction false} GatherLabels(frameInfoMap: map<string, FrameInfo>, scopeTrigger: string,
                                        ts: seq<Task>, scope: Option<AttributionInfo>)
    requires scope.None? || !IsTrivialSourceInfo(scope.value)
    ensures Labelled(Gather(frameInfoMap, scopeTrigger, ts, scope))
    ensures Skeleton(Gather(frameInfoMap, scopeTrigger, ts, scope)) == Skeleton(ts)
    decreases ts, 1
  {
    var r := Gather(frameInfoMap, scopeTrigger, ts, scope);
    forall i | 0 <= i < |ts|
      ensures r[i].meta.attributionInfo.lighthouseAttributableURLs == r[i].attributableURLs
      ensures |r[i].meta.attributionInfo.triggers| == 1
      ensures !IsTrivialSourceInfo(r[i].meta.attributionInfo)
      ensures Labelled(r[i].children)
      ensures r[i].event == ts[i].event && r[i].attributableURLs == ts[i].attributableURLs
      ensures Skeleton(r[i].children) == Skeleton(ts[i].children)
    {
      GatherAt(frameInfoMap, scopeTrigger, ts, scope, i);
      GatherOneLabels(frameInfoMap, scopeTrigger, ts[i], scope);
    }
    SkeletonOfSameShape(r, ts);
  }

  /** One task: labelled, with labelled children, and the same event, URLs and nesting. */
  lemma {:induction false} GatherOneLabels(frameInfoMap: map<string, FrameInfo>, scopeTrigger: string,
                                           t: Task, scope: Option<AttributionInfo>)
    requires scope.None? || !IsTrivialSourceInfo(scope.value)
    ensures var u := GatherOne(frameInfoMap, scopeTrigger, t, scope);
      u.meta.attributionInfo.lighthouseAttributableURLs == u.attributableURLs &&
      |u.meta.attributionInfo.triggers| == 1 &&
      !IsTrivialSourceInfo(u.meta.attributionInfo) &&
      Labelled(u.children) &&
      u.event == t.event && u.attributableURLs == t.attributableURLs &&
      Skeleton(u.children) == Skeleton(t.children)
    decreases t, 0
  {
    var taskAttribution := SimplifyInfo(ExtractInfo(frameInfoMap, [scopeTrigger], t));
    var finalAttribution := PropagateScopeInfo(taskAttribution, scope);
    PropagateKeepsNonTrivial(taskAttribution, scope);
    var children := Gather(frameInfoMap, Assign.PropagateTrigger(t.event, scopeTrigger), t.children,
      Some(finalAttribution));
    GatherLabels(frameInfoMap, Assign.PropagateTrigger(t.event, scopeTrigger), t.children, Some(finalAttribution));
    if |t.children| == 1 {
      assert !IsTrivialSourceInfo(children[0].meta.attributionInfo);
      PropagateKeepsNonTrivial(finalAttribution, Some(children[0].meta.attributionInfo));
    }
  }

  /** Two forests whose tasks have the same events and URLs and whose children have the same
      skeletons have the same skeleton. */
  lemma {:induction false} SkeletonOfSameShape(a: seq<Task>, b: seq<Task>)
    requires |a| == |b|
    requires forall i :: 0 <= i < |a| ==>
      a[i].event == b[i].event && a[i].attributableURLs == b[i].attributableURLs &&
      Skeleton(a[i].children) == Skeleton(b[i].children)
    ensures Skeleton(a) == Skeleton(b)
  {
    if a != [] {
      SkeletonOfSameShape(a[1..], b[1..]);
    }
  }

  /** gatherAttributions */
  method GatherAttributions(frameInfoMap: map<string, FrameInfo>, scopeTrigger: string, tasks: seq<Task>,
                            scopeAttribution: Option<AttributionInfo>) returns (out: seq<Task>)
    ensures out == Gather(frameInfoMap, scopeTrigger, tasks, scopeAttribution)
    decreases tasks, 1
  {
    out := [];
    for i := 0 to |tasks|
      invariant Gather(frameInfoMap, scopeTrigger, tasks, scopeAttribution)
             == out + Gather(frameInfoMap, scopeTrigger, tasks[i..], scopeAttribution)
    {
      var task := GatherTaskAttribution(frameInfoMap, scopeTrigger, tasks[i], scopeAttribution);
      GatherStep(frameInfoMap, scopeTrigger, tasks, scopeAttribution, out, i);
      out := out + [task];
    }
  }

  lemma {:induction false} GatherStep(frameInfoMap: map<string, FrameInfo>, scopeTrigger: string, tasks: seq<Task>,
                   scope: Option<AttributionInfo>, done: seq<Task>, i: nat)
    requires i < |tasks|
    ensures done + Gather(frameInfoMap, scopeTrigger, tasks[i..], scope)
         == (done + [GatherOne(frameInfoMap, scopeTrigger, tasks[i], scope)])
            + Gather(frameInfoMap, scopeTrigger, tasks[i + 1..], scope)
  {
    assert tasks[i..][0] == tasks[i] && tasks[i..][1..] == tasks[i + 1..];
  }

  /** The body of gatherAttributions' loop for one task. */
  method GatherTaskAttribution(frameInfoMap: map<string, FrameInfo>, scopeTrigger: string, task: Task,
                               scopeAttribution: Option<AttributionInfo>) returns (out: Task)
    ensures out == GatherOne(frameInfoMap, scopeTrigger, task, scopeAttribution)
    decreases task, 0
  {
    var taskAttribution := SimplifyInfo(ExtractInfo(frameInfoMap, [scopeTrigger], task));
    var finalAttribution := PropagateScopeInfo(taskAttribution, scopeAttribution);
    var info := finalAttribution;
    var subtreeTrigger := Assign.PropagateTrigger(task.event, scopeTrigger);
    var children := GatherAttributions(frameInfoMap, subtreeTrigger, task.children, Some(finalAttribution));
    if |task.children| == 1 {
      info := PropagateScopeInfo(finalAttribution, Some(children[0].meta.attributionInfo));
    }
    out := task.(children := children, meta := task.meta.(attributionInfo := info));
  }

  // floodAttributions

  /** The records of a list of tasks, in order. */
  function InfosOf(ts: seq<Task>): (r: seq<AttributionInfo>)
    ensures |r| == |ts| && forall i :: 0 <= i < |ts| ==> r[i] == ts[i].meta.attributionInfo
  {
    seq(|ts|, i requires 0 <= i < |ts| => ts[i].meta.attributionInfo)
  }

  /** The first loop of floodAttributions: every record with the scope propagated into it. */
  function Rescope(infos: seq<AttributionInfo>, scope: Option<AttributionInfo>): (r: seq<AttributionInfo>)
    ensures |r| == |infos| && forall i :: 0 <= i < |infos| ==> r[i] == PropagateScopeInfo(infos[i], scope)
  {
    seq(|infos|, i requires 0 <= i < |infos| => PropagateScopeInfo(infos[i], scope))
  }

  /** The index of the first source among the records, if any. */
  function FirstSourceIndex(infos: seq<AttributionInfo>): (r: Option<nat>)
    ensures r.Some? ==> r.value < |infos| && infos[r.value].SourceInfo?
    ensures r.Some? ==> forall k :: 0 <= k < r.value ==> !infos[k].SourceInfo?
    ensures r.None? ==> forall k :: 0 <= k < |infos| ==> !infos[k].SourceInfo?
  {
    if infos == [] then None
    else if infos[0].SourceInfo? then Some(0)
    else
      var r := FirstSourceIndex(infos[1..]);
      assert forall k :: 1 <= k < |infos| ==> infos[k] == infos[1..][k - 1];
      if r.Some? then Some(r.value + 1) else None
  }

  /** The index of the last source among the records, if any. */
  function LastSourceIndex(infos: seq<AttributionInfo>): (r: Option<nat>)
    ensures r.Some? ==> r.value < |infos| && infos[r.value].SourceInfo?
    ensures r.Some? ==> forall k :: r.value < k < |infos| ==> !infos[k].SourceInfo?
    ensures r.None? ==> forall k :: 0 <= k < |infos| ==> !infos[k].SourceInfo?
  {
    if infos == [] then None
    else if infos[|infos| - 1].SourceInfo? then Some(|infos| - 1)
    else LastSourceIndex(infos[..|infos| - 1])
  }

  /** The second loop of floodAttributions: the first source among the records. */
  function FirstSourceInfo(infos: seq<AttributionInfo>): Option<AttributionInfo> {
    var j := FirstSourceIndex(infos);
    if j.Some? then Some(infos[j.value]) else None
  }

  /** `lastSourceAttrInfo` after the walk has visited `done`, having started from `first`. */
  function Latest(done: seq<AttributionInfo>, first: Option<AttributionInfo>): Option<AttributionInfo> {
    var j := LastSourceIndex(done);
    if j.Some? then Some(done[j.value]) else first
  }

  /** What the third loop of floodAttributions makes of one record: a file takes the latest
      source when there is one; sources and unknowns are left alone. */
  function WalkStep(info: AttributionInfo, last: Option<AttributionInfo>): AttributionInfo {
    if info.SourceInfo? then info
    else if last.Some? && info.FileInfo? then PropagateScopeInfo(info, last)
    else info
  }

  /** The third loop of floodAttributions over the records, starting from `first`. */
  function Walk(infos: seq<AttributionInfo>, first: Option<AttributionInfo>): (r: seq<AttributionInfo>)
    ensures |r| == |infos|
  {
    if infos == [] then []
    else
      var prefix := infos[..|infos| - 1];
      Walk(prefix, first) + [WalkStep(infos[|infos| - 1], Latest(prefix, first))]
  }

  /** The new records of one level of floodAttributions. */
  function Level(ts: seq<Task>, scope: Option<AttributionInfo>): (r: seq<AttributionInfo>)
    ensures |r| == |ts|
  {
    var rescoped := Rescope(InfosOf(ts), scope);
    Walk(rescoped, FirstSourceInfo(rescoped))
  }

  /** The last loop of floodAttributions: each task with its new record and its children
      flooded with that record as their scope. */
  function FloodChildren(ts: seq<Task>, infos: seq<AttributionInfo>): (r: seq<Task>)
    requires |infos| == |ts|
    ensures |r| == |ts|
    decreases ts, 0
  {
    if ts == [] then [] else [FloodOne(ts[0], infos[0])] + FloodChildren(ts[1..], infos[1..])
  }

  /** One task of that loop: its new record, and its children flooded with it as their scope. */
  function FloodOne(t: Task, info: AttributionInfo): Task
    decreases t, 0
  {
    t.(children := Flood(t.children, Some(info)), meta := t.meta.(attributionInfo := info))
  }

  /** floodAttributions */
  function Flood(ts: seq<Task>, scope: Option<AttributionInfo>): (r: seq<Task>)
    ensures |r| == |ts|
    decreases ts, 1
  {
    FloodChildren(ts, Level(ts, scope))
  }

  lemma {:induction false} WalkAt(infos: seq<AttributionInfo>, first: Option<AttributionInfo>, i: nat)
    requires i < |infos|
    ensures Walk(infos, first)[i] == WalkStep(infos[i], Latest(infos[..i], first))
  {
    var prefix := infos[..|infos| - 1];
    if i < |infos| - 1 {
      WalkAt(prefix, first, i);
      assert prefix[..i] == infos[..i];
    }
  }

  /** The sibling walk of floodAttributions: after the scope has been propagated into every
      record, a file takes the nearest source before it, or the first source of the level
      when none precedes it, if that source is in its script; every other record stays. */
  lemma {:induction false} FloodLevelAt(ts: seq<Task>, scope: Option<AttributionInfo>, i: nat)
    requires i < |ts|
    ensures var rescoped := Rescope(InfosOf(ts), scope);
      var before := LastSourceIndex(rescoped[..i]);
      var first := FirstSourceIndex(rescoped);
      var nearest := if before.Some? then before else first;
      Level(ts, scope)[i] ==
        if rescoped[i].FileInfo? && nearest.Some? then PropagateScopeInfo(rescoped[i], Some(rescoped[nearest.value]))
        else rescoped[i]
  {
    var rescoped := Rescope(InfosOf(ts), scope);
    WalkAt(rescoped, FirstSourceInfo(rescoped), i);
    var before := LastSourceIndex(rescoped[..i]);
    if before.Some? {
      assert rescoped[..i][before.value] == rescoped[before.value];
    }
  }

  lemma {:induction false} FloodChildrenAt(ts: seq<Task>, infos: seq<AttributionInfo>, i: nat)
    requires |infos| == |ts| && i < |ts|
    ensures FloodChildren(ts, infos)[i] == FloodOne(ts[i], infos[i])
  {
    if i > 0 {
      FloodChildrenAt(ts[1..], infos[1..], i - 1);
    }
  }

  /** Every task's record is its old one or a strictly more specific one with the same URLs and
      triggers; nothing else about the tasks differs. */
  ghost predicate Refines(a: seq<Task>, b: seq<Task>)
    decreases a
  {
    |a| == |b| &&
    forall i :: 0 <= i < |a| ==>
      var x := a[i].meta.attributionInfo;
      var y := b[i].meta.attributionInfo;
      (y == x || Rank(AttributionOf(y)) > Rank(AttributionOf(x))) &&
      y.lighthouseAttributableURLs == x.lighthouseAttributableURLs && y.triggers == x.triggers &&
      b[i] == a[i].(children := b[i].children, meta := a[i].meta.(attributionInfo := y)) &&
      Refines(a[i].children, b[i].children)
  }

  /** No record of the forest is a source at line 1, column 1. */
  ghost predicate NoTrivialSources(ts: seq<Task>)
    decreases ts
  {
    forall i :: 0 <= i < |ts| ==>
      !IsTrivialSourceInfo(ts[i].meta.attributionInfo) && NoTrivialSources(ts[i].children)
  }

  /** One level's new record refines the old one and brings in no trivial source. */
  lemma {:induction false} LevelRefines(ts: seq<Task>, scope: Option<AttributionInfo>, i: nat)
    requires i < |ts|
    requires scope.None? || !IsTrivialSourceInfo(scope.value)
    requires !IsTrivialSourceInfo(ts[i].meta.attributionInfo)
    requires forall k :: 0 <= k < |ts| ==> !IsTrivialSourceInfo(ts[k].meta.attributionInfo)
    ensures var x := ts[i].meta.attributionInfo;
      var y := Level(ts, scope)[i];
      (y == x || Rank(AttributionOf(y)) > Rank(AttributionOf(x))) &&
      y.lighthouseAttributableURLs == x.lighthouseAttributableURLs && y.triggers == x.triggers &&
      !IsTrivialSourceInfo(y)
  {
    FloodLevelAt(ts, scope, i);
    var rescoped := Rescope(InfosOf(ts), scope);
    var before := LastSourceIndex(rescoped[..i]);
    var first := FirstSourceIndex(rescoped);
    var nearest := if before.Some? then before else first;
    PropagateKeepsNonTrivial(ts[i].meta.attributionInfo, scope);
    if rescoped[i].FileInfo? && nearest.Some? {
      var n := nearest.value;
      PropagateKeepsNonTrivial(ts[n].meta.attributionInfo, scope);
      PropagateKeepsNonTrivial(rescoped[i], Some(rescoped[n]));
    }
  }

  /** Propagating a scope that is not a trivial source into a record that is not one gives a
      record that is not one. */
  lemma {:induction false} PropagateKeepsNonTrivial(info: AttributionInfo, scope: Option<AttributionInfo>)
    requires !IsTrivialSourceInfo(info)
    requires scope.None? || !IsTrivialSourceInfo(scope.value)
    ensures !IsTrivialSourceInfo(PropagateScopeInfo(info, scope))
  {
  }

  /** floodAttributions only makes records more specific, keeps their URLs and triggers and
      everything else about the tasks, and spreads no trivial source. */
  lemma {:induction false} FloodRefines(ts: seq<Task>, scope: Option<AttributionInfo>)
    requires scope.None? || !IsTrivialSourceInfo(scope.value)
    requires NoTrivialSources(ts)
    ensures Refines(ts, Flood(ts, scope))
    ensures NoTrivialSources(Flood(ts, scope))
    decreases ts, 1
  {
    var infos := Level(ts, scope);
    var r := Flood(ts, scope);
    forall i | 0 <= i < |ts|
      ensures var x := ts[i].meta.attributionInfo;
        var y := r[i].meta.attributionInfo;
        (y == x || Rank(AttributionOf(y)) > Rank(AttributionOf(x))) &&
        y.lighthouseAttributableURLs == x.lighthouseAttributableURLs && y.triggers == x.triggers &&
        r[i] == ts[i].(children := r[i].children, meta := ts[i].meta.(attributionInfo := y)) &&
        Refines(ts[i].children, r[i].children)
      ensures !IsTrivialSourceInfo(r[i].meta.attributionInfo) && NoTrivialSources(r[i].children)
    {
      FloodChildrenAt(ts, infos, i);
      LevelRefines(ts, scope, i);
      FloodRefines(ts[i].children, Some(infos[i]));
    }
  }

  /** floodAttributions */
  method FloodAttributions(tasks: seq<Task>, scopeAttribution: Option<AttributionInfo>) returns (out: seq<Task>)
    ensures out == Flood(tasks, scopeAttribution)
    decreases tasks, 2
  {
    var infos := RescopeAll(tasks, scopeAttribution);
    var lastSourceAttrInfo := LocateFirstSourceInfo(infos);
    var walked := WalkLevel(infos, lastSourceAttrInfo);
    out := FloodChildrenOf(tasks, walked);
  }

  /** The first loop of floodAttributions. */
  method RescopeAll(tasks: seq<Task>, scopeAttribution: Option<AttributionInfo>) returns (infos: seq<AttributionInfo>)
    ensures infos == Rescope(InfosOf(tasks), scopeAttribution)
  {
    infos := [];
    for i := 0 to |tasks|
      invariant |infos| == i
      invariant forall k :: 0 <= k < i ==> infos[k] == PropagateScopeInfo(tasks[k].meta.attributionInfo, scopeAttribution)
    {
      var updatedInfo := PropagateScopeInfo(tasks[i].meta.attributionInfo, scopeAttribution);
      infos := infos + [updatedInfo];
    }
  }

  /** The second loop of floodAttributions, which stops at the first source. */
  method LocateFirstSourceInfo(infos: seq<AttributionInfo>) returns (lastSourceAttrInfo: Option<AttributionInfo>)
    ensures lastSourceAttrInfo == FirstSourceInfo(infos)
  {
    lastSourceAttrInfo := None;
    var k := 0;
    while k < |infos|
      invariant 0 <= k <= |infos|
      invariant forall j :: 0 <= j < k ==> !infos[j].SourceInfo?
      invariant lastSourceAttrInfo.None?
    {
      if infos[k].SourceInfo? {
        lastSourceAttrInfo := Some(infos[k]);
        return;
      }
      k := k + 1;
    }
  }

  /** The third loop of floodAttributions: sources become the latest source, files may take it. */
  method WalkLevel(infos: seq<AttributionInfo>, firstSource: Option<AttributionInfo>) returns (walked: seq<AttributionInfo>)
    ensures walked == Walk(infos, firstSource)
  {
    var lastSourceAttrInfo := firstSource;
    walked := [];
    for i := 0 to |infos|
      invariant walked == Walk(infos[..i], firstSource)
      invariant lastSourceAttrInfo == Latest(infos[..i], firstSource)
    {
      assert infos[..i + 1][..i] == infos[..i] && infos[..i + 1][i] == infos[i];
      var attrInfo := infos[i];
      if attrInfo.SourceInfo? {
        lastSourceAttrInfo := Some(attrInfo);
        walked := walked + [attrInfo];
        continue;
      }
      if lastSourceAttrInfo.Some? && attrInfo.FileInfo? {
        var updatedInfo := PropagateScopeInfo(attrInfo, lastSourceAttrInfo);
        attrInfo := updatedInfo;
      }
      walked := walked + [attrInfo];
    }
    assert infos[..|infos|] == infos;
  }

  /** The last loop of floodAttributions. */
  method FloodChildrenOf(tasks: seq<Task>, infos: seq<AttributionInfo>) returns (out: seq<Task>)
    requires |infos| == |tasks|
    ensures out == FloodChildren(tasks, infos)
    decreases tasks, 1
  {
    out := [];
    for i := 0 to |tasks|
      invariant FloodChildren(tasks, infos) == out + FloodChildren(tasks[i..], infos[i..])
    {
      var children := FloodAttributions(tasks[i].children, Some(infos[i]));
      var task := tasks[i].(children := children, meta := tasks[i].meta.(attributionInfo := infos[i]));
      FloodChildrenStep(tasks, infos, out, i);
      out := out + [task];
    }
  }

  lemma {:induction false} FloodChildrenStep(tasks: seq<Task>, infos: seq<AttributionInfo>, done: seq<Task>, i: nat)
    requires |infos| == |tasks| && i < |tasks|
    ensures done + FloodChildren(tasks[i..], infos[i..]) ==
      (done + [FloodOne(tasks[i], infos[i])])
      + FloodChildren(tasks[i + 1..], infos[i + 1..])
  {
    assert tasks[i..][0] == tasks[i] && tasks[i..][1..] == tasks[i + 1..];
    assert infos[i..][0] == infos[i] && infos[i..][1..] == infos[i + 1..];
  }

  // refineAttributions and isAttributedTo

  /** What refineAttributions makes of a forest. */
  function Refine(frameInfoMap: map<string, FrameInfo>, ts: seq<Task>): seq<Task> {
    Flood(Gather(frameInfoMap, "RunTask", ts, None), None)
  }

  /** After refineAttributions every task carries its own URLs, a single trigger and no source
      at line 1, column 1, and the events and nesting are those of the input. */
  lemma {:induction false} RefineLabels(frameInfoMap: map<string, FrameInfo>, ts: seq<Task>)
    ensures Refines(Gather(frameInfoMap, "RunTask", ts, None), Refine(frameInfoMap, ts))
    ensures Labelled(Refine(frameInfoMap, ts))
    ensures Skeleton(Refine(frameInfoMap, ts)) == Skeleton(ts)
  {
    var g := Gather(frameInfoMap, "RunTask", ts, None);
    GatherLabels(frameInfoMap, "RunTask", ts, None);
    LabelledHasNoTrivialSources(g);
    FloodRefines(g, None);
    RefinesKeepsLabels(g, Refine(frameInfoMap, ts));
  }

  lemma {:induction false} LabelledHasNoTrivialSources(ts: seq<Task>)
    requires Labelled(ts)
    ensures NoTrivialSources(ts)
    decreases ts
  {
    forall i | 0 <= i < |ts|
      ensures NoTrivialSources(ts[i].children)
    {
      LabelledHasNoTrivialSources(ts[i].children);
    }
  }

  /** A refinement without trivial sources of a labelled forest is labelled and has its
      skeleton. */
  lemma {:induction false} RefinesKeepsLabels(a: seq<Task>, b: seq<Task>)
    requires Labelled(a) && Refines(a, b) && NoTrivialSources(b)
    ensures Labelled(b) && Skeleton(b) == Skeleton(a)
    decreases a
  {
    forall i | 0 <= i < |a|
      ensures Labelled(b[i].children) && Skeleton(b[i].children) == Skeleton(a[i].children)
    {
      RefinesKeepsLabels(a[i].children, b[i].children);
    }
    SkeletonOfSameShape(b, a);
  }

  /** refineAttributions: label from trigger 'RunTask' with no scope, then flood. */
  method RefineAttributions(trace: Trace)
    requires trace.frameInfo.Some?
    modifies trace
    ensures trace.tasks == Refine(old(trace.frameInfo).value, old(trace.tasks))
    ensures trace.frameInfo == old(trace.frameInfo) && trace.attributionMap == old(trace.attributionMap)
  {
    var gathered := GatherAttributions(trace.frameInfo.value, "RunTask", trace.tasks, None);
    var flooded := FloodAttributions(gathered, None);
    trace.tasks := flooded;
  }

  /** The older isAttributedTo: a source's url or truthy generated url, a file's url, or any of
      the record's Lighthouse URLs contains the pattern. */
  function LegacyIsAttributedTo(scriptUrlPattern: string, info: AttributionInfo): bool {
    if info.SourceInfo? && Contains(info.url, scriptUrlPattern) then true
    else if info.SourceInfo? && info.generated.Some? && info.generated.value.url != ""
      && Contains(info.generated.value.url, scriptUrlPattern) then true
    else if info.FileInfo? && Contains(info.url, scriptUrlPattern) then true
    else SomeContains(info.lighthouseAttributableURLs, scriptUrlPattern)
  }

  /** The older matcher is the newer one without a line number: the only difference, the
      truthiness test on the generated url, matters only for the empty pattern, which every
      source url already contains. */
  lemma {:induction false} LegacyIsAttributedToAgrees(scriptUrlPattern: string, info: AttributionInfo)
    ensures LegacyIsAttributedTo(scriptUrlPattern, info) ==
      IsAttributedTo(AttributionOf(info), ContextOf(info), scriptUrlPattern, None)
    ensures LegacyIsAttributedTo(scriptUrlPattern, info) <==>
      ((info.SourceInfo? || info.FileInfo?) && Contains(info.url, scriptUrlPattern)) ||
      (info.SourceInfo? && info.generated.Some? && Contains(info.generated.value.url, scriptUrlPattern)) ||
      (exists i :: 0 <= i < |info.lighthouseAttributableURLs|
                   && Contains(info.lighthouseAttributableURLs[i], scriptUrlPattern))
  {
    if info.SourceInfo? && info.generated.Some? && info.generated.value.url == ""
       && Contains(info.generated.value.url, scriptUrlPattern) {
      assert scriptUrlPattern == [] by {
        EmptyContains(scriptUrlPattern);
      }
      assert IsPrefix(scriptUrlPattern, info.url);
    }
  }

  /** Only the empty pattern occurs in the empty string. */
  lemma {:induction false} EmptyContains(pattern: string)
    requires Contains("", pattern)
    ensures pattern == ""
  {
  }
}
