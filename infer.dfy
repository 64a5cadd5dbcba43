/** The attribution meta-pass (src/analysis/inferAttributions.ts): after assignment, propagate
    attributions, re-infer frame locations and upgrade tasks whose frame id is now mapped,
    until an upgrade round changes nothing; then mark the attribution roots. */
module Infer {
  import opened Wrappers
  import opened Frames
  import opened Attributions
  import opened Tasks
  import opened FrameInference
  import opened Assign
  import opened Propagate
  import opened AttributionRoots

  /** A frame at line 1, column 1 only says which script ran. */
  predicate AtScriptStart(f: FrameInfo) {
    f.lineNumber == 1 && f.columnNumber == 1
  }

  /** propagateAttributionFromFrameInfo */
  function FromFrameInfo(table: Table, taskAttribution: Attribution, frameInfo: FrameInfo): (r: Interned)
    ensures Extends(table, r.table)
  {
    if taskAttribution.SourceLocation? then Interned(table, taskAttribution)
    else if AtScriptStart(frameInfo) then
      if !taskAttribution.Unknown? then Interned(table, taskAttribution)
      else Intern(table, File(frameInfo.url))
    else Intern(table, SourceFromFrame(frameInfo))
  }

  /** A source location is kept; a frame at (1,1) turns only an unknown into the file of the
      frame's script; any other frame turns a file or an unknown into the stored source
      location of the frame, whatever the task's url was. The rank never falls. */
  lemma {:induction false} FromFrameInfoResult(table: Table, a: Attribution, f: FrameInfo)
    requires WellKeyed(table)
    ensures var r := FromFrameInfo(table, a, f);
      WellKeyed(r.table) && (r.value != a ==> InTable(r.table, r.value)) &&
      (a.SourceLocation? ==> r.value == a) &&
      (!a.SourceLocation? && AtScriptStart(f) ==> r.value == if a.Unknown? then File(f.url) else a) &&
      (!a.SourceLocation? && !AtScriptStart(f) ==> KeyOf(r.value) == KeyOf(SourceFromFrame(f))) &&
      Better(a, r.value) &&
      (r.value != a <==> a.Unknown? || (a.File? && !AtScriptStart(f)))
  {
    if !a.SourceLocation? {
      if AtScriptStart(f) {
        if a.Unknown? {
          InternWellKeyed(table, File(f.url));
        }
      } else {
        InternWellKeyed(table, SourceFromFrame(f));
      }
    }
  }

  /** The mapped frame of an event: `data.frame ?? args.frame`, when truthy and mapped. */
  function MappedFrame(frameInfoMap: FrameMap, e: TraceEvent): (r: Option<FrameInfo>)
    ensures r.Some? <==> TruthyString(FrameId(e)) && FrameId(e).value in frameInfoMap
  {
    var frame := FrameId(e);
    if TruthyString(frame) && frame.value in frameInfoMap then Some(frameInfoMap[frame.value]) else None
  }

  /** One task's attribution after updateFrameAttributions. */
  function UpdateAttribution(table: Table, frameInfoMap: FrameMap, t: Task): (r: Interned)
    ensures Extends(table, r.table)
    ensures r.value != t.meta.attribution ==>
      !t.meta.attribution.SourceLocation? && MappedFrame(frameInfoMap, t.event).Some?
  {
    var a := t.meta.attribution;
    var f := MappedFrame(frameInfoMap, t.event);
    if !a.SourceLocation? && f.Some? then FromFrameInfo(table, a, f.value) else Interned(table, a)
  }

  datatype Updated = Updated(table: Table, changed: bool, tasks: seq<Task>)

  function UpdateOne(table: Table, frameInfoMap: FrameMap, t: Task): (r: Updated)
    ensures |r.tasks| == 1 && Extends(table, r.table)
    decreases t, 0
  {
    var step := UpdateAttribution(table, frameInfoMap, t);
    var sub := Update(step.table, frameInfoMap, t.children);
    Updated(sub.table, step.value != t.meta.attribution || sub.changed,
            [t.(children := sub.tasks, meta := t.meta.(attribution := step.value))])
  }

  /** updateFrameAttributions over a task list and all its descendants. */
  function Update(table: Table, frameInfoMap: FrameMap, ts: seq<Task>): (r: Updated)
    ensures |r.tasks| == |ts| && Extends(table, r.table)
    decreases ts, 1
  {
    if ts == [] then Updated(table, false, [])
    else
      var first := UpdateOne(table, frameInfoMap, ts[0]);
      var rest := Update(first.table, frameInfoMap, ts[1..]);
      Updated(rest.table, first.changed || rest.changed, first.tasks + rest.tasks)
  }

  function ThenUpdated(changed: bool, done: seq<Task>, rest: Updated): Updated {
    Updated(rest.table, changed || rest.changed, done + rest.tasks)
  }

  /** Nothing left for updateFrameAttributions to do at this task: with a mapped frame, it is a
      source location, or at least a file when the frame is at (1,1). */
  predicate SettledAttribution(frameInfoMap: FrameMap, e: TraceEvent, a: Attribution) {
    var f := MappedFrame(frameInfoMap, e);
    f.Some? ==> if AtScriptStart(f.value) then !a.Unknown? else a.SourceLocation?
  }

  ghost predicate Settled(frameInfoMap: FrameMap, ts: seq<Task>)
    decreases ts
  {
    ts != [] ==>
      SettledAttribution(frameInfoMap, ts[0].event, ts[0].meta.attribution) &&
      Settled(frameInfoMap, ts[0].children) && Settled(frameInfoMap, ts[1..])
  }

  lemma {:induction false} UpdateOneFacts(table: Table, frameInfoMap: FrameMap, t: Task)
    requires WellKeyed(table)
    ensures var r := UpdateOne(table, frameInfoMap, t);
      WellKeyed(r.table) && Improves([t], r.tasks) && Settled(frameInfoMap, r.tasks) &&
      (r.changed <==> r.tasks != [t])
    decreases t, 0
  {
    UpdateAttributionFacts(table, frameInfoMap, t);
    var step := UpdateAttribution(table, frameInfoMap, t);
    UpdateFacts(step.table, frameInfoMap, t.children);
    var u := UpdateOne(table, frameInfoMap, t).tasks[0];
    SingletonFacts(frameInfoMap, t, u);
  }

  /** The attribution updateFrameAttributions gives one task is at least as specific as the
      old one and leaves nothing more to do at that task. */
  lemma {:induction false} UpdateAttributionFacts(table: Table, frameInfoMap: FrameMap, t: Task)
    requires WellKeyed(table)
    ensures var r := UpdateAttribution(table, frameInfoMap, t);
      WellKeyed(r.table) && Better(t.meta.attribution, r.value) &&
      SettledAttribution(frameInfoMap, t.event, r.value)
  {
    var a := t.meta.attribution;
    var f := MappedFrame(frameInfoMap, t.event);
    if !a.SourceLocation? && f.Some? {
      FromFrameInfoResult(table, a, f.value);
    }
  }

  /** A one-task list improved at its task and below. */
  lemma {:induction false} SingletonFacts(frameInfoMap: FrameMap, t: Task, u: Task)
    requires Better(t.meta.attribution, u.meta.attribution)
    requires SettledAttribution(frameInfoMap, u.event, u.meta.attribution)
    requires u == t.(children := u.children, meta := t.meta.(attribution := u.meta.attribution))
    requires Improves(t.children, u.children) && Settled(frameInfoMap, u.children)
    ensures Improves([t], [u]) && Settled(frameInfoMap, [u])
    ensures [u] != [t] <==> u.meta.attribution != t.meta.attribution || u.children != t.children
  {
    assert [t][1..] == [] && [u][1..] == [];
    ImprovesReflexive([]);
  }

  /** updateFrameAttributions only raises attributions, leaves every task settled, and
      returns true exactly when some attribution changed. */
  lemma {:induction false} UpdateFacts(table: Table, frameInfoMap: FrameMap, ts: seq<Task>)
    requires WellKeyed(table)
    ensures var r := Update(table, frameInfoMap, ts);
      WellKeyed(r.table) && Improves(ts, r.tasks) && Settled(frameInfoMap, r.tasks) &&
      (r.changed <==> r.tasks != ts)
    decreases ts, 1
  {
    if ts != [] {
      var first := UpdateOne(table, frameInfoMap, ts[0]);
      UpdateOneFacts(table, frameInfoMap, ts[0]);
      var rest := Update(first.table, frameInfoMap, ts[1..]);
      UpdateFacts(first.table, frameInfoMap, ts[1..]);
      ImprovesCons(ts, first.tasks, rest.tasks);
      SettledCons(frameInfoMap, first.tasks, rest.tasks);
    }
  }

  lemma SettledCons(frameInfoMap: FrameMap, first: seq<Task>, rest: seq<Task>)
    requires |first| == 1 && Settled(frameInfoMap, first) && Settled(frameInfoMap, rest)
    ensures Settled(frameInfoMap, first + rest)
  {
    assert (first + rest)[0] == first[0] && (first + rest)[1..] == rest;
  }

  lemma {:induction false} SettledOneUnchanged(table: Table, frameInfoMap: FrameMap, t: Task)
    requires Settled(frameInfoMap, [t])
    ensures UpdateOne(table, frameInfoMap, t).tasks == [t] && !UpdateOne(table, frameInfoMap, t).changed
    decreases t, 0
  {
    var step := UpdateAttribution(table, frameInfoMap, t);
    assert step.value == t.meta.attribution;
    SettledUnchanged(step.table, frameInfoMap, t.children);
  }

  /** On a settled forest updateFrameAttributions changes nothing and returns false. */
  lemma {:induction false} SettledUnchanged(table: Table, frameInfoMap: FrameMap, ts: seq<Task>)
    requires Settled(frameInfoMap, ts)
    ensures Update(table, frameInfoMap, ts).tasks == ts && !Update(table, frameInfoMap, ts).changed
    decreases ts, 1
  {
    if ts != [] {
      assert Settled(frameInfoMap, [ts[0]]) by {
        assert [ts[0]][1..] == [];
      }
      SettledOneUnchanged(table, frameInfoMap, ts[0]);
      var first := UpdateOne(table, frameInfoMap, ts[0]);
      SettledUnchanged(first.table, frameInfoMap, ts[1..]);
      assert ts == [ts[0]] + ts[1..];
    }
  }

  /** Raising attributions keeps a forest settled. */
  lemma {:induction false} SettledImproves(frameInfoMap: FrameMap, a: seq<Task>, b: seq<Task>)
    requires Settled(frameInfoMap, a) && Improves(a, b)
    ensures Settled(frameInfoMap, b)
    decreases a
  {
    if a != [] {
      SettledImproves(frameInfoMap, a[0].children, b[0].children);
      SettledImproves(frameInfoMap, a[1..], b[1..]);
    }
  }

  /** Raising attributions leaves the events and the nesting as they were. */
  lemma {:induction false} ImprovesSkeleton(a: seq<Task>, b: seq<Task>)
    requires Improves(a, b)
    ensures Skeleton(a) == Skeleton(b)
    decreases a
  {
    if a != [] {
      ImprovesSkeleton(a[0].children, b[0].children);
      ImprovesSkeleton(a[1..], b[1..]);
    }
  }

  /** The state the meta-pass threads: the forest, trace.metadata.frameInfo and the
      attribution table. */
  datatype InferState = InferState(tasks: seq<Task>, frameInfo: FrameMap, table: Table)

  /** propagateAndInferAttributions with `fuel` rounds left. */
  function PropagateAndInfer(s: InferState, fuel: nat): InferState
    decreases fuel
  {
    if fuel == 0 then s
    else
      var tasks := Iterate(s.tasks, IterationLimit);
      var frameInfo := GatherFrames(s.frameInfo, tasks);
      var u := Update(s.table, frameInfo, tasks);
      var next := InferState(u.tasks, frameInfo, u.table);
      if !u.changed then next else PropagateAndInfer(next, fuel - 1)
  }

  /** One round of propagateAndInferAttributions, as the loop takes it. */
  lemma {:induction false} RoundStep(s: InferState, next: InferState, changed: bool, fuel: nat)
    requires fuel > 0
    requires var tasks := Iterate(s.tasks, IterationLimit);
      var frameInfo := GatherFrames(s.frameInfo, tasks);
      Updated(next.table, changed, next.tasks) == Update(s.table, frameInfo, tasks) &&
      next.frameInfo == frameInfo
    ensures PropagateAndInfer(s, fuel) == if changed then PropagateAndInfer(next, fuel - 1) else next
  {
  }

  /** Rounds after the first find the frame map as the first left it, and the first round's
      update settled every task; propagation only raises attributions, so the second round's
      update changes nothing. The loop therefore never needs more than two rounds, and its cap
      of ten is never reached. */
  lemma {:induction false} LoopEndsWithinTwoRounds(s: InferState, fuel: nat)
    requires WellKeyed(s.table) && fuel >= 2
    ensures PropagateAndInfer(s, fuel) == PropagateAndInfer(s, 2)
  {
    var t1 := Iterate(s.tasks, IterationLimit);
    var m1 := GatherFrames(s.frameInfo, t1);
    var u1 := Update(s.table, m1, t1);
    if u1.changed {
      UpdateFacts(s.table, m1, t1);
      var t2 := Iterate(u1.tasks, IterationLimit);
      IterateImproves(u1.tasks, IterationLimit);
      ImprovesSkeleton(t1, u1.tasks);
      ImprovesSkeleton(u1.tasks, t2);
      WalkDependsOnEvents(CurrentEntry, m1, t2, t1);
      InferTwiceIsOnce(s.frameInfo, t1);
      assert GatherFrames(m1, t2) == m1;
      SettledImproves(m1, u1.tasks, t2);
      SettledUnchanged(u1.table, m1, t2);
    }
  }

  /** When the loop stops, every task with a mapped frame is a source location, or at least a
      file when the frame is at (1,1). */
  lemma {:induction false} LoopSettles(s: InferState, fuel: nat)
    requires WellKeyed(s.table) && fuel >= 2
    ensures Settled(PropagateAndInfer(s, fuel).frameInfo, PropagateAndInfer(s, fuel).tasks)
    ensures WellKeyed(PropagateAndInfer(s, fuel).table)
  {
    LoopEndsWithinTwoRounds(s, fuel);
    var t1 := Iterate(s.tasks, IterationLimit);
    var m1 := GatherFrames(s.frameInfo, t1);
    var u1 := Update(s.table, m1, t1);
    UpdateFacts(s.table, m1, t1);
    if u1.changed {
      var next := InferState(u1.tasks, m1, u1.table);
      var t2 := Iterate(u1.tasks, IterationLimit);
      var m2 := GatherFrames(m1, t2);
      UpdateFacts(u1.table, m2, t2);
      assert PropagateAndInfer(next, 1) == InferState(Update(u1.table, m2, t2).tasks, m2, Update(u1.table, m2, t2).table);
    }
  }

  /** propagateAttributionFromFrameInfo, interning through the trace's AttributionMap. */
  method PropagateAttributionFromFrameInfo(attributionMap: AttributionMap, taskAttribution: Attribution,
                                           frameInfo: FrameInfo) returns (r: Attribution)
    requires attributionMap.Valid()
    modifies attributionMap
    ensures attributionMap.Valid()
    ensures Interned(attributionMap.attributions, r) == FromFrameInfo(old(attributionMap.attributions), taskAttribution, frameInfo)
  {
    if taskAttribution.SourceLocation? {
      return taskAttribution;
    }
    if frameInfo.lineNumber == 1 && frameInfo.columnNumber == 1 {
      if !taskAttribution.Unknown? {
        return taskAttribution;
      }
      r := attributionMap.Create(File(frameInfo.url));
      return;
    }
    r := attributionMap.Create(SourceFromFrame(frameInfo));
  }

  /** updateFrameAttributions */
  method UpdateFrameAttributions(attributionMap: AttributionMap, frameInfoMap: FrameMap, tasks: seq<Task>)
    returns (changed: bool, out: seq<Task>)
    requires attributionMap.Valid()
    modifies attributionMap
    ensures attributionMap.Valid()
    ensures Updated(attributionMap.attributions, changed, out) == Update(old(attributionMap.attributions), frameInfoMap, tasks)
    decreases tasks, 1
  {
    changed := false;
    out := [];
    for i := 0 to |tasks|
      invariant attributionMap.Valid()
      invariant Update(old(attributionMap.attributions), frameInfoMap, tasks)
             == ThenUpdated(changed, out, Update(attributionMap.attributions, frameInfoMap, tasks[i..]))
    {
      ghost var before := attributionMap.attributions;
      assert tasks[i..][0] == tasks[i] && tasks[i..][1..] == tasks[i + 1..];
      var taskChanged, task := UpdateTask(attributionMap, frameInfoMap, tasks[i]);
      ghost var rest := Update(attributionMap.attributions, frameInfoMap, tasks[i + 1..]);
      assert Update(before, frameInfoMap, tasks[i..]) == ThenUpdated(taskChanged, [task], rest);
      assert out + ([task] + rest.tasks) == (out + [task]) + rest.tasks;
      changed := changed || taskChanged;
      out := out + [task];
    }
  }

  /** The body of updateFrameAttributions' loop for one task. */
  method UpdateTask(attributionMap: AttributionMap, frameInfoMap: FrameMap, task: Task)
    returns (changed: bool, out: Task)
    requires attributionMap.Valid()
    modifies attributionMap
    ensures attributionMap.Valid()
    ensures Updated(attributionMap.attributions, changed, [out]) == UpdateOne(old(attributionMap.attributions), frameInfoMap, task)
    decreases task, 0
  {
    var taskAttribution := task.meta.attribution;
    var attribution := taskAttribution;
    changed := false;
    if !taskAttribution.SourceLocation? {
      var frame := FrameId(task.event);
      if frame.Some? && frame.value != "" && frame.value in frameInfoMap {
        attribution := PropagateAttributionFromFrameInfo(attributionMap, taskAttribution, frameInfoMap[frame.value]);
        if attribution != taskAttribution {
          changed := true;
        }
      }
    }
    var subtreeChanged, children := UpdateFrameAttributions(attributionMap, frameInfoMap, task.children);
    changed := changed || subtreeChanged;
    out := task.(children := children, meta := task.meta.(attribution := attribution));
  }

  /** propagateAndInferAttributions: at most ten rounds of propagate, re-infer frames, update;
      stop after the first round whose update changed nothing. */
  method PropagateAndInferAttributions(trace: Trace)
    requires trace.frameInfo.Some? && trace.attributionMap != null && trace.attributionMap.Valid()
    modifies trace, trace.attributionMap
    ensures trace.attributionMap == old(trace.attributionMap) && trace.attributionMap.Valid()
    ensures trace.frameInfo.Some?
    ensures InferState(trace.tasks, trace.frameInfo.value, trace.attributionMap.attributions)
         == PropagateAndInfer(InferState(old(trace.tasks), old(trace.frameInfo).value,
                                         old(trace.attributionMap.attributions)), IterationLimit)
  {
    ghost var start := InferState(trace.tasks, trace.frameInfo.value, trace.attributionMap.attributions);
    var attributionMap := trace.attributionMap;
    ghost var current := start;
    for i := 0 to IterationLimit
      invariant trace.attributionMap == attributionMap && attributionMap.Valid()
      invariant trace.frameInfo.Some?
      invariant current == InferState(trace.tasks, trace.frameInfo.value, attributionMap.attributions)
      invariant PropagateAndInfer(start, IterationLimit) == PropagateAndInfer(current, IterationLimit - i)
    {
      var attributionsChanged := PropagateAndInferRound(trace, attributionMap);
      ghost var next := InferState(trace.tasks, trace.frameInfo.value, attributionMap.attributions);
      RoundStep(current, next, attributionsChanged, IterationLimit - i);
      current := next;
      if !attributionsChanged {
        return;
      }
    }
  }

  /** The body of propagateAndInferAttributions' loop: propagate, re-infer frames, update. */
  method PropagateAndInferRound(trace: Trace, attributionMap: AttributionMap) returns (changed: bool)
    requires trace.attributionMap == attributionMap && attributionMap.Valid() && trace.frameInfo.Some?
    modifies trace, attributionMap
    ensures trace.attributionMap == attributionMap && attributionMap.Valid() && trace.frameInfo.Some?
    ensures var tasks := Iterate(old(trace.tasks), IterationLimit);
      var frameInfo := GatherFrames(old(trace.frameInfo).value, tasks);
      Updated(attributionMap.attributions, changed, trace.tasks) == Update(old(attributionMap.attributions), frameInfo, tasks) &&
      trace.frameInfo.value == frameInfo
  {
    PropagateAttributions(trace);
    InferFrameSourceLocations(trace);
    var tasks;
    changed, tasks := UpdateFrameAttributions(attributionMap, trace.frameInfo.value, trace.tasks);
    trace.tasks := tasks;
  }

  /** inferAttributions: the passes in pipeline order. */
  function Pipeline(tasks: seq<Task>, frameInfo: Option<FrameMap>): InferState {
    var frames := GatherFrames(frameInfo.GetOr(map[]), tasks);
    var labelled := Gather(map[], frames, "RunTask", {}, tasks);
    var s := PropagateAndInfer(InferState(labelled.tasks, frames, labelled.table), IterationLimit);
    InferState(Roots(s.tasks, []), s.frameInfo, s.table)
  }

  /** inferAttributions: frame inference, assignment, the propagate-and-infer loop, then root
      finding, in that order. */
  method InferAttributions(trace: Trace)
    modifies trace
    ensures fresh(trace.attributionMap) && trace.attributionMap.Valid() && trace.frameInfo.Some?
    ensures InferState(trace.tasks, trace.frameInfo.value, trace.attributionMap.attributions)
         == Pipeline(old(trace.tasks), old(trace.frameInfo))
  {
    InferFrameSourceLocations(trace);
    AssignAttributions(trace);
    PropagateAndInferAttributions(trace);
    FindAttributionRoots(trace);
  }

  /** Of the pipeline's result: attribution roots never nest within a root of the same
      attribution, every top-level task is a root, and every task with a mapped frame is a
      source location, or at least a file when the frame is at (1,1). */
  lemma {:induction false} PipelineResult(tasks: seq<Task>, frameInfo: Option<FrameMap>)
    ensures var r := Pipeline(tasks, frameInfo);
      RootsExclusive(r.tasks) && Settled(r.frameInfo, r.tasks) && WellKeyed(r.table) &&
      forall i :: 0 <= i < |r.tasks| ==> r.tasks[i].meta.context.isAttributionRoot
  {
    var frames := GatherFrames(frameInfo.GetOr(map[]), tasks);
    var labelled := Gather(map[], frames, "RunTask", {}, tasks);
    GatherLabelsAll(map[], frames, "RunTask", {}, tasks);
    var s := PropagateAndInfer(InferState(labelled.tasks, frames, labelled.table), IterationLimit);
    LoopSettles(InferState(labelled.tasks, frames, labelled.table), IterationLimit);
    RootsAreExclusive(s.tasks, []);
    RootsSpec(s.tasks, []);
    SettledRootFlags(s.frameInfo, s.tasks, Roots(s.tasks, []));
    forall i | 0 <= i < |s.tasks|
      ensures Roots(s.tasks, [])[i].meta.context.isAttributionRoot
    {
      TopLevelTasksAreRoots(s.tasks, i);
    }
  }

  lemma {:induction false} SettledRootFlags(frameInfoMap: FrameMap, a: seq<Task>, b: seq<Task>)
    requires Settled(frameInfoMap, a) && SameExceptRootFlags(a, b)
    ensures Settled(frameInfoMap, b)
    decreases a
  {
    if a != [] {
      SettledRootFlags(frameInfoMap, a[0].children, b[0].children);
      assert SameExceptRootFlags(a[1..], b[1..]) by {
        forall i | 0 <= i < |a| - 1
          ensures b[1..][i] == WithRootFlag(a[1..][i], b[1..][i].meta.context.isAttributionRoot, b[1..][i].children)
          ensures SameExceptRootFlags(a[1..][i].children, b[1..][i].children)
        {
          assert a[1..][i] == a[i + 1] && b[1..][i] == b[i + 1];
        }
      }
      SettledRootFlags(frameInfoMap, a[1..], b[1..]);
    }
  }
}
