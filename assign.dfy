/** First attribution of every task (src/analysis/assignAttributions.ts). The pass interns every
    attribution through the trace's AttributionMap; the specification functions thread the
    same table as a value. */
module Assign {
  import opened Wrappers
  import opened Strings
  import opened Frames
  import opened Attributions
  import opened Tasks

  type Table = map<string, Attribution>

  /** The task's URLs that the ancestors' URL set does not hold, in order. */
  function NewURLs(urls: seq<string>, scope: set<string>): (r: seq<string>)
    ensures forall i :: 0 <= i < |r| ==> r[i] in urls && r[i] !in scope
    ensures forall i :: 0 <= i < |urls| && urls[i] !in scope ==> urls[i] in r
  {
    if urls == [] then []
    else
      var rest := NewURLs(urls[1..], scope);
      assert forall i :: 1 <= i < |urls| ==> urls[i] == urls[1..][i - 1];
      (if urls[0] in scope then [] else [urls[0]]) + rest
  }

  /** The children's URL set: the ancestors' URLs and the task's own. */
  function Widen(scope: set<string>, urls: seq<string>): (r: set<string>)
    ensures forall u :: u in r <==> u in scope || u in urls
  {
    scope + set u | u in urls
  }

  /** `data.url ?? data.fileName` */
  function EventURL(e: TraceEvent): Option<string> {
    Coalesce(DataOf(e).url, DataOf(e).fileName)
  }

  /** The attribution extractAttribution hands to `create`, by the first heuristic that
      applies: stack trace, url with line and column, mapped frame id, url, `args.fileName`,
      a single Lighthouse URL, a single Lighthouse URL new to this scope, else unknown. */
  function ExtractCandidate(frameInfoMap: map<string, FrameInfo>, scope: set<string>, t: Task): Attribution {
    var e := t.event;
    var data := DataOf(e);
    var frame := FrameId(e);
    var stackTrace := StackTrace(e);
    var url := EventURL(e);
    if stackTrace.Some? && |stackTrace.value| > 0 then SourceFromFrame(stackTrace.value[0])
    else if TruthyString(url) && data.lineNumber.Some? && data.columnNumber.Some? then
      SourceLocation(url.value, data.functionName, data.lineNumber.value, data.columnNumber.value, None, None)
    else if TruthyString(frame) && frame.value in frameInfoMap then SourceFromFrame(frameInfoMap[frame.value])
    else if TruthyString(url) then File(url.value)
    else if TruthyString(e.args.fileName) then File(e.args.fileName.value)
    else if |t.attributableURLs| == 1 then File(t.attributableURLs[0])
    else if |NewURLs(t.attributableURLs, scope)| == 1 then File(NewURLs(t.attributableURLs, scope)[0])
    else Unknown
  }

  /** A stack trace decides the attribution ahead of every other rule. */
  lemma {:induction false} ExtractStackTraceFirst(frameInfoMap: map<string, FrameInfo>, scope: set<string>, t: Task)
    requires StackTrace(t.event).Some? && |StackTrace(t.event).value| > 0
    ensures ExtractCandidate(frameInfoMap, scope, t) == SourceFromFrame(StackTrace(t.event).value[0])
  {
  }

  /** The candidate is a source location exactly when there is a stack trace, a url with line
      and column, or a mapped frame id. */
  lemma {:induction false} ExtractSourceIff(frameInfoMap: map<string, FrameInfo>, scope: set<string>, t: Task)
    ensures ExtractCandidate(frameInfoMap, scope, t).SourceLocation? <==>
      (StackTrace(t.event).Some? && |StackTrace(t.event).value| > 0) ||
      (TruthyString(EventURL(t.event)) && DataOf(t.event).lineNumber.Some? && DataOf(t.event).columnNumber.Some?) ||
      (TruthyString(FrameId(t.event)) && FrameId(t.event).value in frameInfoMap)
  {
  }

  /** The candidate is unknown exactly when no heuristic applies. */
  lemma {:induction false} ExtractUnknownIff(frameInfoMap: map<string, FrameInfo>, scope: set<string>, t: Task)
    ensures ExtractCandidate(frameInfoMap, scope, t).Unknown? <==>
      !(StackTrace(t.event).Some? && |StackTrace(t.event).value| > 0) &&
      !TruthyString(EventURL(t.event)) &&
      !(TruthyString(FrameId(t.event)) && FrameId(t.event).value in frameInfoMap) &&
      !TruthyString(t.event.args.fileName) &&
      |t.attributableURLs| != 1 &&
      |NewURLs(t.attributableURLs, scope)| != 1
  {
  }

  predicate IsTrivialSource(a: Attribution) {
    a.SourceLocation? && a.lineNumber == 1 && a.columnNumber == 1
  }

  /** simplifyAttribution: a source location at line 1, column 1 becomes the interned file
      attribution of its url; anything else is returned as it is. */
  function Simplify(table: Table, a: Attribution): (r: Interned)
    ensures !IsTrivialSource(a) ==> r == Interned(table, a)
    ensures IsTrivialSource(a) ==> AttributionId(File(a.url)) in r.table
  {
    if IsTrivialSource(a) then Intern(table, File(a.url)) else Interned(table, a)
  }

  /** Simplification never yields a (1,1) source location: such a value becomes exactly
      file(url), since a file attribution is determined by its id. The table stays well keyed
      and only grows. */
  lemma {:induction false} SimplifyResult(table: Table, a: Attribution)
    requires WellKeyed(table)
    ensures WellKeyed(Simplify(table, a).table) && Extends(table, Simplify(table, a).table)
    ensures !IsTrivialSource(Simplify(table, a).value)
    ensures IsTrivialSource(a) ==> Simplify(table, a).value == File(a.url)
    ensures InTable(table, a) ==> InTable(Simplify(table, a).table, Simplify(table, a).value)
  {
    if IsTrivialSource(a) {
      InternWellKeyed(table, File(a.url));
    }
  }

  /** extractAttribution followed by simplifyAttribution, both interning. */
  function Label(table: Table, frameInfoMap: map<string, FrameInfo>, scope: set<string>, t: Task): Interned {
    var e := Intern(table, ExtractCandidate(frameInfoMap, scope, t));
    Simplify(e.table, e.value)
  }

  /** propagateTrigger: devtools.timeline events with data start a trigger named after the
      event and its type, or its url when the type is absent (an empty type names no id and
      does not fall back to the url); RunMicrotasks and v8.compile name themselves; everything else
      inherits the enclosing trigger. */
  function PropagateTrigger(e: TraceEvent, scopeTrigger: string): (r: string)
    ensures r != scopeTrigger ==> (e.args.data.Some? && e.cat == "devtools.timeline") || e.name in ["RunMicrotasks", "v8.compile"]
    ensures e.args.data.Some? && e.cat == "devtools.timeline" ==>
      var d := e.args.data.value;
      (d.dataType.Some? && d.dataType.value != "" ==> r == e.name + " " + d.dataType.value) &&
      (d.dataType.Some? && d.dataType.value == "" ==> r == e.name) &&
      (d.dataType.None? && TruthyString(d.url) ==> r == e.name + " " + d.url.value) &&
      (d.dataType.None? && !TruthyString(d.url) ==> r == e.name)
    ensures !(e.args.data.Some? && e.cat == "devtools.timeline") && e.name in ["RunMicrotasks", "v8.compile"] ==>
      r == e.name
  {
    if e.args.data.Some? && e.cat == "devtools.timeline" then
      var id := Coalesce(e.args.data.value.dataType, e.args.data.value.url);
      if TruthyString(id) then e.name + " " + id.value else e.name
    else if e.name in ["RunMicrotasks", "v8.compile"] then e.name
    else scopeTrigger
  }

  /** The context gatherAttributions writes: not (yet) a root, a copy of the task's URLs and the
      inherited trigger. `isTopLevel` is not written. */
  function InitialContext(t: Task, scopeTrigger: string): Context {
    Context(false, false, t.attributableURLs, [scopeTrigger])
  }

  datatype Assigned = Assigned(table: Table, tasks: seq<Task>)

  function Prepend(done: seq<Task>, a: Assigned): Assigned {
    Assigned(a.table, done + a.tasks)
  }

  /** Entries of `table` are all kept in `bigger`. */
  ghost predicate Extends(table: Table, bigger: Table) {
    table.Keys <= bigger.Keys && forall id :: id in table ==> bigger[id] == table[id]
  }

  /** One task of gatherAttributions: label it, then its children with the task's trigger and
      the scope set grown by the task's URLs. */
  function GatherOne(table: Table, frameInfoMap: map<string, FrameInfo>, scopeTrigger: string,
                      scope: set<string>, t: Task): (r: Assigned)
    ensures Extends(table, r.table)
    ensures |r.tasks| == 1
    decreases t, 0
  {
    var l := Label(table, frameInfoMap, scope, t);
    var sub := Gather(l.table, frameInfoMap, PropagateTrigger(t.event, scopeTrigger),
                      Widen(scope, t.attributableURLs), t.children);
    Assigned(sub.table, [t.(children := sub.tasks, meta := t.meta.(attribution := l.value, context := InitialContext(t, scopeTrigger)))])
  }

  /** gatherAttributions as a value: each task in turn, threading the table. */
  function Gather(table: Table, frameInfoMap: map<string, FrameInfo>, scopeTrigger: string,
                  scope: set<string>, ts: seq<Task>): (r: Assigned)
    ensures Extends(table, r.table)
    ensures |r.tasks| == |ts|
    decreases ts, 1
  {
    if ts == [] then Assigned(table, [])
    else
      var first := GatherOne(table, frameInfoMap, scopeTrigger, scope, ts[0]);
      Prepend(first.tasks, Gather(first.table, frameInfoMap, scopeTrigger, scope, ts[1..]))
  }

  /** extractAttribution */
  method ExtractAttribution(attributionMap: AttributionMap, frameInfoMap: map<string, FrameInfo>,
                            scope: set<string>, task: Task) returns (a: Attribution)
    requires attributionMap.Valid()
    modifies attributionMap
    ensures attributionMap.Valid()
    ensures Interned(attributionMap.attributions, a) == Intern(old(attributionMap.attributions), ExtractCandidate(frameInfoMap, scope, task))
  {
    var e := task.event;
    var data := DataOf(e);
    var frame := FrameId(e);
    var stackTrace := StackTrace(e);
    if stackTrace.Some? && |stackTrace.value| > 0 {
      a := attributionMap.Create(SourceFromFrame(stackTrace.value[0]));
      return;
    }
    var url := EventURL(e);
    var lineNumber := data.lineNumber;
    var columnNumber := data.columnNumber;
    if TruthyString(url) && lineNumber.Some? && columnNumber.Some? {
      a := attributionMap.Create(SourceLocation(url.value, data.functionName, lineNumber.value, columnNumber.value, None, None));
      return;
    }
    if TruthyString(frame) && frame.value in frameInfoMap {
      a := attributionMap.Create(SourceFromFrame(frameInfoMap[frame.value]));
      return;
    }
    if TruthyString(url) {
      a := attributionMap.Create(File(url.value));
      return;
    }
    if TruthyString(e.args.fileName) {
      a := attributionMap.Create(File(e.args.fileName.value));
      return;
    }
    if |task.attributableURLs| == 1 {
      a := attributionMap.Create(File(task.attributableURLs[0]));
      return;
    }
    var newURLs := CollectNewURLs(task.attributableURLs, scope);
    if |newURLs| == 1 {
      a := attributionMap.Create(File(newURLs[0]));
      return;
    }
    a := attributionMap.Create(Unknown);
  }

  /** The loop of extractAttribution that keeps the task's URLs not in the scope set. */
  method CollectNewURLs(urls: seq<string>, scope: set<string>) returns (newURLs: seq<string>)
    ensures newURLs == NewURLs(urls, scope)
  {
    newURLs := [];
    for i := 0 to |urls|
      invariant newURLs == NewURLs(urls[..i], scope)
    {
      var u := urls[i];
      NewURLsAppend(urls[..i], [u], scope);
      assert urls[..i + 1] == urls[..i] + [u];
      if u !in scope {
        newURLs := newURLs + [u];
      }
    }
    assert urls[..|urls|] == urls;
  }

  lemma {:induction false} NewURLsAppend(a: seq<string>, b: seq<string>, scope: set<string>)
    ensures NewURLs(a + b, scope) == NewURLs(a, scope) + NewURLs(b, scope)
  {
    if a == [] {
      assert a + b == b;
    } else {
      assert (a + b)[0] == a[0];
      assert (a + b)[1..] == a[1..] + b;
      NewURLsAppend(a[1..], b, scope);
    }
  }

  /** simplifyAttribution */
  method SimplifyAttribution(attributionMap: AttributionMap, attr: Attribution) returns (a: Attribution)
    requires attributionMap.Valid()
    modifies attributionMap
    ensures attributionMap.Valid()
    ensures Interned(attributionMap.attributions, a) == Simplify(old(attributionMap.attributions), attr)
  {
    if attr.SourceLocation? && attr.lineNumber == 1 && attr.columnNumber == 1 {
      a := attributionMap.Create(File(attr.url));
    } else {
      a := attr;
    }
  }

  /** gatherAttributions */
  method GatherAttributions(attributionMap: AttributionMap, frameInfoMap: map<string, FrameInfo>,
                            scopeTrigger: string, scope: set<string>, tasks: seq<Task>)
    returns (out: seq<Task>)
    requires attributionMap.Valid()
    modifies attributionMap
    ensures attributionMap.Valid()
    ensures Assigned(attributionMap.attributions, out)
         == Gather(old(attributionMap.attributions), frameInfoMap, scopeTrigger, scope, tasks)
    decreases tasks, 1
  {
    out := [];
    for i := 0 to |tasks|
      invariant attributionMap.Valid()
      invariant Gather(old(attributionMap.attributions), frameInfoMap, scopeTrigger, scope, tasks)
             == Prepend(out, Gather(attributionMap.attributions, frameInfoMap, scopeTrigger, scope, tasks[i..]))
    {
      ghost var before := attributionMap.attributions;
      var t := AttributeTask(attributionMap, frameInfoMap, scopeTrigger, scope, tasks[i]);
      GatherStep(before, attributionMap.attributions, frameInfoMap, scopeTrigger, scope, tasks, out, t, i);
      out := out + [t];
    }
  }

  lemma {:induction false} GatherStep(before: Table, after: Table, frameInfoMap: map<string, FrameInfo>, scopeTrigger: string,
                   scope: set<string>, tasks: seq<Task>, done: seq<Task>, t: Task, i: nat)
    requires i < |tasks|
    requires Assigned(after, [t]) == GatherOne(before, frameInfoMap, scopeTrigger, scope, tasks[i])
    ensures Prepend(done, Gather(before, frameInfoMap, scopeTrigger, scope, tasks[i..]))
         == Prepend(done + [t], Gather(after, frameInfoMap, scopeTrigger, scope, tasks[i + 1..]))
  {
    assert tasks[i..][0] == tasks[i] && tasks[i..][1..] == tasks[i + 1..];
    var rest := Gather(after, frameInfoMap, scopeTrigger, scope, tasks[i + 1..]);
    assert Gather(before, frameInfoMap, scopeTrigger, scope, tasks[i..]) == Prepend([t], rest);
    assert done + ([t] + rest.tasks) == (done + [t]) + rest.tasks;
  }

  /** The body of gatherAttributions' loop for one task. */
  method AttributeTask(attributionMap: AttributionMap, frameInfoMap: map<string, FrameInfo>,
                    scopeTrigger: string, scope: set<string>, task: Task) returns (t: Task)
    requires attributionMap.Valid()
    modifies attributionMap
    ensures attributionMap.Valid()
    ensures Assigned(attributionMap.attributions, [t])
         == GatherOne(old(attributionMap.attributions), frameInfoMap, scopeTrigger, scope, task)
    decreases task, 0
  {
    var attribution := LabelTask(attributionMap, frameInfoMap, scope, task);
    var context := Context(false, false, task.attributableURLs, [scopeTrigger]);
    var subtreeTrigger := PropagateTrigger(task.event, scopeTrigger);
    var subtreeScope := Widen(scope, context.lighthouseAttributableURLs);
    var children := GatherAttributions(attributionMap, frameInfoMap, subtreeTrigger, subtreeScope, task.children);
    t := task.(children := children, meta := task.meta.(attribution := attribution, context := context));
  }

  /** extractAttribution then simplifyAttribution on one task. */
  method LabelTask(attributionMap: AttributionMap, frameInfoMap: map<string, FrameInfo>,
                   scope: set<string>, task: Task) returns (a: Attribution)
    requires attributionMap.Valid()
    modifies attributionMap
    ensures attributionMap.Valid()
    ensures Interned(attributionMap.attributions, a) == Label(old(attributionMap.attributions), frameInfoMap, scope, task)
  {
    var taskAttribution := ExtractAttribution(attributionMap, frameInfoMap, scope, task);
    a := SimplifyAttribution(attributionMap, taskAttribution);
  }

  /** assignAttributions: a new AttributionMap, the roots start from trigger 'RunTask' and an
      empty URL set. */
  method AssignAttributions(trace: Trace)
    requires trace.frameInfo.Some?
    modifies trace
    ensures fresh(trace.attributionMap) && trace.attributionMap.Valid()
    ensures Assigned(trace.attributionMap.attributions, trace.tasks)
         == Gather(map[], old(trace.frameInfo).value, "RunTask", {}, old(trace.tasks))
    ensures trace.frameInfo == old(trace.frameInfo)
  {
    var attributionMap := new AttributionMap();
    trace.attributionMap := attributionMap;
    var tasks := GatherAttributions(attributionMap, trace.frameInfo.value, "RunTask", {}, trace.tasks);
    trace.tasks := tasks;
  }

  /** What every labelled task satisfies: its attribution is the stored one for its id and is
      never a source location at (1,1); its context is not a root, copies its URLs and holds
      one trigger. */
  ghost predicate Labelled(table: Table, t: Task) {
    InTable(table, t.meta.attribution)
    && !IsTrivialSource(t.meta.attribution)
    && !t.meta.context.isAttributionRoot
    && !t.meta.context.isTopLevel
    && t.meta.context.lighthouseAttributableURLs == t.attributableURLs
    && |t.meta.context.triggers| == 1
  }

  /** Every task's context holds exactly the trigger of its scope, and its children's scope
      trigger is the one propagateTrigger derives from the task's event. */
  ghost predicate InheritsTrigger(trigger: string, ts: seq<Task>)
    decreases ts
  {
    forall i :: 0 <= i < |ts| ==>
      ts[i].meta.context.triggers == [trigger] &&
      InheritsTrigger(PropagateTrigger(ts[i].event, trigger), ts[i].children)
  }

  ghost predicate AllLabelled(table: Table, ts: seq<Task>) {
    forall i :: 0 <= i < |PreOrder(ts)| ==> Labelled(table, PreOrder(ts)[i])
  }

  lemma {:induction false} LabelledGrows(table: Table, bigger: Table, ts: seq<Task>)
    requires AllLabelled(table, ts) && Extends(table, bigger)
    ensures AllLabelled(bigger, ts)
  {
  }

  lemma {:induction false} LabelInTable(table: Table, frameInfoMap: map<string, FrameInfo>, scope: set<string>, t: Task)
    requires WellKeyed(table)
    ensures WellKeyed(Label(table, frameInfoMap, scope, t).table)
    ensures InTable(Label(table, frameInfoMap, scope, t).table, Label(table, frameInfoMap, scope, t).value)
    ensures !IsTrivialSource(Label(table, frameInfoMap, scope, t).value)
  {
    var c := ExtractCandidate(frameInfoMap, scope, t);
    InternWellKeyed(table, c);
    var e := Intern(table, c);
    assert InTable(e.table, e.value);
    SimplifyResult(e.table, e.value);
  }

  lemma {:induction false} GatherOneLabels(table: Table, frameInfoMap: map<string, FrameInfo>,
                                           scopeTrigger: string, scope: set<string>, t: Task)
    requires WellKeyed(table)
    ensures WellKeyed(GatherOne(table, frameInfoMap, scopeTrigger, scope, t).table)
    ensures AllLabelled(GatherOne(table, frameInfoMap, scopeTrigger, scope, t).table,
                        GatherOne(table, frameInfoMap, scopeTrigger, scope, t).tasks)
    ensures InheritsTrigger(scopeTrigger, GatherOne(table, frameInfoMap, scopeTrigger, scope, t).tasks)
    decreases t, 0
  {
    var l := Label(table, frameInfoMap, scope, t);
    LabelInTable(table, frameInfoMap, scope, t);
    var sub := Gather(l.table, frameInfoMap, PropagateTrigger(t.event, scopeTrigger), Widen(scope, t.attributableURLs), t.children);
    GatherLabelsAll(l.table, frameInfoMap, PropagateTrigger(t.event, scopeTrigger), Widen(scope, t.attributableURLs), t.children);
    var r := GatherOne(table, frameInfoMap, scopeTrigger, scope, t);
    var t' := r.tasks[0];
    assert Labelled(r.table, t');
    assert r.tasks == [t'];
    assert PreOrder(r.tasks) == [t'] + PreOrder(sub.tasks) by {
      assert r.tasks[1..] == [];
    }
  }

  /** After assignment, every task of the forest is labelled by the final table, and the
      table stays well keyed. */
  lemma {:induction false} GatherLabelsAll(table: Table, frameInfoMap: map<string, FrameInfo>,
                                           scopeTrigger: string, scope: set<string>, ts: seq<Task>)
    requires WellKeyed(table)
    ensures WellKeyed(Gather(table, frameInfoMap, scopeTrigger, scope, ts).table)
    ensures AllLabelled(Gather(table, frameInfoMap, scopeTrigger, scope, ts).table,
                        Gather(table, frameInfoMap, scopeTrigger, scope, ts).tasks)
    ensures InheritsTrigger(scopeTrigger, Gather(table, frameInfoMap, scopeTrigger, scope, ts).tasks)
    decreases ts, 1
  {
    if ts != [] {
      var first := GatherOne(table, frameInfoMap, scopeTrigger, scope, ts[0]);
      GatherOneLabels(table, frameInfoMap, scopeTrigger, scope, ts[0]);
      var rest := Gather(first.table, frameInfoMap, scopeTrigger, scope, ts[1..]);
      GatherLabelsAll(first.table, frameInfoMap, scopeTrigger, scope, ts[1..]);
      LabelledGrows(first.table, rest.table, first.tasks);
      PreOrderAppend(first.tasks, rest.tasks);
    }
  }

  /** Tasks whose attributions have the same kind, url, line and column share one attribution
      value: everything assigned comes from the interning table. */
  lemma {:induction false} SharedAttribution(table: Table, ts: seq<Task>, i: nat, j: nat)
    requires WellKeyed(table) && AllLabelled(table, ts)
    requires i < |PreOrder(ts)| && j < |PreOrder(ts)|
    requires KeyOf(PreOrder(ts)[i].meta.attribution) == KeyOf(PreOrder(ts)[j].meta.attribution)
    ensures PreOrder(ts)[i].meta.attribution == PreOrder(ts)[j].meta.attribution
  {
    assert Labelled(table, PreOrder(ts)[i]) && Labelled(table, PreOrder(ts)[j]);
    IdInjective(PreOrder(ts)[i].meta.attribution, PreOrder(ts)[j].meta.attribution);
  }

  lemma {:induction false} GatherOneKeepsSkeleton(table: Table, frameInfoMap: map<string, FrameInfo>,
                                                  scopeTrigger: string, scope: set<string>, t: Task)
    ensures Skeleton(GatherOne(table, frameInfoMap, scopeTrigger, scope, t).tasks) == Skeleton([t])
    decreases t, 0
  {
    var l := Label(table, frameInfoMap, scope, t);
    GatherKeepsSkeleton(l.table, frameInfoMap, PropagateTrigger(t.event, scopeTrigger), Widen(scope, t.attributableURLs), t.children);
    var r := GatherOne(table, frameInfoMap, scopeTrigger, scope, t);
    assert r.tasks[1..] == [];
    assert [t][1..] == [];
  }

  /** Assignment keeps every event and the nesting of the forest. */
  lemma {:induction false} GatherKeepsSkeleton(table: Table, frameInfoMap: map<string, FrameInfo>,
                                               scopeTrigger: string, scope: set<string>, ts: seq<Task>)
    ensures Skeleton(Gather(table, frameInfoMap, scopeTrigger, scope, ts).tasks) == Skeleton(ts)
    decreases ts, 1
  {
    if ts != [] {
      var first := GatherOne(table, frameInfoMap, scopeTrigger, scope, ts[0]);
      GatherOneKeepsSkeleton(table, frameInfoMap, scopeTrigger, scope, ts[0]);
      GatherKeepsSkeleton(first.table, frameInfoMap, scopeTrigger, scope, ts[1..]);
      var r := Gather(table, frameInfoMap, scopeTrigger, scope, ts);
      SkeletonAppend(first.tasks, Gather(first.table, frameInfoMap, scopeTrigger, scope, ts[1..]).tasks);
      SkeletonAppend([ts[0]], ts[1..]);
      assert [ts[0]] + ts[1..] == ts;
    }
  }
}
