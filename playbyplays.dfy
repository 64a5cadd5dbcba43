/** Play-by-plays (src/analysis/addPlayByPlays.ts): every task lists its subtree in pre-order,
    one entry per task; consecutive entries with the same attribution and category are then
    merged into one. */
module PlayByPlays {
  import opened Wrappers
  import opened Strings
  import opened Attributions
  import opened Breakdowns
  import opened Tasks
  import opened Assign

  /** taskName: devtools.timeline events with data are named after the event and the data's
      type, or its url when the type is absent, when that id is non-empty; every other task is
      named after its event. */
  function TaskName(e: TraceEvent): (r: string)
    ensures IsPrefix(e.name, r)
    ensures !(e.args.data.Some? && e.cat == "devtools.timeline") ==> r == e.name
    ensures e.args.data.Some? && e.cat == "devtools.timeline" ==>
      var d := e.args.data.value;
      (d.dataType.Some? && d.dataType.value != "" ==> r == e.name + " " + d.dataType.value) &&
      (d.dataType.Some? && d.dataType.value == "" ==> r == e.name) &&
      (d.dataType.None? && TruthyString(d.url) ==> r == e.name + " " + d.url.value) &&
      (d.dataType.None? && !TruthyString(d.url) ==> r == e.name)
  {
    if e.args.data.Some? && e.cat == "devtools.timeline" then
      var id := Coalesce(e.args.data.value.dataType, e.args.data.value.url);
      if TruthyString(id) then e.name + " " + id.value else e.name
    else e.name
  }

  /** A devtools.timeline event with data starts a trigger named exactly as its task. */
  lemma {:induction false} TriggerIsTaskName(e: TraceEvent, scopeTrigger: string)
    ensures e.args.data.Some? && e.cat == "devtools.timeline" ==> PropagateTrigger(e, scopeTrigger) == TaskName(e)
    ensures !(e.args.data.Some? && e.cat == "devtools.timeline") ==> TaskName(e) == e.name
  {
  }

  /** The entry a task contributes. `selfOnly` is the breakdown method of that name, which is
      not part of this model. */
  function EntryOf(t: Task, selfOnly: Breakdown -> Breakdown): PlayByPlayEntry {
    PlayByPlayEntry(TaskName(t.event), t.meta.attribution, selfOnly(t.meta.breakdown), [t.meta.taskId])
  }

  function EntriesOf(flat: seq<Task>, selfOnly: Breakdown -> Breakdown): (r: seq<PlayByPlayEntry>)
    ensures |r| == |flat|
  {
    if flat == [] then [] else [EntryOf(flat[0], selfOnly)] + EntriesOf(flat[1..], selfOnly)
  }

  /** The concatenation of a level's play-by-plays. */
  function PlaysOf(ts: seq<Task>): seq<PlayByPlayEntry> {
    if ts == [] then [] else ts[0].meta.playByPlay + PlaysOf(ts[1..])
  }

  function GatherOne(t: Task, selfOnly: Breakdown -> Breakdown): Task
    decreases t, 0
  {
    var children := Gather(t.children, selfOnly);
    t.(children := children, meta := t.meta.(playByPlay := [EntryOf(t, selfOnly)] + PlaysOf(children)))
  }

  /** gatherPlayByPlays: each task's play-by-play is its own entry followed by its children's. */
  function Gather(ts: seq<Task>, selfOnly: Breakdown -> Breakdown): (r: seq<Task>)
    ensures |r| == |ts|
    decreases ts, 1
  {
    if ts == [] then [] else [GatherOne(ts[0], selfOnly)] + Gather(ts[1..], selfOnly)
  }

  lemma {:induction false} EntriesOfAppend(a: seq<Task>, b: seq<Task>, selfOnly: Breakdown -> Breakdown)
    ensures EntriesOf(a + b, selfOnly) == EntriesOf(a, selfOnly) + EntriesOf(b, selfOnly)
  {
    if a != [] {
      EntriesOfAppend(a[1..], b, selfOnly);
      assert a + b != [] && (a + b)[0] == a[0] && (a + b)[1..] == a[1..] + b;
      var e := EntryOf(a[0], selfOnly);
      assert EntriesOf(a + b, selfOnly) == [e] + EntriesOf(a[1..] + b, selfOnly);
      assert EntriesOf(a, selfOnly) == [e] + EntriesOf(a[1..], selfOnly);
      var x, y := EntriesOf(a[1..], selfOnly), EntriesOf(b, selfOnly);
      assert [e] + (x + y) == ([e] + x) + y;
    } else {
      assert a + b == b;
    }
  }

  lemma {:induction false} GatherOneIsPreOrder(t: Task, selfOnly: Breakdown -> Breakdown)
    ensures GatherOne(t, selfOnly).meta.playByPlay == EntriesOf(PreOrder([t]), selfOnly)
    decreases t, 0
  {
    GatherIsPreOrder(t.children, selfOnly);
    assert [t][1..] == [];
    assert PreOrder([t]) == [t] + PreOrder(t.children);
    EntriesOfAppend([t], PreOrder(t.children), selfOnly);
  }

  /** A task's play-by-play is its subtree in pre-order, one entry per task, and the returned
      list is the level's subtrees in order. */
  lemma {:induction false} GatherIsPreOrder(ts: seq<Task>, selfOnly: Breakdown -> Breakdown)
    ensures PlaysOf(Gather(ts, selfOnly)) == EntriesOf(PreOrder(ts), selfOnly)
    decreases ts, 1
  {
    if ts != [] {
      GatherOneIsPreOrder(ts[0], selfOnly);
      GatherIsPreOrder(ts[1..], selfOnly);
      PreOrderAppend([ts[0]], ts[1..]);
      assert ts == [ts[0]] + ts[1..];
      EntriesOfAppend(PreOrder([ts[0]]), PreOrder(ts[1..]), selfOnly);
      assert Gather(ts, selfOnly)[1..] == Gather(ts[1..], selfOnly);
    }
  }

  /** The play-by-play of each task, as an ensures of GatherOne, for every index of a level. */
  lemma {:induction false} GatherAt(ts: seq<Task>, selfOnly: Breakdown -> Breakdown, i: nat)
    requires i < |ts|
    ensures Gather(ts, selfOnly)[i].meta.playByPlay == EntriesOf(PreOrder([ts[i]]), selfOnly)
    ensures Gather(ts, selfOnly)[i].children == Gather(ts[i].children, selfOnly)
  {
    var r := Gather(ts, selfOnly);
    if i == 0 {
      assert r[0] == GatherOne(ts[0], selfOnly);
      GatherOneIsPreOrder(ts[0], selfOnly);
    } else {
      GatherAt(ts[1..], selfOnly, i - 1);
      assert r[1..] == Gather(ts[1..], selfOnly);
      assert r[i] == r[1..][i - 1] && ts[1..][i - 1] == ts[i];
    }
  }

  /** gatherPlayByPlays */
  method GatherPlayByPlays(tasks: seq<Task>, selfOnly: Breakdown -> Breakdown)
    returns (allSubtreeEntries: seq<PlayByPlayEntry>, out: seq<Task>)
    ensures out == Gather(tasks, selfOnly)
    ensures allSubtreeEntries == PlaysOf(out)
    decreases tasks, 1
  {
    allSubtreeEntries := [];
    out := [];
    for i := 0 to |tasks|
      invariant Gather(tasks, selfOnly) == out + Gather(tasks[i..], selfOnly)
      invariant allSubtreeEntries == PlaysOf(out)
    {
      var task := GatherTaskPlayByPlay(tasks[i], selfOnly);
      GatherStep(tasks, selfOnly, out, i);
      PlaysOfSnoc(out, task);
      allSubtreeEntries := allSubtreeEntries + task.meta.playByPlay;
      out := out + [task];
    }
  }

  /** The body of gatherPlayByPlays' loop for one task. */
  method GatherTaskPlayByPlay(task: Task, selfOnly: Breakdown -> Breakdown) returns (out: Task)
    ensures out == GatherOne(task, selfOnly)
    decreases task, 0
  {
    var taskEntry := PlayByPlayEntry(TaskName(task.event), task.meta.attribution,
                                     selfOnly(task.meta.breakdown), [task.meta.taskId]);
    var subtreeEntries, children := GatherPlayByPlays(task.children, selfOnly);
    out := task.(children := children, meta := task.meta.(playByPlay := [taskEntry] + subtreeEntries));
  }

  lemma {:induction false} GatherStep(tasks: seq<Task>, selfOnly: Breakdown -> Breakdown, done: seq<Task>, i: nat)
    requires i < |tasks|
    ensures done + Gather(tasks[i..], selfOnly) ==
      (done + [GatherOne(tasks[i], selfOnly)]) + Gather(tasks[i + 1..], selfOnly)
  {
    assert tasks[i..][0] == tasks[i] && tasks[i..][1..] == tasks[i + 1..];
    assert Gather(tasks[i..], selfOnly) == [GatherOne(tasks[i], selfOnly)] + Gather(tasks[i + 1..], selfOnly);
  }

  lemma {:induction false} PlaysOfSnoc(ts: seq<Task>, t: Task)
    ensures PlaysOf(ts + [t]) == PlaysOf(ts) + t.meta.playByPlay
  {
    PlaysOfAppend(ts, [t]);
    assert [t][1..] == [];
  }

  lemma {:induction false} PlaysOfAppend(a: seq<Task>, b: seq<Task>)
    ensures PlaysOf(a + b) == PlaysOf(a) + PlaysOf(b)
  {
    if a != [] {
      PlaysOfAppend(a[1..], b);
      assert (a + b)[1..] == a[1..] + b;
    } else {
      assert a + b == b;
    }
  }

  datatype TaskCategory = EventCategory | GcCategory | NetworkCategory | RenderingCategory
                        | ScriptCategory | TaskLikeCategory | OtherCategory

  /** The switch of taskCategory on a name's first word. */
  function CategoryOfWord(w: string): TaskCategory {
    match w
    case "EventDispatch" => EventCategory
    case "MajorGC" | "MinorGC" | "V8.GCFinalizeMC" => GcCategory
    case "XHRReadyStateChange" | "XHRLoad" => NetworkCategory
    case "ParseHTML" | "UpdateLayoutTree" => RenderingCategory
    case "EvaluateScript" | "FunctionCall" | "RunMicrotasks" | "v8.callFunction" | "v8.compile"
       | "V8.DeoptimizeCode" | "V8.Execute" | "V8.HandleInterrupts" | "v8.newInstance"
       | "V8.RunMicrotasks" | "v8.run" | "V8.ScriptCompiler" | "V8.StackGuard" => ScriptCategory
    case "ScheduledAction::execute" | "TimerFire" => TaskLikeCategory
    case _ => OtherCategory
  }

  /** The words the switch lists. */
  const ListedWords: seq<string> := [
    "EventDispatch", "MajorGC", "MinorGC", "V8.GCFinalizeMC", "XHRReadyStateChange", "XHRLoad",
    "ParseHTML", "UpdateLayoutTree", "EvaluateScript", "FunctionCall", "RunMicrotasks",
    "v8.callFunction", "v8.compile", "V8.DeoptimizeCode", "V8.Execute", "V8.HandleInterrupts",
    "v8.newInstance", "V8.RunMicrotasks", "v8.run", "V8.ScriptCompiler", "V8.StackGuard",
    "ScheduledAction::execute", "TimerFire"]

  /** taskCategory: decided by the name's first space-separated word alone. */
  function Categorize(name: string): TaskCategory {
    CategoryOfWord(FirstWord(name))
  }

  lemma {:induction false} FirstWordOfWord(w: string)
    requires ' ' !in w
    ensures FirstWord(w) == w
  {
    if w != [] {
      FirstWordOfWord(w[1..]);
      assert w == [w[0]] + w[1..];
    }
  }

  /** Only the first word counts: a name and its first word have the same category, as have
      two names with the same first word. */
  lemma {:induction false} CategoryReadsFirstWord(name: string, rest: string)
    ensures Categorize(name) == Categorize(FirstWord(name))
    ensures Categorize(FirstWord(name) + " " + rest) == Categorize(name)
  {
    FirstWordOfWord(FirstWord(name));
    FirstWordOfSentence(FirstWord(name), rest);
  }

  /** Words that are not listed are 'other', and only those. */
  lemma {:induction false} CategoryOtherIff(name: string)
    ensures Categorize(name) == OtherCategory <==> FirstWord(name) !in ListedWords
  {
  }

  // mergeRun

  /** The names of a run, in order. */
  function NamesOf(run: seq<PlayByPlayEntry>): (r: seq<string>)
    ensures |r| == |run| && forall i :: 0 <= i < |run| ==> r[i] == run[i].name
  {
    seq(|run|, i requires 0 <= i < |run| => run[i].name)
  }

  /** The distinct elements of a list, in the order they first occur. */
  function FirstSeen(s: seq<string>): (r: seq<string>)
    ensures |r| <= |s|
    ensures forall x :: x in r <==> x in s
    ensures Distinct(r)
  {
    if s == [] then []
    else
      var f := FirstSeen(s[..|s| - 1]);
      assert forall x :: x in s <==> x in s[..|s| - 1] || x == s[|s| - 1] by {
        assert s == s[..|s| - 1] + [s[|s| - 1]];
      }
      if s[|s| - 1] in f then f else f + [s[|s| - 1]]
  }

  predicate Distinct(s: seq<string>) {
    forall i, j :: 0 <= i < j < |s| ==> s[i] != s[j]
  }

  /** How often `x` occurs in `s`. */
  function Occurrences(s: seq<string>, x: string): (n: nat)
    ensures n == 0 <==> x !in s
  {
    if s == [] then 0
    else
      assert s == s[..|s| - 1] + [s[|s| - 1]];
      Occurrences(s[..|s| - 1], x) + (if s[|s| - 1] == x then 1 else 0)
  }

  /** A name with its count, as the merged name shows it. */
  function Summarize(name: string, count: nat): string {
    if count == 1 then name else name + " (x" + NatToString(count) + ")"
  }

  /** The summarized names of a run: its distinct names in first-seen order, each with its
      number of occurrences. */
  function Summaries(run: seq<PlayByPlayEntry>): (r: seq<string>)
    ensures |r| == |FirstSeen(NamesOf(run))|
  {
    var names := FirstSeen(NamesOf(run));
    seq(|names|, k requires 0 <= k < |names| => Summarize(names[k], Occurrences(NamesOf(run), names[k])))
  }

  /** The concatenated task ids of a list of entries. */
  function TaskIdsOf(entries: seq<PlayByPlayEntry>): seq<int> {
    if entries == [] then [] else TaskIdsOf(entries[..|entries| - 1]) + entries[|entries| - 1].taskIds
  }

  function BreakdownsOfRun(run: seq<PlayByPlayEntry>): (r: seq<Breakdown>)
    ensures |r| == |run| && forall i :: 0 <= i < |run| ==> r[i] == run[i].breakdown
  {
    seq(|run|, i requires 0 <= i < |run| => run[i].breakdown)
  }

  /** The entry mergeRun makes of a run. */
  function Merged(runAttribution: Attribution, run: seq<PlayByPlayEntry>): PlayByPlayEntry {
    PlayByPlayEntry(Join(Summaries(run), ", "), runAttribution, Sum(BreakdownsOfRun(run)), TaskIdsOf(run))
  }

  /** The names Map of mergeRun, in insertion order: `names.set(name, (names.get(name) ?? 0) + 1)`. */
  function Bump(names: seq<(string, nat)>, name: string): (r: seq<(string, nat)>)
  {
    if names == [] then [(name, 1)]
    else if names[0].0 == name then [(name, names[0].1 + 1)] + names[1..]
    else [names[0]] + Bump(names[1..], name)
  }

  function Keys(names: seq<(string, nat)>): (r: seq<string>)
    ensures |r| == |names| && forall k :: 0 <= k < |names| ==> r[k] == names[k].0
  {
    seq(|names|, k requires 0 <= k < |names| => names[k].0)
  }

  /** The names Map after counting the whole run. */
  function NameCounts(run: seq<PlayByPlayEntry>): seq<(string, nat)> {
    if run == [] then [] else Bump(NameCounts(run[..|run| - 1]), run[|run| - 1].name)
  }

  lemma {:induction false} BumpFacts(names: seq<(string, nat)>, name: string)
    requires Distinct(Keys(names))
    ensures name !in Keys(names) ==> Bump(names, name) == names + [(name, 1)]
    ensures name in Keys(names) ==>
      |Bump(names, name)| == |names| &&
      forall k :: 0 <= k < |names| ==>
        Bump(names, name)[k] == (names[k].0, names[k].1 + if names[k].0 == name then 1 else 0)
  {
    var ks := Keys(names);
    if name in ks {
      var i :| 0 <= i < |ks| && ks[i] == name;
      forall k | 0 <= k < |names| && k != i
        ensures names[k].0 != name
      {
        assert ks[k] != ks[i];
      }
      BumpExisting(names, name, i);
    } else {
      BumpNew(names, name);
    }
  }

  /** A name not yet in the Map goes last with count 1. */
  lemma {:induction false} BumpNew(names: seq<(string, nat)>, name: string)
    requires forall k :: 0 <= k < |names| ==> names[k].0 != name
    ensures Bump(names, name) == names + [(name, 1)]
  {
    if names != [] {
      BumpNew(names[1..], name);
      assert names == [names[0]] + names[1..];
    }
  }

  /** A name already in the Map keeps its place and counts one more. */
  lemma {:induction false} BumpExisting(names: seq<(string, nat)>, name: string, i: nat)
    requires i < |names| && names[i].0 == name
    requires forall k :: 0 <= k < |names| && k != i ==> names[k].0 != name
    ensures Bump(names, name) == names[i := (name, names[i].1 + 1)]
  {
    if i > 0 {
      BumpExisting(names[1..], name, i - 1);
      assert names[i := (name, names[i].1 + 1)] == [names[0]] + names[1..][i - 1 := (name, names[i].1 + 1)];
    }
  }

  /** Counting the run in the names Map gives its distinct names in first-seen order, each with
      its number of occurrences. */
  lemma {:induction false} NameCountsFacts(run: seq<PlayByPlayEntry>)
    ensures Keys(NameCounts(run)) == FirstSeen(NamesOf(run))
    ensures forall k :: 0 <= k < |NameCounts(run)| ==>
      NameCounts(run)[k].1 == Occurrences(NamesOf(run), NameCounts(run)[k].0)
  {
    if run != [] {
      var prefix := run[..|run| - 1];
      var name := run[|run| - 1].name;
      NameCountsFacts(prefix);
      assert NamesOf(run) == NamesOf(prefix) + [name];
      NameCountsStep(NameCounts(prefix), name, NamesOf(prefix));
    }
  }

  /** The names Map of a list, counted from the Map of all but its last name. */
  lemma NameCountsStep(before: seq<(string, nat)>, name: string, names: seq<string>)
    requires Keys(before) == FirstSeen(names)
    requires forall k :: 0 <= k < |before| ==> before[k].1 == Occurrences(names, before[k].0)
    ensures Keys(Bump(before, name)) == FirstSeen(names + [name])
    ensures forall k :: 0 <= k < |Bump(before, name)| ==>
      Bump(before, name)[k].1 == Occurrences(names + [name], Bump(before, name)[k].0)
  {
    var all := names + [name];
    assert all[..|all| - 1] == names && all[|all| - 1] == name;
    BumpFacts(before, name);
    NameKeysStep(before, name, names);
    NameCountStep(before, name, names);
  }

  lemma NameKeysStep(before: seq<(string, nat)>, name: string, names: seq<string>)
    requires Distinct(Keys(before))
    requires name !in Keys(before) ==> Bump(before, name) == before + [(name, 1)]
    requires name in Keys(before) ==>
      |Bump(before, name)| == |before| &&
      forall k :: 0 <= k < |before| ==> Bump(before, name)[k].0 == before[k].0
    ensures Keys(Bump(before, name)) == if name in Keys(before) then Keys(before) else Keys(before) + [name]
  {
    if name !in Keys(before) {
      assert Keys(Bump(before, name)) == Keys(before) + [name];
    }
  }

  lemma NameCountStep(before: seq<(string, nat)>, name: string, names: seq<string>)
    requires Keys(before) == FirstSeen(names)
    requires forall k :: 0 <= k < |before| ==> before[k].1 == Occurrences(names, before[k].0)
    requires name !in Keys(before) ==> Bump(before, name) == before + [(name, 1)]
    requires name in Keys(before) ==>
      |Bump(before, name)| == |before| &&
      forall k :: 0 <= k < |before| ==>
        Bump(before, name)[k] == (before[k].0, before[k].1 + if before[k].0 == name then 1 else 0)
    ensures forall k :: 0 <= k < |Bump(before, name)| ==>
      Bump(before, name)[k].1 == Occurrences(names + [name], Bump(before, name)[k].0)
  {
    var all := names + [name];
    assert all[..|all| - 1] == names && all[|all| - 1] == name;
    var after := Bump(before, name);
    forall k | 0 <= k < |after|
      ensures after[k].1 == Occurrences(all, after[k].0)
    {
      if k < |before| {
        assert Keys(before)[k] == before[k].0;
        assert name !in Keys(before) ==> before[k].0 != name;
      } else {
        assert name !in names;
      }
    }
  }

  lemma {:induction false} TaskIdsOfAppend(a: seq<PlayByPlayEntry>, b: seq<PlayByPlayEntry>)
    ensures TaskIdsOf(a + b) == TaskIdsOf(a) + TaskIdsOf(b)
    decreases |b|
  {
    if b == [] {
      assert a + b == a;
    } else {
      assert (a + b)[..|a + b| - 1] == a + b[..|b| - 1];
      TaskIdsOfAppend(a, b[..|b| - 1]);
    }
  }

  /** mergeRun */
  method MergeRun(runAttribution: Attribution, run: seq<PlayByPlayEntry>) returns (entry: PlayByPlayEntry)
    ensures entry == Merged(runAttribution, run)
  {
    var taskIds := CollectTaskIds(run);
    var names := CountNames(run);
    var summarizedNames := SummarizeNames(names);
    NameCountsFacts(run);
    assert summarizedNames == Summaries(run);
    var mergedBreakdown := SumOfBreakdowns(BreakdownsOfRun(run));
    entry := PlayByPlayEntry(Join(summarizedNames, ", "), runAttribution, mergedBreakdown, taskIds);
  }

  /** mergeRun's first loop: the run's task ids, in order. */
  method CollectTaskIds(run: seq<PlayByPlayEntry>) returns (taskIds: seq<int>)
    ensures taskIds == TaskIdsOf(run)
  {
    taskIds := [];
    for i := 0 to |run|
      invariant taskIds == TaskIdsOf(run[..i])
    {
      assert run[..i + 1][..i] == run[..i];
      taskIds := taskIds + run[i].taskIds;
    }
    assert run[..|run|] == run;
  }

  /** mergeRun's second loop: the names Map. */
  method CountNames(run: seq<PlayByPlayEntry>) returns (names: seq<(string, nat)>)
    ensures names == NameCounts(run)
  {
    names := [];
    for i := 0 to |run|
      invariant names == NameCounts(run[..i])
    {
      assert run[..i + 1][..i] == run[..i];
      names := Bump(names, run[i].name);
    }
    assert run[..|run|] == run;
  }

  /** mergeRun's third loop: each name, with its count when it occurs more than once. */
  method SummarizeNames(names: seq<(string, nat)>) returns (summarizedNames: seq<string>)
    ensures |summarizedNames| == |names|
    ensures forall j :: 0 <= j < |names| ==> summarizedNames[j] == Summarize(names[j].0, names[j].1)
  {
    summarizedNames := [];
    for k := 0 to |names|
      invariant |summarizedNames| == k
      invariant forall j :: 0 <= j < k ==> summarizedNames[j] == Summarize(names[j].0, names[j].1)
    {
      if names[k].1 == 1 {
        summarizedNames := summarizedNames + [names[k].0];
      } else {
        summarizedNames := summarizedNames + [names[k].0 + " (x" + NatToString(names[k].1) + ")"];
      }
    }
  }

  // simplifyPlayByPlay

  /** What decides whether two entries are in the same run. */
  function RunKey(e: PlayByPlayEntry): (Attribution, TaskCategory) {
    (e.attribution, Categorize(e.name))
  }

  /** The maximal runs of consecutive entries with equal keys. */
  function Runs<K(==)>(entries: seq<PlayByPlayEntry>, key: PlayByPlayEntry -> K): (g: seq<seq<PlayByPlayEntry>>)
    ensures |g| <= |entries| && (entries != [] ==> g != [])
    ensures forall k :: 0 <= k < |g| ==> g[k] != []
  {
    if entries == [] then []
    else
      var g := Runs(entries[..|entries| - 1], key);
      var e := entries[|entries| - 1];
      if g != [] && key(g[|g| - 1][0]) == key(e) then g[..|g| - 1] + [g[|g| - 1] + [e]]
      else g + [[e]]
  }

  function Flatten(g: seq<seq<PlayByPlayEntry>>): seq<PlayByPlayEntry> {
    if g == [] then [] else Flatten(g[..|g| - 1]) + g[|g| - 1]
  }

  /** Every entry of a run has the run's key. */
  ghost predicate UniformRuns<K>(g: seq<seq<PlayByPlayEntry>>, key: PlayByPlayEntry -> K)
  {
    forall k, j :: 0 <= k < |g| && 0 <= j < |g[k]| ==> key(g[k][j]) == key(g[k][0])
  }

  /** Neighbouring runs have different keys. */
  ghost predicate SeparatedRuns<K>(g: seq<seq<PlayByPlayEntry>>, key: PlayByPlayEntry -> K)
  {
    forall k :: 0 < k < |g| && g[k - 1] != [] && g[k] != [] ==> key(g[k - 1][0]) != key(g[k][0])
  }

  /** Runs of a list with one more entry: the last run grows or a new run starts. */
  lemma {:induction false} RunsSnoc<K>(prefix: seq<PlayByPlayEntry>, e: PlayByPlayEntry, key: PlayByPlayEntry -> K)
    ensures var g := Runs(prefix, key);
      Runs(prefix + [e], key) ==
        if g != [] && key(g[|g| - 1][0]) == key(e) then g[..|g| - 1] + [g[|g| - 1] + [e]] else g + [[e]]
  {
    assert (prefix + [e])[..|prefix|] == prefix;
  }

  /** The runs partition the list in order. */
  lemma {:induction false} RunsFlatten<K>(entries: seq<PlayByPlayEntry>, key: PlayByPlayEntry -> K)
    ensures Flatten(Runs(entries, key)) == entries
  {
    if entries != [] {
      var prefix := entries[..|entries| - 1];
      var e := entries[|entries| - 1];
      assert entries == prefix + [e];
      RunsFlatten(prefix, key);
      RunsSnoc(prefix, e, key);
      var g := Runs(prefix, key);
      var r := Runs(entries, key);
      if g != [] && key(g[|g| - 1][0]) == key(e) {
        assert r[..|r| - 1] == g[..|g| - 1];
        calc {
          Flatten(r);
          Flatten(g[..|g| - 1]) + (g[|g| - 1] + [e]);
          (Flatten(g[..|g| - 1]) + g[|g| - 1]) + [e];
          { assert g == g[..|g| - 1] + [g[|g| - 1]]; }
          Flatten(g) + [e];
        }
      } else {
        assert r[..|r| - 1] == g;
      }
    }
  }

  lemma {:induction false} RunsUniform<K>(entries: seq<PlayByPlayEntry>, key: PlayByPlayEntry -> K)
    ensures UniformRuns(Runs(entries, key), key)
  {
    if entries != [] {
      var prefix := entries[..|entries| - 1];
      var e := entries[|entries| - 1];
      assert entries == prefix + [e];
      RunsUniform(prefix, key);
      RunsSnoc(prefix, e, key);
      var g := Runs(prefix, key);
      if g != [] && key(g[|g| - 1][0]) == key(e) {
        UniformGrow(g, e, key);
      } else {
        UniformNew(g, e, key);
      }
    }
  }

  /** An entry with the last run's key extends that run and keeps the runs uniform. */
  lemma {:induction false} UniformGrow<K>(g: seq<seq<PlayByPlayEntry>>, e: PlayByPlayEntry, key: PlayByPlayEntry -> K)
    requires UniformRuns(g, key) && g != [] && g[|g| - 1] != [] && key(g[|g| - 1][0]) == key(e)
    ensures UniformRuns(g[..|g| - 1] + [g[|g| - 1] + [e]], key)
  {
    var last := g[|g| - 1];
    var r := g[..|g| - 1] + [last + [e]];
    forall k, j | 0 <= k < |r| && 0 <= j < |r[k]|
      ensures key(r[k][j]) == key(r[k][0])
    {
      if k < |g| - 1 {
        assert r[k] == g[k];
      } else if j < |last| {
        assert r[k][j] == last[j] && r[k][0] == last[0];
      } else {
        assert r[k][j] == e && r[k][0] == last[0];
      }
    }
  }

  /** An entry starting a new run keeps the runs uniform. */
  lemma {:induction false} UniformNew<K>(g: seq<seq<PlayByPlayEntry>>, e: PlayByPlayEntry, key: PlayByPlayEntry -> K)
    requires UniformRuns(g, key)
    ensures UniformRuns(g + [[e]], key)
  {
    var r := g + [[e]];
    forall k, j | 0 <= k < |r| && 0 <= j < |r[k]|
      ensures key(r[k][j]) == key(r[k][0])
    {
      if k < |g| {
        assert r[k] == g[k];
      }
    }
  }

  lemma {:induction false} RunsSeparated<K>(entries: seq<PlayByPlayEntry>, key: PlayByPlayEntry -> K)
    ensures SeparatedRuns(Runs(entries, key), key)
  {
    if entries != [] {
      var prefix := entries[..|entries| - 1];
      var e := entries[|entries| - 1];
      assert entries == prefix + [e];
      RunsSeparated(prefix, key);
      RunsSnoc(prefix, e, key);
      var g := Runs(prefix, key);
      var r := Runs(entries, key);
      forall k | 0 < k < |r| && r[k - 1] != [] && r[k] != []
        ensures key(r[k - 1][0]) != key(r[k][0])
      {
        assert r[k - 1] == g[k - 1];
        if k < |g| {
          assert r[k][0] == g[k][0];
        }
      }
    }
  }

  /** The merged entry of every run, in order. */
  function MergeAll(g: seq<seq<PlayByPlayEntry>>): (r: seq<PlayByPlayEntry>)
    requires forall k :: 0 <= k < |g| ==> g[k] != []
    ensures |r| == |g|
  {
    seq(|g|, k requires 0 <= k < |g| => Merged(g[k][0].attribution, g[k]))
  }

  /** simplifyPlayByPlay: lists shorter than two are returned as they are; longer ones become
      one merged entry per maximal run. */
  function Simplify(entries: seq<PlayByPlayEntry>): (r: seq<PlayByPlayEntry>)
    ensures |r| <= |entries|
  {
    if |entries| < 2 then entries else MergeAll(Runs(entries, RunKey))
  }

  lemma {:induction false} MergeAllTaskIds(g: seq<seq<PlayByPlayEntry>>)
    requires forall k :: 0 <= k < |g| ==> g[k] != []
    ensures TaskIdsOf(MergeAll(g)) == TaskIdsOf(Flatten(g))
  {
    if g != [] {
      var prefix := g[..|g| - 1];
      MergeAllTaskIds(prefix);
      assert MergeAll(g)[..|g| - 1] == MergeAll(prefix);
      TaskIdsOfAppend(Flatten(prefix), g[|g| - 1]);
    }
  }

  /** Simplification keeps every task id in order, gives each merged entry the sum of its run's
      breakdowns and the run's attribution, and never leaves two neighbouring entries from runs
      with the same attribution and category. */
  lemma {:induction false} SimplifyFacts(entries: seq<PlayByPlayEntry>)
    ensures TaskIdsOf(Simplify(entries)) == TaskIdsOf(entries)
    ensures |entries| >= 2 ==>
      var g := Runs(entries, RunKey);
      Flatten(g) == entries && UniformRuns(g, RunKey) && SeparatedRuns(g, RunKey) &&
      forall k :: 0 <= k < |g| ==>
        Simplify(entries)[k].attribution == g[k][0].attribution &&
        Simplify(entries)[k].breakdown == Sum(BreakdownsOfRun(g[k]))
  {
    RunsFlatten(entries, RunKey);
    RunsUniform(entries, RunKey);
    RunsSeparated(entries, RunKey);
    if |entries| >= 2 {
      MergeAllTaskIds(Runs(entries, RunKey));
    }
  }

  lemma {:induction false} MergeAllSnoc(g: seq<seq<PlayByPlayEntry>>)
    requires g != [] && forall k :: 0 <= k < |g| ==> g[k] != []
    ensures MergeAll(g) == MergeAll(g[..|g| - 1]) + [Merged(g[|g| - 1][0].attribution, g[|g| - 1])]
  {
  }

  /** The state of simplifyPlayByPlay's loop after `prefix`: `run` is the last run so far,
      `simplified` the merged earlier runs, and the run's attribution and category are known
      once an entry has been seen. */
  ghost predicate SimplifyState(prefix: seq<PlayByPlayEntry>, simplified: seq<PlayByPlayEntry>,
    run: seq<PlayByPlayEntry>, runAttribution: Option<Attribution>, runCategory: Option<TaskCategory>)
  {
    if prefix == [] then
      run == [] && runAttribution.None? && runCategory.None? && simplified == []
    else
      var g := Runs(prefix, RunKey);
      run == g[|g| - 1] && simplified == MergeAll(g[..|g| - 1]) &&
      runAttribution == Some(run[0].attribution) && runCategory == Some(Categorize(run[0].name))
  }

  lemma {:induction false} PrefixSnoc(entries: seq<PlayByPlayEntry>, i: nat)
    requires i < |entries|
    ensures entries[..i + 1] == entries[..i] + [entries[i]]
  {
  }

  lemma {:induction false} SimplifyStateFirst(e: PlayByPlayEntry)
    ensures SimplifyState([e], [], [e], Some(e.attribution), Some(Categorize(e.name)))
  {
    RunsSnoc([], e, RunKey);
    assert [] + [e] == [e];
  }

  /** An entry with the run's key extends the run. */
  lemma {:induction false} SimplifyStateSameKey(prefix: seq<PlayByPlayEntry>, simplified: seq<PlayByPlayEntry>,
    run: seq<PlayByPlayEntry>, runAttribution: Option<Attribution>, runCategory: Option<TaskCategory>,
    e: PlayByPlayEntry)
    requires prefix != [] && SimplifyState(prefix, simplified, run, runAttribution, runCategory)
    requires runAttribution == Some(e.attribution) && runCategory == Some(Categorize(e.name))
    ensures SimplifyState(prefix + [e], simplified, run + [e], runAttribution, runCategory)
  {
    var g := Runs(prefix, RunKey);
    assert g != [] && run == g[|g| - 1];
    assert RunKey(run[0]) == RunKey(e);
    RunsSnoc(prefix, e, RunKey);
    var r := Runs(prefix + [e], RunKey);
    assert r == g[..|g| - 1] + [run + [e]];
    assert r[..|r| - 1] == g[..|g| - 1] && r[|r| - 1] == run + [e] && (run + [e])[0] == run[0];
  }

  /** An entry with another key closes the run, which is merged, and starts a new one. */
  lemma {:induction false} SimplifyStateNewKey(prefix: seq<PlayByPlayEntry>, simplified: seq<PlayByPlayEntry>,
    run: seq<PlayByPlayEntry>, runAttribution: Option<Attribution>, runCategory: Option<TaskCategory>,
    e: PlayByPlayEntry)
    requires prefix != [] && SimplifyState(prefix, simplified, run, runAttribution, runCategory)
    requires runAttribution != Some(e.attribution) || runCategory != Some(Categorize(e.name))
    ensures SimplifyState(prefix + [e], simplified + [Merged(runAttribution.value, run)], [e],
      Some(e.attribution), Some(Categorize(e.name)))
  {
    var g := Runs(prefix, RunKey);
    RunsSnoc(prefix, e, RunKey);
    var r := Runs(prefix + [e], RunKey);
    assert r[..|r| - 1] == g;
    MergeAllSnoc(g);
  }

  /** After the whole list, merging the open run completes the simplification. */
  lemma {:induction false} SimplifyStateLast(entries: seq<PlayByPlayEntry>, simplified: seq<PlayByPlayEntry>,
    run: seq<PlayByPlayEntry>, runAttribution: Option<Attribution>, runCategory: Option<TaskCategory>)
    requires |entries| >= 2 && SimplifyState(entries, simplified, run, runAttribution, runCategory)
    ensures runAttribution.Some? && runCategory.Some?
    ensures simplified + [Merged(runAttribution.value, run)] == Simplify(entries)
  {
    MergeAllSnoc(Runs(entries, RunKey));
  }

  /** simplifyPlayByPlay */
  method SimplifyPlayByPlay(playByPlay: seq<PlayByPlayEntry>) returns (simplified: seq<PlayByPlayEntry>)
    ensures simplified == Simplify(playByPlay)
  {
    if |playByPlay| < 2 {
      return playByPlay;
    }
    simplified := [];
    var run: seq<PlayByPlayEntry> := [];
    var runAttribution: Option<Attribution> := None;
    var runCategory: Option<TaskCategory> := None;
    for i := 0 to |playByPlay|
      invariant SimplifyState(playByPlay[..i], simplified, run, runAttribution, runCategory)
    {
      var entry := playByPlay[i];
      PrefixSnoc(playByPlay, i);
      var entryCategory := Categorize(entry.name);
      if runAttribution.None? || runCategory.None? {
        // the first entry opens the first run
        SimplifyStateFirst(entry);
        run := [entry];
        runAttribution := Some(entry.attribution);
        runCategory := Some(entryCategory);
      } else if runAttribution.value == entry.attribution && runCategory.value == entryCategory {
        SimplifyStateSameKey(playByPlay[..i], simplified, run, runAttribution, runCategory, entry);
        run := run + [entry];
      } else {
        SimplifyStateNewKey(playByPlay[..i], simplified, run, runAttribution, runCategory, entry);
        var merged := MergeRun(runAttribution.value, run);
        simplified := simplified + [merged];
        run := [entry];
        runAttribution := Some(entry.attribution);
        runCategory := Some(entryCategory);
      }
    }
    assert playByPlay[..|playByPlay|] == playByPlay;
    SimplifyStateLast(playByPlay, simplified, run, runAttribution, runCategory);
    if runAttribution.Some? && runCategory.Some? {
      var merged := MergeRun(runAttribution.value, run);
      simplified := simplified + [merged];
    }
  }

  function SimplifyAllOne(t: Task): Task
    decreases t, 0
  {
    t.(children := SimplifyAll(t.children), meta := t.meta.(playByPlay := Simplify(t.meta.playByPlay)))
  }

  /** simplifyPlayByPlays: every play-by-play in the forest simplified. */
  function SimplifyAll(ts: seq<Task>): (r: seq<Task>)
    ensures |r| == |ts|
    decreases ts, 1
  {
    if ts == [] then [] else [SimplifyAllOne(ts[0])] + SimplifyAll(ts[1..])
  }

  /** simplifyPlayByPlays */
  method SimplifyPlayByPlays(tasks: seq<Task>) returns (out: seq<Task>)
    ensures out == SimplifyAll(tasks)
    decreases tasks, 1
  {
    out := [];
    for i := 0 to |tasks|
      invariant SimplifyAll(tasks) == out + SimplifyAll(tasks[i..])
    {
      assert tasks[i..][0] == tasks[i] && tasks[i..][1..] == tasks[i + 1..];
      var task := SimplifyTaskPlayByPlay(tasks[i]);
      assert out + ([task] + SimplifyAll(tasks[i + 1..])) == (out + [task]) + SimplifyAll(tasks[i + 1..]);
      out := out + [task];
    }
  }

  method SimplifyTaskPlayByPlay(task: Task) returns (out: Task)
    ensures out == SimplifyAllOne(task)
    decreases task, 0
  {
    var playByPlay := SimplifyPlayByPlay(task.meta.playByPlay);
    var children := SimplifyPlayByPlays(task.children);
    out := task.(children := children, meta := task.meta.(playByPlay := playByPlay));
  }

  /** addPlayByPlays: gather, then simplify. */
  method AddPlayByPlays(trace: Trace, selfOnly: Breakdown -> Breakdown)
    modifies trace
    ensures trace.tasks == SimplifyAll(Gather(old(trace.tasks), selfOnly))
    ensures trace.frameInfo == old(trace.frameInfo) && trace.attributionMap == old(trace.attributionMap)
  {
    var _, gathered := GatherPlayByPlays(trace.tasks, selfOnly);
    trace.tasks := SimplifyPlayByPlays(gathered);
  }
}
