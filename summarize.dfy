/** Summaries (src/analysis/summarize.ts): per-attribution cumulative statistics, the longest
    single instance per attribution and per-task statistics, gathered over the attribution
    roots, then sorted by total time and optionally filtered. JavaScript Maps keep their
    insertion order; they are modelled as lists of key/value pairs with distinct keys. */
module Summaries {
  import opened Wrappers
  import opened Attributions
  import opened Breakdowns
  import opened Tasks

  /** AttributionStatistics. `playByPlay`, `startTime` and `longestInstance` are absent from
      cumulative statistics until the longest instance is attached. */
  datatype Stats = Stats(
    attribution: Attribution,
    context: Context,
    breakdown: Breakdown,
    breakdownsByAttribution: map<Attribution, Breakdown>,
    taskIds: seq<int>,
    playByPlay: Option<seq<PlayByPlayEntry>>,
    startTime: Option<int>,
    longestInstance: Option<Stats>)

  // Lists without repeats

  ghost predicate NoDuplicates<T>(s: seq<T>) {
    forall i, j :: 0 <= i < j < |s| ==> s[i] != s[j]
  }

  /** `list` extended, item by item, with the items it does not yet include (the `includes`
      then `push` loops of accumulateStatistics). */
  function AppendNew<T(==)>(list: seq<T>, items: seq<T>): seq<T> {
    if items == [] then list
    else
      var r := AppendNew(list, items[..|items| - 1]);
      if items[|items| - 1] in r then r else r + [items[|items| - 1]]
  }

  /** The distinct elements of a list, in first-seen order. */
  function Dedup<T(==)>(s: seq<T>): seq<T> {
    AppendNew([], s)
  }

  /** Appending only new items keeps the list as a prefix, adds exactly the items, and adds
      no repeats. */
  lemma {:induction false} AppendNewFacts<T>(list: seq<T>, items: seq<T>)
    ensures var r := AppendNew(list, items);
      list <= r &&
      (forall x :: x in r <==> x in list || x in items) &&
      (NoDuplicates(list) ==> NoDuplicates(r))
  {
    if items != [] {
      var prefix := items[..|items| - 1];
      var last := items[|items| - 1];
      AppendNewFacts(list, prefix);
      assert items == prefix + [last];
      var r := AppendNew(list, prefix);
      assert forall x :: x in items <==> x in prefix || x == last;
      if last !in r {
        assert forall i :: 0 <= i < |r| ==> (r + [last])[i] == r[i];
      }
    }
  }

  /** The first occurrence of every element survives, so the result has no repeats. */
  lemma {:induction false} DedupFacts<T>(s: seq<T>)
    ensures (forall x :: x in Dedup(s) <==> x in s) && NoDuplicates(Dedup(s)) && |Dedup(s)| <= |s|
  {
    AppendNewFacts([], s);
    DedupLength(s);
  }

  lemma {:induction false} DedupLength<T>(s: seq<T>)
    ensures |AppendNew([], s)| <= |s|
  {
    if s != [] {
      DedupLength(s[..|s| - 1]);
    }
  }

  // JavaScript Maps

  /** `map.get(k)`. */
  function Find<K(==)>(m: seq<(K, Stats)>, k: K): (r: Option<Stats>)
    ensures r.None? <==> k !in Keys(m)
  {
    if m == [] then None else if m[0].0 == k then Some(m[0].1) else Find(m[1..], k)
  }

  /** `map.set(k, v)`: an existing key keeps its place, a new one goes last. */
  function Set<K(==)>(m: seq<(K, Stats)>, k: K, v: Stats): (r: seq<(K, Stats)>)
    ensures |r| >= |m|
  {
    if m == [] then [(k, v)]
    else if m[0].0 == k then [(k, v)] + m[1..]
    else [m[0]] + Set(m[1..], k, v)
  }

  /** `map.keys()`, in insertion order. */
  function Keys<K>(m: seq<(K, Stats)>): (r: seq<K>)
    ensures |r| == |m| && forall i :: 0 <= i < |m| ==> r[i] == m[i].0
  {
    if m == [] then [] else [m[0].0] + Keys(m[1..])
  }

  /** `map.values()`, in insertion order. */
  function Values<K>(m: seq<(K, Stats)>): (r: seq<Stats>)
    ensures |r| == |m| && forall i :: 0 <= i < |m| ==> r[i] == m[i].1
  {
    if m == [] then [] else [m[0].1] + Values(m[1..])
  }

  /** After `set`, the key maps to the new value, every other key to what it mapped to, and
      the key list grows by the key only when it is new. */
  /** A lookup after `map.set`. */
  lemma {:induction false} FindSet<K>(m: seq<(K, Stats)>, k: K, v: Stats, k': K)
    ensures Find(Set(m, k, v), k') == if k' == k then Some(v) else Find(m, k')
  {
    if m != [] {
      var r := Set(m, k, v);
      if m[0].0 == k {
        assert r[0] == (k, v) && r[1..] == m[1..];
      } else {
        assert r[0] == m[0] && r[1..] == Set(m[1..], k, v);
        FindSet(m[1..], k, v, k');
      }
    }
  }

  /** The keys after `map.set`: a new key goes last. */
  lemma {:induction false} KeysSet<K>(m: seq<(K, Stats)>, k: K, v: Stats)
    ensures Keys(Set(m, k, v)) == if k in Keys(m) then Keys(m) else Keys(m) + [k]
  {
    if m != [] {
      var r := Set(m, k, v);
      assert Keys(m) == [m[0].0] + Keys(m[1..]);
      if m[0].0 == k {
        assert r == [(k, v)] + m[1..];
        assert Keys(r) == [k] + Keys(m[1..]);
      } else {
        KeysSet(m[1..], k, v);
        assert r == [m[0]] + Set(m[1..], k, v);
        assert Keys(r) == [m[0].0] + Keys(Set(m[1..], k, v));
        assert k in Keys(m) <==> k in Keys(m[1..]);
      }
    }
  }

  lemma SetFacts<K>(m: seq<(K, Stats)>, k: K, v: Stats)
    ensures Find(Set(m, k, v), k) == Some(v)
    ensures forall k' :: k' != k ==> Find(Set(m, k, v), k') == Find(m, k')
    ensures Keys(Set(m, k, v)) == if k in Keys(m) then Keys(m) else Keys(m) + [k]
  {
    forall k' {
      FindSet(m, k, v, k');
    }
    KeysSet(m, k, v);
  }

  // The records of one task

  predicate IsRoot(t: Task) {
    t.meta.context.isAttributionRoot
  }

  /** The record of a single task, as the longest-instance and per-task maps store it. */
  function Instance(t: Task): (r: Stats)
    ensures r.breakdown == t.meta.breakdown && r.attribution == t.meta.attribution
  {
    Stats(t.meta.attribution, t.meta.context, t.meta.breakdown, t.meta.breakdownsByAttribution,
      [t.meta.taskId], Some(t.meta.playByPlay), Some(t.startTime), None)
  }

  /** The first cumulative record of an attribution: copies of the task's data. */
  function NewCumulative(t: Task): Stats {
    Stats(t.meta.attribution, t.meta.context, t.meta.breakdown, t.meta.breakdownsByAttribution,
      [t.meta.taskId], None, None, None)
  }

  /** mergeBreakdownsByAttribution: a per-key sum. */
  function MergeByAttribution(into: map<Attribution, Breakdown>, from: map<Attribution, Breakdown>)
    : (r: map<Attribution, Breakdown>)
    ensures r.Keys == into.Keys + from.Keys
  {
    map a | a in into.Keys + from.Keys ::
      if a in into && a in from then Add(from[a], into[a])
      else if a in into then into[a]
      else from[a]
  }

  /** accumulateStatistics: adds the task's breakdown, its new URLs, triggers and task id,
      and merges its breakdowns by attribution. */
  function Accumulate(stats: Stats, t: Task): Stats {
    var context := stats.context.(
      lighthouseAttributableURLs :=
        AppendNew(stats.context.lighthouseAttributableURLs, t.meta.context.lighthouseAttributableURLs),
      triggers := AppendNew(stats.context.triggers, t.meta.context.triggers));
    stats.(
      breakdown := Sum([stats.breakdown, t.meta.breakdown]),
      context := context,
      taskIds := AppendNew(stats.taskIds, [t.meta.taskId]),
      breakdownsByAttribution := MergeByAttribution(stats.breakdownsByAttribution, t.meta.breakdownsByAttribution))
  }

  /** accumulateStatistics */
  method AccumulateStatistics(stats: Stats, task: Task) returns (r: Stats)
    ensures r == Accumulate(stats, task)
  {
    var urls := stats.context.lighthouseAttributableURLs;
    var taskUrls := task.meta.context.lighthouseAttributableURLs;
    for i := 0 to |taskUrls|
      invariant urls == AppendNew(stats.context.lighthouseAttributableURLs, taskUrls[..i])
    {
      assert taskUrls[..i + 1][..i] == taskUrls[..i];
      if taskUrls[i] !in urls {
        urls := urls + [taskUrls[i]];
      }
    }
    assert taskUrls[..|taskUrls|] == taskUrls;
    var triggers := stats.context.triggers;
    var taskTriggers := task.meta.context.triggers;
    for i := 0 to |taskTriggers|
      invariant triggers == AppendNew(stats.context.triggers, taskTriggers[..i])
    {
      assert taskTriggers[..i + 1][..i] == taskTriggers[..i];
      if taskTriggers[i] !in triggers {
        triggers := triggers + [taskTriggers[i]];
      }
    }
    assert taskTriggers[..|taskTriggers|] == taskTriggers;
    var taskIds := stats.taskIds;
    if task.meta.taskId !in taskIds {
      taskIds := taskIds + [task.meta.taskId];
    }
    assert [task.meta.taskId][..0] == [];
    var breakdown := SumOfBreakdowns([stats.breakdown, task.meta.breakdown]);
    assert taskIds == AppendNew(stats.taskIds, [task.meta.taskId]);
    assert urls == AppendNew(stats.context.lighthouseAttributableURLs, task.meta.context.lighthouseAttributableURLs);
    assert triggers == AppendNew(stats.context.triggers, task.meta.context.triggers);
    r := stats.(
      breakdown := breakdown,
      context := stats.context.(lighthouseAttributableURLs := urls, triggers := triggers),
      taskIds := taskIds,
      breakdownsByAttribution := MergeByAttribution(stats.breakdownsByAttribution, task.meta.breakdownsByAttribution));
  }

  // gatherStatistics

  /** The three maps of gatherStatistics. */
  datatype Tables = Tables(
    cumulative: seq<(Attribution, Stats)>,
    longest: seq<(Attribution, Stats)>,
    byTask: seq<(int, Stats)>)

  function NoTables(): Tables {
    Tables([], [], [])
  }

  /** What gatherStatistics does for one task once its children are done: nothing unless the
      task is an attribution root; otherwise its cumulative record is created or accumulated,
      it replaces the longest instance when its total is strictly greater, and its per-task
      record is set. */
  function Record(s: Tables, t: Task): Tables {
    if !IsRoot(t) then s
    else
      var a := t.meta.attribution;
      var found := Find(s.cumulative, a);
      var cumulative := if found.None? then NewCumulative(t) else Accumulate(found.value, t);
      var longest := Find(s.longest, a);
      Tables(
        Set(s.cumulative, a, cumulative),
        if longest.None? || t.meta.breakdown.total > longest.value.breakdown.total
        then Set(s.longest, a, Instance(t)) else s.longest,
        Set(s.byTask, t.meta.taskId, Instance(t)))
  }

  function GatherOne(s: Tables, t: Task): Tables
    decreases t, 0
  {
    Record(Gather(s, t.children), t)
  }

  /** gatherStatistics: each task after its children, siblings in order. */
  function Gather(s: Tables, ts: seq<Task>): Tables
    decreases ts, 1
  {
    if ts == [] then s else Gather(GatherOne(s, ts[0]), ts[1..])
  }

  /** Every task of a forest, each after its descendants, siblings in order. */
  function PostOrder(ts: seq<Task>): seq<Task>
    decreases ts
  {
    if ts == [] then [] else PostOrder(ts[0].children) + [ts[0]] + PostOrder(ts[1..])
  }

  /** Record applied to every task of a list, in order. */
  function RecordAll(s: Tables, list: seq<Task>): Tables {
    if list == [] then s else Record(RecordAll(s, list[..|list| - 1]), list[|list| - 1])
  }

  lemma {:induction false} RecordAllAppend(s: Tables, a: seq<Task>, b: seq<Task>)
    ensures RecordAll(s, a + b) == RecordAll(RecordAll(s, a), b)
  {
    if b == [] {
      assert a + b == a;
    } else {
      assert (a + b)[..|a + b| - 1] == a + b[..|b| - 1];
      RecordAllAppend(s, a, b[..|b| - 1]);
    }
  }

  /** gatherStatistics visits the tasks in post-order. */
  lemma {:induction false} GatherIsPostOrder(s: Tables, ts: seq<Task>)
    ensures Gather(s, ts) == RecordAll(s, PostOrder(ts))
    decreases ts
  {
    if ts != [] {
      var t := ts[0];
      GatherIsPostOrder(s, t.children);
      var s1 := GatherOne(s, t);
      GatherIsPostOrder(s1, ts[1..]);
      RecordAllAppend(s, PostOrder(t.children) + [t], PostOrder(ts[1..]));
      RecordAllAppend(s, PostOrder(t.children), [t]);
      assert [t][..0] == [];
    }
  }

  // What the maps hold

  /** The attribution roots of a list with the given attribution, in order. */
  function RootsWith(list: seq<Task>, a: Attribution): seq<Task> {
    if list == [] then []
    else
      var t := list[|list| - 1];
      RootsWith(list[..|list| - 1], a) + (if IsRoot(t) && t.meta.attribution == a then [t] else [])
  }

  /** The attribution roots of a list with the given task id, in order. */
  function RootsWithId(list: seq<Task>, id: int): seq<Task> {
    if list == [] then []
    else
      var t := list[|list| - 1];
      RootsWithId(list[..|list| - 1], id) + (if IsRoot(t) && t.meta.taskId == id then [t] else [])
  }

  /** The attributions of the roots of a list, in order. */
  function RootAttributions(list: seq<Task>): seq<Attribution> {
    if list == [] then []
    else
      var t := list[|list| - 1];
      RootAttributions(list[..|list| - 1]) + (if IsRoot(t) then [t.meta.attribution] else [])
  }

  /** The task ids of the roots of a list, in order. */
  function RootTaskIds(list: seq<Task>): seq<int> {
    if list == [] then []
    else
      var t := list[|list| - 1];
      RootTaskIds(list[..|list| - 1]) + (if IsRoot(t) then [t.meta.taskId] else [])
  }

  /** The cumulative record built from a non-empty list of roots with one attribution. */
  function CumulativeOf(roots: seq<Task>): Stats
    requires roots != []
  {
    if |roots| == 1 then NewCumulative(roots[0])
    else Accumulate(CumulativeOf(roots[..|roots| - 1]), roots[|roots| - 1])
  }

  /** The index of the longest of a non-empty list of roots: a later one wins only by a
      strictly greater total. */
  function LongestIndex(roots: seq<Task>): (j: nat)
    requires roots != []
    ensures j < |roots|
  {
    if |roots| == 1 then 0
    else
      var j := LongestIndex(roots[..|roots| - 1]);
      if roots[|roots| - 1].meta.breakdown.total > roots[j].meta.breakdown.total then |roots| - 1 else j
  }

  function LongestOf(roots: seq<Task>): Task
    requires roots != []
  {
    roots[LongestIndex(roots)]
  }

  lemma {:induction false} RecordAllSnoc(list: seq<Task>)
    requires list != []
    ensures RecordAll(NoTables(), list) ==
      Record(RecordAll(NoTables(), list[..|list| - 1]), list[|list| - 1])
  {
  }

  /** The cumulative map holds, for each attribution of a root, the accumulation of exactly
      the roots with that attribution, in order. */
  lemma {:induction false} CumulativeMapSpec(list: seq<Task>, a: Attribution)
    ensures var roots := RootsWith(list, a);
      Find(RecordAll(NoTables(), list).cumulative, a) ==
        (if roots == [] then None else Some(CumulativeOf(roots)))
  {
    if list != [] {
      var prefix := list[..|list| - 1];
      var t := list[|list| - 1];
      CumulativeMapSpec(prefix, a);
      var s := RecordAll(NoTables(), prefix);
      RecordAllSnoc(list);
      var r := RecordAll(NoTables(), list);
      assert r == Record(s, t);
      if !IsRoot(t) {
        assert RootsWith(list, a) == RootsWith(prefix, a);
      } else {
        var b := t.meta.attribution;
        var roots := RootsWith(prefix, a);
        assert RootsWith(list, a) == if b == a then roots + [t] else roots;
        CumulativeStep(s.cumulative, t, a, roots);
      }
    }
  }

  /** One root recorded in the cumulative map. */
  lemma {:induction false} CumulativeStep(m: seq<(Attribution, Stats)>, t: Task, a: Attribution, roots: seq<Task>)
    requires Find(m, a) == (if roots == [] then None else Some(CumulativeOf(roots)))
    ensures var b := t.meta.attribution;
      var found := Find(m, b);
      var m' := Set(m, b, if found.None? then NewCumulative(t) else Accumulate(found.value, t));
      var roots' := if b == a then roots + [t] else roots;
      Find(m', a) == (if roots' == [] then None else Some(CumulativeOf(roots')))
  {
    var b := t.meta.attribution;
    var found := Find(m, b);
    FindSet(m, b, if found.None? then NewCumulative(t) else Accumulate(found.value, t), a);
    if b == a && roots != [] {
      assert (roots + [t])[..|roots|] == roots;
    } else if b == a {
      assert roots + [t] == [t];
    }
  }

  /** The longest-instance map holds, for each attribution of a root, the record of the
      longest root with that attribution. */
  lemma {:induction false} LongestMapSpec(list: seq<Task>, a: Attribution)
    ensures var roots := RootsWith(list, a);
      Find(RecordAll(NoTables(), list).longest, a) ==
        (if roots == [] then None else Some(Instance(LongestOf(roots))))
  {
    if list != [] {
      var prefix := list[..|list| - 1];
      var t := list[|list| - 1];
      LongestMapSpec(prefix, a);
      var s := RecordAll(NoTables(), prefix);
      RecordAllSnoc(list);
      var r := RecordAll(NoTables(), list);
      assert r == Record(s, t);
      var roots := RootsWith(prefix, a);
      if !IsRoot(t) {
        assert RootsWith(list, a) == roots;
      } else {
        var b := t.meta.attribution;
        assert RootsWith(list, a) == if b == a then roots + [t] else roots;
        LongestStep(s.longest, t, a, roots);
      }
    }
  }

  /** One root recorded in the longest-instance map. */
  lemma {:induction false} LongestStep(m: seq<(Attribution, Stats)>, t: Task, a: Attribution, roots: seq<Task>)
    requires Find(m, a) == (if roots == [] then None else Some(Instance(LongestOf(roots))))
    ensures var b := t.meta.attribution;
      var longest := Find(m, b);
      var m' := if longest.None? || t.meta.breakdown.total > longest.value.breakdown.total
                then Set(m, b, Instance(t)) else m;
      var roots' := if b == a then roots + [t] else roots;
      Find(m', a) == (if roots' == [] then None else Some(Instance(LongestOf(roots'))))
  {
    var b := t.meta.attribution;
    FindSet(m, b, Instance(t), a);
    if b == a && roots != [] {
      LongestOfSnoc(roots, t);
    } else if b == a {
      assert roots + [t] == [t];
    }
  }

  /** The longest of a list with one more root: the new one only when strictly longer. */
  lemma {:induction false} LongestOfSnoc(roots: seq<Task>, t: Task)
    requires roots != []
    ensures LongestOf(roots + [t]) ==
      if t.meta.breakdown.total > LongestOf(roots).meta.breakdown.total then t else LongestOf(roots)
  {
    var r := roots + [t];
    assert r[..|roots|] == roots;
    assert LongestIndex(r) ==
      if t.meta.breakdown.total > roots[LongestIndex(roots)].meta.breakdown.total
      then |roots| else LongestIndex(roots);
  }

  /** The per-task map sends each root's task id to the record of the last root with that
      id (the only one when ids are distinct). */
  lemma {:induction false} TaskMapSpec(list: seq<Task>, id: int)
    ensures var roots := RootsWithId(list, id);
      Find(RecordAll(NoTables(), list).byTask, id) ==
        (if roots == [] then None else Some(Instance(roots[|roots| - 1])))
  {
    if list != [] {
      var prefix := list[..|list| - 1];
      var t := list[|list| - 1];
      TaskMapSpec(prefix, id);
      var s := RecordAll(NoTables(), prefix);
      RecordAllSnoc(list);
      ByTaskStep(s, t, id);
      var roots := RootsWithId(prefix, id);
      var newRoots := RootsWithId(list, id);
      assert newRoots == roots + (if IsRoot(t) && t.meta.taskId == id then [t] else []);
      if IsRoot(t) && t.meta.taskId == id {
        assert newRoots[|newRoots| - 1] == t;
      } else {
        assert newRoots == roots;
      }
    }
  }

  /** Recording one task touches the per-task map only at a root's own id. */
  lemma {:induction false} ByTaskStep(s: Tables, t: Task, id: int)
    ensures Find(Record(s, t).byTask, id) ==
      if IsRoot(t) && t.meta.taskId == id then Some(Instance(t)) else Find(s.byTask, id)
  {
    if IsRoot(t) {
      FindSet(s.byTask, t.meta.taskId, Instance(t), id);
    }
  }

  /** The keys of the two attribution maps are the distinct attributions of the roots, and
      those of the per-task map the distinct task ids of the roots, each in first-seen order:
      only roots contribute, and both attribution maps are updated for every root. */
  lemma {:induction false} KeysSpec(list: seq<Task>)
    ensures var s := RecordAll(NoTables(), list);
      Keys(s.cumulative) == Dedup(RootAttributions(list)) &&
      Keys(s.longest) == Dedup(RootAttributions(list)) &&
      Keys(s.byTask) == Dedup(RootTaskIds(list))
  {
    if list != [] {
      var prefix := list[..|list| - 1];
      var t := list[|list| - 1];
      KeysSpec(prefix);
      var s := RecordAll(NoTables(), prefix);
      RecordAllSnoc(list);
      var r := RecordAll(NoTables(), list);
      assert r == Record(s, t);
      if !IsRoot(t) {
        assert RootAttributions(list) == RootAttributions(prefix);
        assert RootTaskIds(list) == RootTaskIds(prefix);
      } else {
        var b := t.meta.attribution;
        var found := Find(s.cumulative, b);
        var cumulative := if found.None? then NewCumulative(t) else Accumulate(found.value, t);
        var longest := Find(s.longest, b);
        var replace := longest.None? || t.meta.breakdown.total > longest.value.breakdown.total;
        assert r.cumulative == Set(s.cumulative, b, cumulative);
        assert r.longest == if replace then Set(s.longest, b, Instance(t)) else s.longest;
        assert r.byTask == Set(s.byTask, t.meta.taskId, Instance(t));
        SetFacts(s.cumulative, b, cumulative);
        SetFacts(s.longest, b, Instance(t));
        SetFacts(s.byTask, t.meta.taskId, Instance(t));
        var attrs := RootAttributions(prefix);
        assert RootAttributions(list) == attrs + [b];
        assert (attrs + [b])[..|attrs|] == attrs;
        var ids := RootTaskIds(prefix);
        assert RootTaskIds(list) == ids + [t.meta.taskId];
        assert (ids + [t.meta.taskId])[..|ids|] == ids;
      }
    }
  }

  /** The breakdowns of a list of tasks, in order. */
  function BreakdownsOf(roots: seq<Task>): (r: seq<Breakdown>)
    ensures |r| == |roots| && forall i :: 0 <= i < |roots| ==> r[i] == roots[i].meta.breakdown
  {
    seq(|roots|, i requires 0 <= i < |roots| => roots[i].meta.breakdown)
  }

  /** The task ids of a list of tasks, in order. */
  function TaskIdsOf(roots: seq<Task>): (r: seq<int>)
    ensures |r| == |roots| && forall i :: 0 <= i < |roots| ==> r[i] == roots[i].meta.taskId
  {
    seq(|roots|, i requires 0 <= i < |roots| => roots[i].meta.taskId)
  }

  /** The URLs of a list of tasks, concatenated in order. */
  function UrlsOf(roots: seq<Task>): seq<string> {
    if roots == [] then []
    else UrlsOf(roots[..|roots| - 1]) + roots[|roots| - 1].meta.context.lighthouseAttributableURLs
  }

  /** The triggers of a list of tasks, concatenated in order. */
  function TriggersOf(roots: seq<Task>): seq<string> {
    if roots == [] then []
    else TriggersOf(roots[..|roots| - 1]) + roots[|roots| - 1].meta.context.triggers
  }

  /** Appending new items in two batches is appending them in one. */
  lemma {:induction false} AppendNewAppend<T>(list: seq<T>, a: seq<T>, b: seq<T>)
    ensures AppendNew(AppendNew(list, a), b) == AppendNew(list, a + b)
  {
    if b == [] {
      assert a + b == a;
    } else {
      var b' := b[..|b| - 1];
      AppendNewAppend(list, a, b');
      assert (a + b)[..|a + b| - 1] == a + b';
      assert (a + b)[|a + b| - 1] == b[|b| - 1];
    }
  }

  /** A cumulative record carries the first root's attribution, the sum of the roots'
      breakdowns and their distinct task ids in first-seen order. */
  lemma {:induction false} CumulativeTotals(roots: seq<Task>)
    requires roots != []
    ensures var c := CumulativeOf(roots);
      c.attribution == roots[0].meta.attribution &&
      c.breakdown == Sum(BreakdownsOf(roots)) &&
      c.taskIds == Dedup(TaskIdsOf(roots))
  {
    CumulativeAttribution(roots);
    CumulativeBreakdown(roots);
    CumulativeTaskIds(roots);
  }

  lemma {:induction false} CumulativeAttribution(roots: seq<Task>)
    requires roots != []
    ensures CumulativeOf(roots).attribution == roots[0].meta.attribution
  {
    if |roots| > 1 {
      CumulativeAttribution(roots[..|roots| - 1]);
    }
  }

  lemma {:induction false} CumulativeBreakdown(roots: seq<Task>)
    requires roots != []
    ensures CumulativeOf(roots).breakdown == Sum(BreakdownsOf(roots))
  {
    var b := roots[0].meta.breakdown;
    if |roots| == 1 {
      assert BreakdownsOf(roots) == [b];
      assert Sum([b]) == Add(b, ZeroBreakdown());
    } else {
      var prefix := roots[..|roots| - 1];
      var t := roots[|roots| - 1];
      CumulativeBreakdown(prefix);
      var p := CumulativeOf(prefix);
      assert BreakdownsOf(roots) == BreakdownsOf(prefix) + [t.meta.breakdown];
      assert (BreakdownsOf(prefix) + [t.meta.breakdown])[..|prefix|] == BreakdownsOf(prefix);
      SumPair(p.breakdown, t.meta.breakdown);
      assert Add(p.breakdown, t.meta.breakdown) == Add(t.meta.breakdown, p.breakdown);
    }
  }

  lemma {:induction false} CumulativeTaskIds(roots: seq<Task>)
    requires roots != []
    ensures CumulativeOf(roots).taskIds == Dedup(TaskIdsOf(roots))
  {
    if |roots| == 1 {
      var id := roots[0].meta.taskId;
      assert TaskIdsOf(roots) == [id];
      assert [id][..0] == [];
      assert Dedup([id]) == AppendNew([], []) + [id];
    } else {
      var prefix := roots[..|roots| - 1];
      var t := roots[|roots| - 1];
      CumulativeTaskIds(prefix);
      assert TaskIdsOf(roots) == TaskIdsOf(prefix) + [t.meta.taskId];
      AppendNewAppend([], TaskIdsOf(prefix), [t.meta.taskId]);
    }
  }

  /** A cumulative record holds the first root's URLs and triggers followed by those of the
      later roots it did not yet hold, in order; so it holds exactly the roots' URLs and
      triggers, and no repeats when the first root has none. */
  lemma {:induction false} CumulativeContext(roots: seq<Task>)
    requires roots != []
    ensures var c := CumulativeOf(roots);
      var first := roots[0].meta.context;
      c.context.lighthouseAttributableURLs == AppendNew(first.lighthouseAttributableURLs, UrlsOf(roots[1..])) &&
      c.context.triggers == AppendNew(first.triggers, TriggersOf(roots[1..])) &&
      c.context.isTopLevel == first.isTopLevel
  {
    if |roots| > 1 {
      var prefix := roots[..|roots| - 1];
      var t := roots[|roots| - 1];
      CumulativeContext(prefix);
      var p := CumulativeOf(prefix);
      assert prefix[0] == roots[0];
      var rest := roots[1..];
      assert rest[..|rest| - 1] == prefix[1..] && rest[|rest| - 1] == t;
      var first := roots[0].meta.context;
      AppendNewAppend(first.lighthouseAttributableURLs, UrlsOf(prefix[1..]), t.meta.context.lighthouseAttributableURLs);
      AppendNewAppend(first.triggers, TriggersOf(prefix[1..]), t.meta.context.triggers);
    }
  }

  /** The longest root is the first one with the greatest total. */
  lemma {:induction false} LongestIsFirstMaximum(roots: seq<Task>)
    requires roots != []
    ensures var j := LongestIndex(roots);
      (forall k :: 0 <= k < |roots| ==> roots[k].meta.breakdown.total <= roots[j].meta.breakdown.total) &&
      (forall k :: 0 <= k < j ==> roots[k].meta.breakdown.total < roots[j].meta.breakdown.total)
  {
    if |roots| > 1 {
      var prefix := roots[..|roots| - 1];
      LongestIsFirstMaximum(prefix);
      assert forall k :: 0 <= k < |prefix| ==> prefix[k] == roots[k];
    }
  }

  /** The three maps of gatherStatistics, filled in place. */
  class StatisticsMaps {
    var cumulativeStatsMap: seq<(Attribution, Stats)>
    var longestDurationStatsMap: seq<(Attribution, Stats)>
    var taskStatsMap: seq<(int, Stats)>

    function State(): Tables
      reads this
    {
      Tables(cumulativeStatsMap, longestDurationStatsMap, taskStatsMap)
    }

    constructor ()
      ensures State() == NoTables()
    {
      cumulativeStatsMap := [];
      longestDurationStatsMap := [];
      taskStatsMap := [];
    }

    /** The body of gatherStatistics' loop for one task, after its children. */
    method RecordTask(task: Task)
      modifies this
      ensures State() == Record(old(State()), task)
    {
      if !task.meta.context.isAttributionRoot {
        return;
      }
      var attribution := task.meta.attribution;
      var cumulativeStats := Find(cumulativeStatsMap, attribution);
      if cumulativeStats.None? {
        cumulativeStatsMap := Set(cumulativeStatsMap, attribution, NewCumulative(task));
      } else {
        var accumulated := AccumulateStatistics(cumulativeStats.value, task);
        cumulativeStatsMap := Set(cumulativeStatsMap, attribution, accumulated);
      }
      var longestDurationStats := Find(longestDurationStatsMap, attribution);
      if longestDurationStats.None? ||
         task.meta.breakdown.total > longestDurationStats.value.breakdown.total {
        longestDurationStatsMap := Set(longestDurationStatsMap, attribution, Instance(task));
      }
      taskStatsMap := Set(taskStatsMap, task.meta.taskId, Instance(task));
    }
  }

  /** gatherStatistics */
  method GatherStatistics(maps: StatisticsMaps, tasks: seq<Task>)
    modifies maps
    ensures maps.State() == Gather(old(maps.State()), tasks)
    decreases tasks
  {
    ghost var start := maps.State();
    for i := 0 to |tasks|
      invariant Gather(start, tasks) == Gather(maps.State(), tasks[i..])
    {
      assert tasks[i..][0] == tasks[i] && tasks[i..][1..] == tasks[i + 1..];
      GatherStatistics(maps, tasks[i].children);
      maps.RecordTask(tasks[i]);
    }
    assert tasks[|tasks|..] == [];
  }

  // createSummary

  /** The cumulative statistics with the longest instance of each attached. */
  function AttachLongest(cumulative: seq<(Attribution, Stats)>, longest: seq<(Attribution, Stats)>)
    : (r: seq<(Attribution, Stats)>)
    ensures |r| == |cumulative|
  {
    seq(|cumulative|, i requires 0 <= i < |cumulative| =>
      var found := Find(longest, cumulative[i].0);
      (cumulative[i].0,
       if found.Some? then cumulative[i].1.(longestInstance := found) else cumulative[i].1))
  }

  /** The loop attaching longest instances. */
  method AttachLongestInstances(cumulative: seq<(Attribution, Stats)>, longest: seq<(Attribution, Stats)>)
    returns (r: seq<(Attribution, Stats)>)
    ensures r == AttachLongest(cumulative, longest)
  {
    r := [];
    for i := 0 to |cumulative|
      invariant r == AttachLongest(cumulative[..i], longest)
    {
      var (attr, stats) := cumulative[i];
      var longestDurationStats := Find(longest, attr);
      if longestDurationStats.Some? {
        stats := stats.(longestInstance := longestDurationStats);
      }
      r := r + [(attr, stats)];
    }
    assert cumulative[..|cumulative|] == cumulative;
  }

  /** A list in non-increasing order of total time. */
  ghost predicate ByTotalDescending(s: seq<Stats>) {
    forall i, j :: 0 <= i < j < |s| ==> s[i].breakdown.total >= s[j].breakdown.total
  }

  /** Places `x` after every element whose total is not smaller. */
  function InsertByTotal(x: Stats, s: seq<Stats>): (r: seq<Stats>)
    ensures multiset(r) == multiset(s) + multiset{x}
  {
    if s == [] then [x]
    else if s[0].breakdown.total >= x.breakdown.total then
      assert s == [s[0]] + s[1..];
      [s[0]] + InsertByTotal(x, s[1..])
    else [x] + s
  }

  /** The comparator `b.breakdown.total - a.breakdown.total`: largest total first, equal
      totals in their original order. */
  function SortByTotal(s: seq<Stats>): (r: seq<Stats>)
    ensures multiset(r) == multiset(s)
  {
    if s == [] then []
    else
      assert s == s[..|s| - 1] + [s[|s| - 1]];
      InsertByTotal(s[|s| - 1], SortByTotal(s[..|s| - 1]))
  }

  lemma {:induction false} InsertKeepsOrder(x: Stats, s: seq<Stats>)
    requires ByTotalDescending(s)
    ensures ByTotalDescending(InsertByTotal(x, s))
  {
    if s != [] && s[0].breakdown.total >= x.breakdown.total {
      InsertKeepsOrder(x, s[1..]);
      var rest := InsertByTotal(x, s[1..]);
      InsertBounded(x, s[1..], s[0].breakdown.total);
      var r := [s[0]] + rest;
      forall i, j | 0 <= i < j < |r|
        ensures r[i].breakdown.total >= r[j].breakdown.total
      {
        assert r[j] == rest[j - 1];
        if i > 0 {
          assert r[i] == rest[i - 1];
        }
      }
    }
  }

  /** Inserting below a bound every element already keeps to keeps the list under it. */
  lemma {:induction false} InsertBounded(x: Stats, s: seq<Stats>, bound: int)
    requires x.breakdown.total <= bound
    requires forall i :: 0 <= i < |s| ==> s[i].breakdown.total <= bound
    ensures forall i :: 0 <= i < |InsertByTotal(x, s)| ==> InsertByTotal(x, s)[i].breakdown.total <= bound
  {
    var r := InsertByTotal(x, s);
    forall i | 0 <= i < |r|
      ensures r[i].breakdown.total <= bound
    {
      assert r[i] in multiset(r);
      if r[i] != x {
        assert r[i] in multiset(s);
        var j :| 0 <= j < |s| && s[j] == r[i];
      }
    }
  }

  /** The sort orders by non-increasing total and keeps every element. */
  lemma {:induction false} SortByTotalSorts(s: seq<Stats>)
    ensures ByTotalDescending(SortByTotal(s)) && multiset(SortByTotal(s)) == multiset(s)
  {
    if s != [] {
      SortByTotalSorts(s[..|s| - 1]);
      InsertKeepsOrder(s[|s| - 1], SortByTotal(s[..|s| - 1]));
    }
  }

  /** SummaryOptions: an empty pattern counts as absent. */
  datatype SummaryOptions = SummaryOptions(scriptUrlPattern: Option<string>, topLevelOnly: bool)

  /** filterStats */
  predicate KeepStats(options: SummaryOptions, stats: Stats) {
    (TruthyString(options.scriptUrlPattern) ==>
       IsAttributedTo(stats.attribution, stats.context, options.scriptUrlPattern.value, None)) &&
    (options.topLevelOnly ==> stats.context.isTopLevel)
  }

  /** `list.filter(filterStats)` */
  function SelectStats(options: SummaryOptions, s: seq<Stats>): seq<Stats> {
    if s == [] then []
    else (if KeepStats(options, s[0]) then [s[0]] else []) + SelectStats(options, s[1..])
  }

  /** The listings are filtered only when a pattern or topLevelOnly is given. */
  function FilterStats(options: SummaryOptions, s: seq<Stats>): seq<Stats> {
    if TruthyString(options.scriptUrlPattern) || options.topLevelOnly then SelectStats(options, s) else s
  }

  /** `a` lists some of the elements of `b`, in their order in `b`. */
  ghost predicate Subsequence(a: seq<Stats>, b: seq<Stats>)
    decreases b
  {
    if a == [] then true
    else if b == [] then false
    else (a[0] == b[0] && Subsequence(a[1..], b[1..])) || Subsequence(a, b[1..])
  }

  lemma {:induction false} SubsequenceOrder(a: seq<Stats>, b: seq<Stats>)
    requires Subsequence(a, b) && ByTotalDescending(b)
    ensures ByTotalDescending(a) && forall x :: x in a ==> x in b
    decreases b
  {
    if a != [] && b != [] {
      if a[0] == b[0] && Subsequence(a[1..], b[1..]) {
        assert ByTotalDescending(b[1..]) by {
          forall i, j | 0 <= i < j < |b[1..]|
            ensures b[1..][i].breakdown.total >= b[1..][j].breakdown.total
          {
            assert b[1..][i] == b[i + 1] && b[1..][j] == b[j + 1];
          }
        }
        SubsequenceOrder(a[1..], b[1..]);
        forall i, j | 0 <= i < j < |a|
          ensures a[i].breakdown.total >= a[j].breakdown.total
        {
          assert a[j] == a[1..][j - 1];
          assert a[j] in b[1..];
          var k :| 0 <= k < |b[1..]| && b[1..][k] == a[j];
          assert b[k + 1] == a[j];
          if i > 0 {
            assert a[i] == a[1..][i - 1];
          }
        }
        forall x | x in a
          ensures x in b
        {
          if x != a[0] {
            assert x in a[1..];
          }
        }
      } else {
        assert ByTotalDescending(b[1..]) by {
          forall i, j | 0 <= i < j < |b[1..]|
            ensures b[1..][i].breakdown.total >= b[1..][j].breakdown.total
          {
            assert b[1..][i] == b[i + 1] && b[1..][j] == b[j + 1];
          }
        }
        SubsequenceOrder(a, b[1..]);
      }
    }
  }

  /** Filtering keeps, in order, exactly the elements filterStats accepts. */
  lemma {:induction false} SelectStatsFacts(options: SummaryOptions, s: seq<Stats>)
    ensures Subsequence(SelectStats(options, s), s)
    ensures forall x :: x in SelectStats(options, s) <==> x in s && KeepStats(options, x)
  {
    if s != [] {
      SelectStatsFacts(options, s[1..]);
      var rest := SelectStats(options, s[1..]);
      assert forall x :: x in s <==> x == s[0] || x in s[1..];
      if KeepStats(options, s[0]) {
        assert ([s[0]] + rest)[1..] == rest;
      } else {
        assert SelectStats(options, s) == rest;
      }
    }
  }

  /** Summary; byTimelineBuckets is always empty and left out. */
  datatype Summary = Summary(
    byCumulativeDuration: seq<Stats>,
    byLongestInstanceDuration: seq<Stats>,
    byTaskDuration: seq<Stats>)

  /** createSummary on a forest. */
  function SummaryOf(tasks: seq<Task>, options: SummaryOptions): Summary {
    var s := Gather(NoTables(), tasks);
    var cumulative := AttachLongest(s.cumulative, s.longest);
    Summary(
      FilterStats(options, SortByTotal(Values(cumulative))),
      FilterStats(options, SortByTotal(Values(s.longest))),
      FilterStats(options, SortByTotal(Values(s.byTask))))
  }

  /** createSummary */
  method CreateSummary(trace: Trace, options: SummaryOptions) returns (summary: Summary)
    ensures summary == SummaryOf(trace.tasks, options)
  {
    var maps := new StatisticsMaps();
    GatherStatistics(maps, trace.tasks);
    var cumulative := AttachLongestInstances(maps.cumulativeStatsMap, maps.longestDurationStatsMap);
    var byCumulativeDuration := SortByTotal(Values(cumulative));
    var byLongestInstanceDuration := SortByTotal(Values(maps.longestDurationStatsMap));
    var byTaskDuration := SortByTotal(Values(maps.taskStatsMap));
    if TruthyString(options.scriptUrlPattern) || options.topLevelOnly {
      byCumulativeDuration := SelectStats(options, byCumulativeDuration);
      byLongestInstanceDuration := SelectStats(options, byLongestInstanceDuration);
      byTaskDuration := SelectStats(options, byTaskDuration);
    }
    summary := Summary(byCumulativeDuration, byLongestInstanceDuration, byTaskDuration);
  }

  /** A listing: sorted, then filtered. */
  lemma {:induction false} ListingFacts(options: SummaryOptions, s: seq<Stats>)
    ensures ByTotalDescending(FilterStats(options, SortByTotal(s)))
    ensures forall x :: x in FilterStats(options, SortByTotal(s)) <==>
      x in s && (TruthyString(options.scriptUrlPattern) || options.topLevelOnly ==> KeepStats(options, x))
  {
    SortByTotalSorts(s);
    var sorted := SortByTotal(s);
    assert forall x :: x in sorted <==> x in multiset(sorted);
    assert forall x :: x in s <==> x in multiset(s);
    if TruthyString(options.scriptUrlPattern) || options.topLevelOnly {
      SelectStatsFacts(options, sorted);
      SubsequenceOrder(SelectStats(options, sorted), sorted);
    }
  }

  /** Every listing is in non-increasing order of total and holds exactly the records of its
      map that the filter accepts. */
  lemma {:induction false} SummaryListings(tasks: seq<Task>, options: SummaryOptions)
    ensures var summary := SummaryOf(tasks, options);
      ByTotalDescending(summary.byCumulativeDuration) &&
      ByTotalDescending(summary.byLongestInstanceDuration) &&
      ByTotalDescending(summary.byTaskDuration)
    ensures var s := Gather(NoTables(), tasks);
      var filtered := TruthyString(options.scriptUrlPattern) || options.topLevelOnly;
      (forall x :: x in SummaryOf(tasks, options).byLongestInstanceDuration <==>
        x in Values(s.longest) && (filtered ==> KeepStats(options, x))) &&
      (forall x :: x in SummaryOf(tasks, options).byTaskDuration <==>
        x in Values(s.byTask) && (filtered ==> KeepStats(options, x)))
  {
    var s := Gather(NoTables(), tasks);
    ListingFacts(options, Values(AttachLongest(s.cumulative, s.longest)));
    ListingFacts(options, Values(s.longest));
    ListingFacts(options, Values(s.byTask));
  }

  /** Every cumulative record carries the longest instance of its attribution: the record of
      the first root with the greatest total among the roots with that attribution. */
  lemma {:induction false} LongestAttached(tasks: seq<Task>)
    ensures var s := Gather(NoTables(), tasks);
      var cumulative := AttachLongest(s.cumulative, s.longest);
      forall i :: 0 <= i < |cumulative| ==>
        var roots := RootsWith(PostOrder(tasks), cumulative[i].0);
        roots != [] && cumulative[i].1.longestInstance == Some(Instance(LongestOf(roots)))
  {
    var s := Gather(NoTables(), tasks);
    var cumulative := AttachLongest(s.cumulative, s.longest);
    GatherIsPostOrder(NoTables(), tasks);
    KeysSpec(PostOrder(tasks));
    forall i | 0 <= i < |cumulative|
      ensures var roots := RootsWith(PostOrder(tasks), cumulative[i].0);
        roots != [] && cumulative[i].1.longestInstance == Some(Instance(LongestOf(roots)))
    {
      var a := s.cumulative[i].0;
      assert cumulative[i].0 == a;
      assert a in Keys(s.cumulative);
      assert a in Keys(s.longest);
      LongestMapSpec(PostOrder(tasks), a);
    }
  }

  /** Filtering with topLevelOnly drops every record that is not top-level. */
  lemma {:induction false} SelectNothingTopLevel(options: SummaryOptions, s: seq<Stats>)
    requires options.topLevelOnly
    requires forall i :: 0 <= i < |s| ==> !s[i].context.isTopLevel
    ensures SelectStats(options, s) == []
  {
    if s != [] {
      SelectNothingTopLevel(options, s[1..]);
    }
  }

  /** No task is marked top-level by the attribution pass, so asking for top-level entries only
      empties every listing. */
  lemma {:induction false} TopLevelOnlyEmptiesListings(pattern: Option<string>, s: seq<Stats>)
    requires forall i :: 0 <= i < |s| ==> !s[i].context.isTopLevel
    ensures FilterStats(SummaryOptions(pattern, true), SortByTotal(s)) == []
  {
    var sorted := SortByTotal(s);
    forall i | 0 <= i < |sorted|
      ensures !sorted[i].context.isTopLevel
    {
      assert sorted[i] in multiset(s);
      var k :| 0 <= k < |s| && s[k] == sorted[i];
    }
    SelectNothingTopLevel(SummaryOptions(pattern, true), sorted);
  }

  /** A post-order walk visits the same tasks as a pre-order one. */
  lemma {:induction false} PostOrderPermutesPreOrder(ts: seq<Task>)
    ensures multiset(PostOrder(ts)) == multiset(PreOrder(ts))
    decreases ts
  {
    if ts != [] {
      PostOrderPermutesPreOrder(ts[0].children);
      PostOrderPermutesPreOrder(ts[1..]);
    }
  }

  /** No record of a map is top-level. */
  ghost predicate NoTopLevel<K>(m: seq<(K, Stats)>) {
    forall i :: 0 <= i < |m| ==> !m[i].1.context.isTopLevel
  }

  lemma {:induction false} FindNoTopLevel<K>(m: seq<(K, Stats)>, k: K)
    requires NoTopLevel(m)
    ensures Find(m, k).Some? ==> !Find(m, k).value.context.isTopLevel
  {
    if m != [] && m[0].0 != k {
      FindNoTopLevel(m[1..], k);
    }
  }

  lemma {:induction false} SetNoTopLevel<K>(m: seq<(K, Stats)>, k: K, v: Stats)
    requires NoTopLevel(m) && !v.context.isTopLevel
    ensures NoTopLevel(Set(m, k, v))
  {
    if m != [] && m[0].0 != k {
      SetNoTopLevel(m[1..], k, v);
    }
  }

  /** Records take their context from tasks, so tasks that are not top-level give maps with
      no top-level record. */
  lemma {:induction false} RecordAllNoTopLevel(list: seq<Task>)
    requires forall i :: 0 <= i < |list| ==> !list[i].meta.context.isTopLevel
    ensures var s := RecordAll(NoTables(), list);
      NoTopLevel(s.cumulative) && NoTopLevel(s.longest) && NoTopLevel(s.byTask)
  {
    if list != [] {
      var prefix := list[..|list| - 1];
      var t := list[|list| - 1];
      RecordAllNoTopLevel(prefix);
      var s := RecordAll(NoTables(), prefix);
      RecordAllSnoc(list);
      if IsRoot(t) {
        var b := t.meta.attribution;
        var found := Find(s.cumulative, b);
        FindNoTopLevel(s.cumulative, b);
        var cumulative := if found.None? then NewCumulative(t) else Accumulate(found.value, t);
        SetNoTopLevel(s.cumulative, b, cumulative);
        SetNoTopLevel(s.longest, b, Instance(t));
        SetNoTopLevel(s.byTask, t.meta.taskId, Instance(t));
      }
    }
  }

  /** The attribution pass marks no task top-level, so with topLevelOnly the summary is empty. */
  lemma {:induction false} TopLevelOnlyEmptiesSummary(tasks: seq<Task>, pattern: Option<string>)
    requires forall i :: 0 <= i < |PreOrder(tasks)| ==> !PreOrder(tasks)[i].meta.context.isTopLevel
    ensures SummaryOf(tasks, SummaryOptions(pattern, true)) == Summary([], [], [])
  {
    var list := PostOrder(tasks);
    PostOrderPermutesPreOrder(tasks);
    forall i | 0 <= i < |list|
      ensures !list[i].meta.context.isTopLevel
    {
      assert list[i] in multiset(PreOrder(tasks));
      var k :| 0 <= k < |PreOrder(tasks)| && PreOrder(tasks)[k] == list[i];
    }
    GatherIsPostOrder(NoTables(), tasks);
    RecordAllNoTopLevel(list);
    var s := Gather(NoTables(), tasks);
    var cumulative := AttachLongest(s.cumulative, s.longest);
    assert NoTopLevel(cumulative);
    TopLevelOnlyEmptiesListings(pattern, Values(cumulative));
    TopLevelOnlyEmptiesListings(pattern, Values(s.longest));
    TopLevelOnlyEmptiesListings(pattern, Values(s.byTask));
  }
}
