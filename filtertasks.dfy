/** Mark-and-sweep task filtering (src/analysis/filterTasks.ts). A filter judges each task;
    marking records on every task whether it survives, and sweeping drops the tasks marked
    false, together with their subtrees. The filter also learns whether the task has a parent,
    which the source reads from `task.parent`; here the walk passes it down (top-level tasks
    have none). */
module Filtering {
  import opened Wrappers
  import opened Attributions
  import opened Tasks

  /** A TaskFilterResult; an absent optional field reads as false. */
  datatype FilterResult = FilterResult(
    keepTask: bool,
    keepDescendants: bool,
    keepSiblings: bool,
    keepSiblingDescendants: bool)

  /** A filter, given the task and whether it has a parent. */
  type TaskFilter = (Task, bool) -> FilterResult

  // markTasks

  /** Some sibling asks for its siblings, or its siblings' descendants, to be kept. */
  predicate KeepSiblings(ts: seq<Task>, filter: TaskFilter, hasParent: bool) {
    exists i :: 0 <= i < |ts| &&
      (filter(ts[i], hasParent).keepSiblings || filter(ts[i], hasParent).keepSiblingDescendants)
  }

  /** Some sibling asks for its siblings' descendants to be kept. */
  predicate KeepSiblingDescendants(ts: seq<Task>, filter: TaskFilter, hasParent: bool) {
    exists i :: 0 <= i < |ts| && filter(ts[i], hasParent).keepSiblingDescendants
  }

  /** Whether some task of the list is marked to be kept. */
  function KeptAny(ts: seq<Task>): (b: bool)
    ensures b <==> exists i :: 0 <= i < |ts| && ts[i].meta.filterMark == Some(true)
  {
    if ts == [] then false
    else
      var rest := KeptAny(ts[1..]);
      assert forall i :: 1 <= i < |ts| ==> ts[i] == ts[1..][i - 1];
      ts[0].meta.filterMark == Some(true) || rest
  }

  function MarkOne(t: Task, filter: TaskFilter, hasParent: bool, keptByAncestor: bool,
    keepSiblings: bool, keepSiblingDescendants: bool): Task
    decreases t, 0
  {
    var result := filter(t, hasParent);
    var children := Mark(t.children, filter, true,
      keptByAncestor || keepSiblingDescendants || result.keepDescendants);
    var mark := keptByAncestor || result.keepTask || KeptAny(children) || keepSiblings;
    t.(children := children, meta := t.meta.(filterMark := Some(mark)))
  }

  function MarkEach(ts: seq<Task>, filter: TaskFilter, hasParent: bool, keptByAncestor: bool,
    keepSiblings: bool, keepSiblingDescendants: bool): (r: seq<Task>)
    ensures |r| == |ts|
    decreases ts, 1
  {
    if ts == [] then []
    else
      [MarkOne(ts[0], filter, hasParent, keptByAncestor, keepSiblings, keepSiblingDescendants)] +
      MarkEach(ts[1..], filter, hasParent, keptByAncestor, keepSiblings, keepSiblingDescendants)
  }

  /** markTasks on a sibling list: the sibling flags are computed over the whole list first,
      then every task is marked, its children first. */
  function Mark(ts: seq<Task>, filter: TaskFilter, hasParent: bool, keptByAncestor: bool): (r: seq<Task>)
    ensures |r| == |ts|
    decreases ts, 2
  {
    MarkEach(ts, filter, hasParent, keptByAncestor,
      KeepSiblings(ts, filter, hasParent), KeepSiblingDescendants(ts, filter, hasParent))
  }

  lemma {:induction false} MarkEachAt(ts: seq<Task>, filter: TaskFilter, hasParent: bool,
    keptByAncestor: bool, keepSiblings: bool, keepSiblingDescendants: bool, i: nat)
    requires i < |ts|
    ensures MarkEach(ts, filter, hasParent, keptByAncestor, keepSiblings, keepSiblingDescendants)[i] ==
      MarkOne(ts[i], filter, hasParent, keptByAncestor, keepSiblings, keepSiblingDescendants)
    decreases ts
  {
    if i > 0 {
      MarkEachAt(ts[1..], filter, hasParent, keptByAncestor, keepSiblings, keepSiblingDescendants, i - 1);
    }
  }

  /** The marking rule: a task is marked true exactly when an ancestor keeps it, the filter
      keeps it, one of its children is marked, or a sibling asks for siblings to be kept; its
      children are marked with keptByAncestor widened by the sibling-descendant flag and the
      task's own keepDescendants. */
  lemma {:induction false} MarkRule(ts: seq<Task>, filter: TaskFilter, hasParent: bool, keptByAncestor: bool, i: nat)
    requires i < |ts|
    ensures var m := Mark(ts, filter, hasParent, keptByAncestor)[i];
      var result := filter(ts[i], hasParent);
      m.children == Mark(ts[i].children, filter, true,
        keptByAncestor || KeepSiblingDescendants(ts, filter, hasParent) || result.keepDescendants) &&
      m.meta.filterMark.Some? &&
      (m.meta.filterMark.value <==>
        keptByAncestor || result.keepTask ||
        (exists j :: 0 <= j < |m.children| && m.children[j].meta.filterMark == Some(true)) ||
        KeepSiblings(ts, filter, hasParent))
  {
    MarkEachAt(ts, filter, hasParent, keptByAncestor,
      KeepSiblings(ts, filter, hasParent), KeepSiblingDescendants(ts, filter, hasParent), i);
  }

  /** Every task of the forest is marked true. */
  ghost predicate AllMarked(ts: seq<Task>)
    decreases ts
  {
    forall i :: 0 <= i < |ts| ==> ts[i].meta.filterMark == Some(true) && AllMarked(ts[i].children)
  }

  /** Every task of the forest carries a mark. */
  ghost predicate AllDecided(ts: seq<Task>)
    decreases ts
  {
    forall i :: 0 <= i < |ts| ==> ts[i].meta.filterMark.Some? && AllDecided(ts[i].children)
  }

  /** A task with a child marked true is itself marked true. */
  ghost predicate MarksClosed(ts: seq<Task>)
    decreases ts
  {
    forall i :: 0 <= i < |ts| ==>
      (KeptAny(ts[i].children) ==> ts[i].meta.filterMark == Some(true)) && MarksClosed(ts[i].children)
  }

  /** Under a kept ancestor, every task and every descendant is marked true. */
  lemma {:induction false} KeptByAncestorMarksAll(ts: seq<Task>, filter: TaskFilter, hasParent: bool)
    ensures AllMarked(Mark(ts, filter, hasParent, true))
    decreases ts
  {
    var m := Mark(ts, filter, hasParent, true);
    forall i | 0 <= i < |ts|
      ensures m[i].meta.filterMark == Some(true) && AllMarked(m[i].children)
    {
      MarkRule(ts, filter, hasParent, true, i);
      KeptByAncestorMarksAll(ts[i].children, filter, true);
    }
  }

  /** Marking decides every task, and a task with a marked descendant is marked: the kept set
      is closed under ancestors. */
  lemma {:induction false} MarkIsClosed(ts: seq<Task>, filter: TaskFilter, hasParent: bool, keptByAncestor: bool)
    ensures AllDecided(Mark(ts, filter, hasParent, keptByAncestor))
    ensures MarksClosed(Mark(ts, filter, hasParent, keptByAncestor))
    decreases ts
  {
    var m := Mark(ts, filter, hasParent, keptByAncestor);
    forall i | 0 <= i < |ts|
      ensures m[i].meta.filterMark.Some? && AllDecided(m[i].children)
      ensures (KeptAny(m[i].children) ==> m[i].meta.filterMark == Some(true)) && MarksClosed(m[i].children)
    {
      MarkRule(ts, filter, hasParent, keptByAncestor, i);
      var result := filter(ts[i], hasParent);
      MarkIsClosed(ts[i].children, filter, true,
        keptByAncestor || KeepSiblingDescendants(ts, filter, hasParent) || result.keepDescendants);
    }
  }

  /** Two forests that differ only in their filter marks. */
  ghost predicate SameExceptMarks(a: seq<Task>, b: seq<Task>)
    decreases a
  {
    |a| == |b| &&
    forall i :: 0 <= i < |a| ==>
      b[i] == a[i].(children := b[i].children, meta := a[i].meta.(filterMark := b[i].meta.filterMark)) &&
      SameExceptMarks(a[i].children, b[i].children)
  }

  /** Marking writes marks and nothing else. */
  lemma {:induction false} MarkChangesOnlyMarks(ts: seq<Task>, filter: TaskFilter, hasParent: bool, keptByAncestor: bool)
    ensures SameExceptMarks(ts, Mark(ts, filter, hasParent, keptByAncestor))
    decreases ts
  {
    var m := Mark(ts, filter, hasParent, keptByAncestor);
    forall i | 0 <= i < |ts|
      ensures m[i] == ts[i].(children := m[i].children, meta := ts[i].meta.(filterMark := m[i].meta.filterMark))
      ensures SameExceptMarks(ts[i].children, m[i].children)
    {
      MarkRule(ts, filter, hasParent, keptByAncestor, i);
      MarkEachAt(ts, filter, hasParent, keptByAncestor,
        KeepSiblings(ts, filter, hasParent), KeepSiblingDescendants(ts, filter, hasParent), i);
      var result := filter(ts[i], hasParent);
      MarkChangesOnlyMarks(ts[i].children, filter, true,
        keptByAncestor || KeepSiblingDescendants(ts, filter, hasParent) || result.keepDescendants);
    }
  }

  /** The first loop of markTasks: it stops early once both flags are set. */
  method ScanSiblings(tasks: seq<Task>, filter: TaskFilter, hasParent: bool)
    returns (keepSiblings: bool, keepSiblingDescendants: bool)
    ensures keepSiblings == KeepSiblings(tasks, filter, hasParent)
    ensures keepSiblingDescendants == KeepSiblingDescendants(tasks, filter, hasParent)
  {
    keepSiblings := false;
    keepSiblingDescendants := false;
    var i := 0;
    while i < |tasks|
      invariant 0 <= i <= |tasks|
      invariant keepSiblings == KeepSiblings(tasks[..i], filter, hasParent)
      invariant keepSiblingDescendants == KeepSiblingDescendants(tasks[..i], filter, hasParent)
    {
      assert forall j :: 0 <= j < i ==> tasks[..i + 1][j] == tasks[..i][j];
      assert tasks[..i + 1][i] == tasks[i];
      var filterResult := filter(tasks[i], hasParent);
      keepSiblings := keepSiblings || filterResult.keepSiblings || filterResult.keepSiblingDescendants;
      keepSiblingDescendants := keepSiblingDescendants || filterResult.keepSiblingDescendants;
      i := i + 1;
      if keepSiblings && keepSiblingDescendants {
        // both flags are already true over the whole list
        assert tasks[..i][i - 1] == tasks[i - 1];
        assert forall j :: 0 <= j < i ==> tasks[j] == tasks[..i][j];
        break;
      }
    }
    if i == |tasks| {
      assert tasks[..i] == tasks;
    }
  }

  /** markTasks: marks the list and returns whether some task of it was marked true. */
  method MarkTasks(tasks: seq<Task>, filter: TaskFilter, hasParent: bool, keptByAncestor: bool)
    returns (keptAny: bool, out: seq<Task>)
    ensures out == Mark(tasks, filter, hasParent, keptByAncestor)
    ensures keptAny == KeptAny(out)
    decreases tasks, 1
  {
    var keepSiblings, keepSiblingDescendants := ScanSiblings(tasks, filter, hasParent);
    keptAny := false;
    out := [];
    ghost var all := MarkEach(tasks, filter, hasParent, keptByAncestor, keepSiblings, keepSiblingDescendants);
    assert tasks[0..] == tasks;
    for i := 0 to |tasks|
      invariant all == out + MarkEach(tasks[i..], filter, hasParent, keptByAncestor, keepSiblings, keepSiblingDescendants)
      invariant keptAny == KeptAny(out)
    {
      var marked := MarkTask(tasks[i], filter, hasParent, keptByAncestor, keepSiblings, keepSiblingDescendants);
      MarkEachStep(tasks, i, out, filter, hasParent, keptByAncestor, keepSiblings, keepSiblingDescendants);
      KeptAnySnoc(out, marked);
      keptAny := keptAny || marked.meta.filterMark == Some(true);
      out := out + [marked];
    }
  }

  lemma {:induction false} MarkEachStep(tasks: seq<Task>, i: nat, out: seq<Task>, filter: TaskFilter, hasParent: bool,
    keptByAncestor: bool, keepSiblings: bool, keepSiblingDescendants: bool)
    requires i < |tasks|
    ensures out + MarkEach(tasks[i..], filter, hasParent, keptByAncestor, keepSiblings, keepSiblingDescendants) ==
      (out + [MarkOne(tasks[i], filter, hasParent, keptByAncestor, keepSiblings, keepSiblingDescendants)]) +
      MarkEach(tasks[i + 1..], filter, hasParent, keptByAncestor, keepSiblings, keepSiblingDescendants)
  {
    assert tasks[i..][0] == tasks[i] && tasks[i..][1..] == tasks[i + 1..];
  }

  lemma {:induction false} KeptAnySnoc(ts: seq<Task>, t: Task)
    ensures KeptAny(ts + [t]) == (KeptAny(ts) || t.meta.filterMark == Some(true))
  {
    assert (ts + [t])[|ts|] == t;
    assert forall j :: 0 <= j < |ts| ==> (ts + [t])[j] == ts[j];
  }

  /** The body of markTasks' second loop for one task. */
  method MarkTask(task: Task, filter: TaskFilter, hasParent: bool, keptByAncestor: bool,
    keepSiblings: bool, keepSiblingDescendants: bool) returns (out: Task)
    ensures out == MarkOne(task, filter, hasParent, keptByAncestor, keepSiblings, keepSiblingDescendants)
    decreases task, 0
  {
    var filterResult := filter(task, hasParent);
    var keepDescendants := keptByAncestor || keepSiblingDescendants || filterResult.keepDescendants;
    var keptDescendant, children := MarkTasks(task.children, filter, true, keepDescendants);
    var filterMark := keptByAncestor || filterResult.keepTask || keptDescendant || keepSiblings;
    out := task.(children := children, meta := task.meta.(filterMark := Some(filterMark)));
  }

  // sweepTasks

  /** A task survives the sweep unless its mark is false. */
  predicate Survives(t: Task) {
    t.meta.filterMark != Some(false)
  }

  /** `a` lists some of the elements of `b`, in their order in `b`. */
  ghost predicate Subsequence(a: seq<Task>, b: seq<Task>)
    decreases b
  {
    if a == [] then true
    else if b == [] then false
    else (a[0] == b[0] && Subsequence(a[1..], b[1..])) || Subsequence(a, b[1..])
  }

  /** `tasks.filter(...)`: the surviving tasks, in order. */
  function SurvivingTasks(ts: seq<Task>): (r: seq<Task>)
    ensures forall t :: t in r <==> t in ts && Survives(t)
    ensures Subsequence(r, ts)
  {
    if ts == [] then []
    else
      var rest := SurvivingTasks(ts[1..]);
      assert forall t :: t in ts <==> t == ts[0] || t in ts[1..];
      if Survives(ts[0]) then
        assert ([ts[0]] + rest)[1..] == rest;
        [ts[0]] + rest
      else rest
  }

  function SweepOne(t: Task): Task
    decreases t, 0
  {
    t.(children := Sweep(t.children), meta := t.meta.(filterMark := None))
  }

  /** sweepTasks: the surviving tasks in order, each with its mark deleted and its children
      swept. */
  function Sweep(ts: seq<Task>): seq<Task>
    decreases ts, 1
  {
    if ts == [] then []
    else (if Survives(ts[0]) then [SweepOne(ts[0])] else []) + Sweep(ts[1..])
  }

  /** The second loop of sweepTasks over the survivors. */
  function SweepEach(kept: seq<Task>): (r: seq<Task>)
    ensures |r| == |kept|
  {
    if kept == [] then [] else [SweepOne(kept[0])] + SweepEach(kept[1..])
  }

  /** Sweeping is filtering the survivors and then sweeping each of them. */
  lemma {:induction false} SweepIsSurvivorsSwept(ts: seq<Task>)
    ensures Sweep(ts) == SweepEach(SurvivingTasks(ts))
  {
    if ts != [] {
      SweepIsSurvivorsSwept(ts[1..]);
    }
  }

  /** No task of the forest carries a mark. */
  ghost predicate Unmarked(ts: seq<Task>)
    decreases ts
  {
    forall i :: 0 <= i < |ts| ==> ts[i].meta.filterMark.None? && Unmarked(ts[i].children)
  }

  lemma {:induction false} SweepAt(ts: seq<Task>, i: nat)
    requires i < |Sweep(ts)|
    ensures exists j :: 0 <= j < |ts| && Survives(ts[j]) && Sweep(ts)[i] == SweepOne(ts[j])
    decreases ts
  {
    if Survives(ts[0]) && i == 0 {
      assert Sweep(ts)[0] == SweepOne(ts[0]);
    } else {
      var k := if Survives(ts[0]) then i - 1 else i;
      assert Sweep(ts)[i] == Sweep(ts[1..])[k];
      SweepAt(ts[1..], k);
      var j :| 0 <= j < |ts[1..]| && Survives(ts[1..][j]) && Sweep(ts[1..])[k] == SweepOne(ts[1..][j]);
      assert ts[1..][j] == ts[j + 1];
    }
  }

  /** Sweeping deletes every mark in what it keeps. */
  lemma {:induction false} SweepClearsMarks(ts: seq<Task>)
    ensures Unmarked(Sweep(ts))
    decreases ts
  {
    var r := Sweep(ts);
    forall i | 0 <= i < |r|
      ensures r[i].meta.filterMark.None? && Unmarked(r[i].children)
    {
      SweepAt(ts, i);
      var j :| 0 <= j < |ts| && Survives(ts[j]) && r[i] == SweepOne(ts[j]);
      SweepClearsMarks(ts[j].children);
    }
  }

  /** A task reduced to what filtering must not change: everything but its children and mark. */
  function Strip(t: Task): Task {
    t.(children := [], meta := t.meta.(filterMark := None))
  }

  function Strips(ts: seq<Task>): (r: seq<Task>)
    ensures |r| == |ts|
  {
    if ts == [] then [] else [Strip(ts[0])] + Strips(ts[1..])
  }

  lemma {:induction false} StripsAppend(a: seq<Task>, b: seq<Task>)
    ensures Strips(a + b) == Strips(a) + Strips(b)
  {
    if a != [] {
      assert (a + b)[1..] == a[1..] + b;
      StripsAppend(a[1..], b);
    } else {
      assert a + b == b;
    }
  }

  /** The tasks of a list marked true, in order. */
  function MarkedOnly(ts: seq<Task>): seq<Task> {
    if ts == [] then []
    else (if ts[0].meta.filterMark == Some(true) then [ts[0]] else []) + MarkedOnly(ts[1..])
  }

  lemma {:induction false} MarkedOnlyAppend(a: seq<Task>, b: seq<Task>)
    ensures MarkedOnly(a + b) == MarkedOnly(a) + MarkedOnly(b)
  {
    if a != [] {
      assert (a + b)[1..] == a[1..] + b;
      MarkedOnlyAppend(a[1..], b);
    } else {
      assert a + b == b;
    }
  }

  /** In a forest with closed marks, a task not marked true has no descendant marked true. */
  lemma {:induction false} NoMarkedBelow(ts: seq<Task>)
    requires MarksClosed(ts) && !KeptAny(ts)
    ensures MarkedOnly(PreOrder(ts)) == []
    decreases ts
  {
    if ts != [] {
      assert ts[0] == ts[0];
      NoMarkedBelow(ts[0].children);
      assert forall i :: 0 <= i < |ts[1..]| ==> ts[1..][i] == ts[i + 1];
      NoMarkedBelow(ts[1..]);
      PreOrderParts(ts);
      MarkedOnlyAppend([ts[0]] + PreOrder(ts[0].children), PreOrder(ts[1..]));
      MarkedOnlyAppend([ts[0]], PreOrder(ts[0].children));
    }
  }

  lemma {:induction false} PreOrderParts(ts: seq<Task>)
    requires ts != []
    ensures PreOrder(ts) == [ts[0]] + PreOrder(ts[0].children) + PreOrder(ts[1..])
  {
  }

  /** Mark and sweep keep exactly the tasks marked true: when every task is marked and marks
      are closed under ancestors, the swept forest lists in pre-order the tasks marked true,
      each unchanged but for its children and its mark. So a kept task's ancestors are all kept
      and a dropped task's subtree is dropped whole. */
  lemma {:induction false} SweepKeepsMarked(ts: seq<Task>)
    requires AllDecided(ts) && MarksClosed(ts)
    ensures Strips(PreOrder(Sweep(ts))) == Strips(MarkedOnly(PreOrder(ts)))
    decreases ts
  {
    if ts != [] {
      var t := ts[0];
      assert forall i :: 0 <= i < |ts[1..]| ==> ts[1..][i] == ts[i + 1];
      SweepKeepsMarked(ts[1..]);
      PreOrderParts(ts);
      MarkedOnlyAppend([t] + PreOrder(t.children), PreOrder(ts[1..]));
      MarkedOnlyAppend([t], PreOrder(t.children));
      assert t.meta.filterMark.Some? && AllDecided(t.children) && MarksClosed(t.children);
      assert KeptAny(t.children) ==> t.meta.filterMark == Some(true);
      if Survives(t) {
        assert t.meta.filterMark != Some(false);
        assert t.meta.filterMark.value;
        assert t.meta.filterMark == Some(true);
        SweepKeepsMarked(t.children);
        var s := SweepOne(t);
        assert Sweep(ts) == [s] + Sweep(ts[1..]);
        PreOrderAppend([s], Sweep(ts[1..]));
        PreOrderParts([s]);
        assert PreOrder([s]) == [s] + PreOrder(Sweep(t.children)) by {
          assert [s][1..] == [];
        }
        StripsAppend([s] + PreOrder(Sweep(t.children)), PreOrder(Sweep(ts[1..])));
        StripsAppend([s], PreOrder(Sweep(t.children)));
        StripsAppend([t] + MarkedOnly(PreOrder(t.children)), MarkedOnly(PreOrder(ts[1..])));
        StripsAppend([t], MarkedOnly(PreOrder(t.children)));
        assert MarkedOnly([t]) == [t];
      } else {
        assert !KeptAny(t.children);
        NoMarkedBelow(t.children);
        assert MarkedOnly([t]) == [];
        assert MarkedOnly(PreOrder(ts)) == MarkedOnly(PreOrder(ts[1..]));
        assert Sweep(ts) == Sweep(ts[1..]);
      }
    }
  }

  /** Two forests that differ only in marks list the same stripped tasks in pre-order. */
  lemma {:induction false} SameExceptMarksStrips(a: seq<Task>, b: seq<Task>)
    requires SameExceptMarks(a, b)
    ensures Strips(PreOrder(a)) == Strips(PreOrder(b))
    decreases a
  {
    if a != [] {
      SameExceptMarksStrips(a[0].children, b[0].children);
      assert SameExceptMarks(a[1..], b[1..]) by {
        forall i | 0 <= i < |a[1..]|
          ensures b[1..][i] == a[1..][i].(children := b[1..][i].children,
            meta := a[1..][i].meta.(filterMark := b[1..][i].meta.filterMark))
          ensures SameExceptMarks(a[1..][i].children, b[1..][i].children)
        {
          assert a[1..][i] == a[i + 1] && b[1..][i] == b[i + 1];
        }
      }
      SameExceptMarksStrips(a[1..], b[1..]);
      PreOrderParts(a);
      PreOrderParts(b);
      StripsAppend([a[0]] + PreOrder(a[0].children), PreOrder(a[1..]));
      StripsAppend([a[0]], PreOrder(a[0].children));
      StripsAppend([b[0]] + PreOrder(b[0].children), PreOrder(b[1..]));
      StripsAppend([b[0]], PreOrder(b[0].children));
      assert Strip(a[0]) == Strip(b[0]);
    }
  }

  /** Copies of the survivors before sweeping each (the first loop of sweepTasks). */
  method SurvivorsOf(tasks: seq<Task>) returns (keptTasks: seq<Task>)
    ensures keptTasks == SurvivingTasks(tasks)
  {
    keptTasks := [];
    var i := |tasks|;
    while i > 0
      invariant 0 <= i <= |tasks|
      invariant keptTasks == SurvivingTasks(tasks[i..])
    {
      i := i - 1;
      assert tasks[i..][0] == tasks[i] && tasks[i..][1..] == tasks[i + 1..];
      if tasks[i].meta.filterMark != Some(false) {
        keptTasks := [tasks[i]] + keptTasks;
      }
    }
    assert tasks[0..] == tasks;
  }

  /** sweepTasks */
  method SweepTasks(tasks: seq<Task>) returns (keptTasks: seq<Task>)
    ensures keptTasks == Sweep(tasks)
    decreases tasks, 1
  {
    var survivors := SurvivorsOf(tasks);
    SweepIsSurvivorsSwept(tasks);
    keptTasks := [];
    for i := 0 to |survivors|
      invariant SweepEach(survivors) == keptTasks + SweepEach(survivors[i..])
    {
      assert survivors[i] in tasks;
      var task := SweepTask(survivors[i]);
      SweepStep(survivors, keptTasks, i);
      keptTasks := keptTasks + [task];
    }
  }

  lemma SweepStep(survivors: seq<Task>, done: seq<Task>, i: nat)
    requires i < |survivors|
    ensures done + SweepEach(survivors[i..]) == (done + [SweepOne(survivors[i])]) + SweepEach(survivors[i + 1..])
  {
    assert survivors[i..][0] == survivors[i] && survivors[i..][1..] == survivors[i + 1..];
  }

  /** The body of sweepTasks' second loop for one task. */
  method SweepTask(task: Task) returns (out: Task)
    ensures out == SweepOne(task)
    decreases task, 0
  {
    var children := SweepTasks(task.children);
    out := task.(children := children, meta := task.meta.(filterMark := None));
  }

  // filterTasks

  /** filterTasks on a forest: mark from the top level (no parent, nothing kept by an
      ancestor), then sweep. */
  function Filter(ts: seq<Task>, filter: TaskFilter): seq<Task> {
    Sweep(Mark(ts, filter, false, false))
  }

  /** Filtering keeps, in pre-order, exactly the tasks that marking marks true, each unchanged
      but for its children; the kept forest carries no marks. */
  lemma {:induction false} FilterKeepsMarked(ts: seq<Task>, filter: TaskFilter)
    ensures var m := Mark(ts, filter, false, false);
      Strips(PreOrder(m)) == Strips(PreOrder(ts)) &&
      Strips(PreOrder(Filter(ts, filter))) == Strips(MarkedOnly(PreOrder(m))) &&
      Unmarked(Filter(ts, filter))
  {
    var m := Mark(ts, filter, false, false);
    MarkChangesOnlyMarks(ts, filter, false, false);
    SameExceptMarksStrips(ts, m);
    MarkIsClosed(ts, filter, false, false);
    SweepKeepsMarked(m);
    SweepClearsMarks(m);
  }

  /** filterTasks */
  method FilterTasks(trace: Trace, filter: TaskFilter)
    modifies trace
    ensures trace.tasks == Filter(old(trace.tasks), filter)
    ensures trace.frameInfo == old(trace.frameInfo) && trace.attributionMap == old(trace.attributionMap)
  {
    var _, marked := MarkTasks(trace.tasks, filter, false, false);
    trace.tasks := SweepTasks(marked);
  }

  // filterTasksByUrlPattern

  datatype FilterType = Fine | Coarse

  /** The task's attribution matches the script URL pattern (and line, when given). */
  predicate Matches(t: Task, scriptUrlPattern: string, lineNumber: Option<int>) {
    IsAttributedTo(t.meta.attribution, t.meta.context, scriptUrlPattern, lineNumber)
  }

  /** The filter of filterTasksByUrlPattern: a matching task is kept with its descendants, and
      in coarse mode, when it has a parent, its siblings too. */
  function UrlFilter(filterType: FilterType, scriptUrlPattern: string, lineNumber: Option<int>): TaskFilter {
    (t: Task, hasParent: bool) =>
      var matches := Matches(t, scriptUrlPattern, lineNumber);
      FilterResult(matches, matches, matches && hasParent && filterType == Coarse, false)
  }

  /** With the URL filter a task is marked true exactly when an ancestor keeps it, it matches,
      one of its children is marked, or (coarse mode, below the top level) a sibling matches.
      A matching task keeps its whole subtree. */
  lemma {:induction false} UrlFilterMarks(ts: seq<Task>, filterType: FilterType, scriptUrlPattern: string,
    lineNumber: Option<int>, hasParent: bool, keptByAncestor: bool, i: nat)
    requires i < |ts|
    ensures var m := Mark(ts, UrlFilter(filterType, scriptUrlPattern, lineNumber), hasParent, keptByAncestor)[i];
      (m.meta.filterMark == Some(true) <==>
        keptByAncestor || Matches(ts[i], scriptUrlPattern, lineNumber) || KeptAny(m.children) ||
        (filterType == Coarse && hasParent &&
         exists j :: 0 <= j < |ts| && Matches(ts[j], scriptUrlPattern, lineNumber))) &&
      (Matches(ts[i], scriptUrlPattern, lineNumber) ==> AllMarked(m.children))
  {
    var filter := UrlFilter(filterType, scriptUrlPattern, lineNumber);
    MarkRule(ts, filter, hasParent, keptByAncestor, i);
    assert KeepSiblings(ts, filter, hasParent) <==>
      filterType == Coarse && hasParent &&
      exists j :: 0 <= j < |ts| && Matches(ts[j], scriptUrlPattern, lineNumber)
    by {
      if filterType == Coarse && hasParent && exists j :: 0 <= j < |ts| && Matches(ts[j], scriptUrlPattern, lineNumber) {
        var j :| 0 <= j < |ts| && Matches(ts[j], scriptUrlPattern, lineNumber);
        assert filter(ts[j], hasParent).keepSiblings;
      }
    }
    if Matches(ts[i], scriptUrlPattern, lineNumber) {
      KeptByAncestorMarksAll(ts[i].children, filter, true);
    }
  }

  /** filterTasksByUrlPattern */
  method FilterTasksByUrlPattern(trace: Trace, filterType: FilterType, scriptUrlPattern: string, lineNumber: Option<int>)
    modifies trace
    ensures trace.tasks == Filter(old(trace.tasks), UrlFilter(filterType, scriptUrlPattern, lineNumber))
    ensures trace.frameInfo == old(trace.frameInfo) && trace.attributionMap == old(trace.attributionMap)
  {
    FilterTasks(trace, UrlFilter(filterType, scriptUrlPattern, lineNumber));
  }
}
