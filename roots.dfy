/** Attribution roots (src/analysis/findAttributionRoots.ts): a task is a root when none of
    its ancestors carries the same attribution. Attributions are interned, so the source's
    identity test `includes` is equality of attribution values here. */
module AttributionRoots {
  import opened Attributions
  import opened Tasks

  /** `t` with its root flag and its children replaced. */
  function WithRootFlag(t: Task, isRoot: bool, children: seq<Task>): Task {
    t.(children := children, meta := t.meta.(context := t.meta.context.(isAttributionRoot := isRoot)))
  }

  function RootsOne(t: Task, ancestors: seq<Attribution>): (r: Task)
    ensures r.meta.context.isAttributionRoot <==> t.meta.attribution !in ancestors
    decreases t, 0
  {
    var a := t.meta.attribution;
    WithRootFlag(t, a !in ancestors, Roots(t.children, ancestors + [a]))
  }

  /** assignAttributionRoots: each task's flag says whether its attribution is absent from
      `ancestors`, the attributions of its ancestors (outermost first); the children are
      visited with the task's attribution appended. */
  function Roots(ts: seq<Task>, ancestors: seq<Attribution>): (r: seq<Task>)
    ensures |r| == |ts|
    decreases ts, 1
  {
    if ts == [] then [] else [RootsOne(ts[0], ancestors)] + Roots(ts[1..], ancestors)
  }

  /** Only the root flags differ between two forests. */
  ghost predicate SameExceptRootFlags(a: seq<Task>, b: seq<Task>)
    decreases a
  {
    |a| == |b| &&
    forall i :: 0 <= i < |a| ==>
      b[i] == WithRootFlag(a[i], b[i].meta.context.isAttributionRoot, b[i].children) &&
      SameExceptRootFlags(a[i].children, b[i].children)
  }

  /** Every flag in `ts` says whether the attribution is absent from the task's ancestors,
      `ancestors` being those above the list. */
  ghost predicate RootsCorrect(ts: seq<Task>, ancestors: seq<Attribution>)
    decreases ts
  {
    forall i :: 0 <= i < |ts| ==>
      (ts[i].meta.context.isAttributionRoot <==> ts[i].meta.attribution !in ancestors) &&
      RootsCorrect(ts[i].children, ancestors + [ts[i].meta.attribution])
  }

  /** No task in `ts` or below it is a root with attribution `a`. */
  ghost predicate NoRootWith(ts: seq<Task>, a: Attribution)
    decreases ts
  {
    forall i :: 0 <= i < |ts| ==>
      !(ts[i].meta.context.isAttributionRoot && ts[i].meta.attribution == a) &&
      NoRootWith(ts[i].children, a)
  }

  /** Of two roots with the same attribution, neither lies below the other. */
  ghost predicate RootsExclusive(ts: seq<Task>)
    decreases ts
  {
    forall i :: 0 <= i < |ts| ==>
      NoRootWith(ts[i].children, ts[i].meta.attribution) && RootsExclusive(ts[i].children)
  }

  lemma {:induction false} RootsAt(ts: seq<Task>, ancestors: seq<Attribution>, i: nat)
    requires i < |ts|
    ensures Roots(ts, ancestors)[i] == RootsOne(ts[i], ancestors)
    decreases ts
  {
    if i > 0 {
      RootsAt(ts[1..], ancestors, i - 1);
    }
  }

  /** The pass writes every flag correctly and changes nothing else. */
  lemma {:induction false} RootsSpec(ts: seq<Task>, ancestors: seq<Attribution>)
    ensures RootsCorrect(Roots(ts, ancestors), ancestors)
    ensures SameExceptRootFlags(ts, Roots(ts, ancestors))
    decreases ts
  {
    var r := Roots(ts, ancestors);
    forall i | 0 <= i < |ts|
      ensures (r[i].meta.context.isAttributionRoot <==> r[i].meta.attribution !in ancestors)
      ensures RootsCorrect(r[i].children, ancestors + [r[i].meta.attribution])
      ensures r[i] == WithRootFlag(ts[i], r[i].meta.context.isAttributionRoot, r[i].children)
      ensures SameExceptRootFlags(ts[i].children, r[i].children)
    {
      RootsAt(ts, ancestors, i);
      RootsSpec(ts[i].children, ancestors + [ts[i].meta.attribution]);
    }
  }

  /** Every top-level task is a root. */
  lemma {:induction false} TopLevelTasksAreRoots(ts: seq<Task>, i: nat)
    requires i < |ts|
    ensures Roots(ts, [])[i].meta.context.isAttributionRoot
  {
    RootsAt(ts, [], i);
  }

  lemma {:induction false} NoRootBelowAncestor(ts: seq<Task>, ancestors: seq<Attribution>, a: Attribution)
    requires a in ancestors
    ensures NoRootWith(Roots(ts, ancestors), a)
    decreases ts
  {
    var r := Roots(ts, ancestors);
    forall i | 0 <= i < |ts|
      ensures !(r[i].meta.context.isAttributionRoot && r[i].meta.attribution == a)
      ensures NoRootWith(r[i].children, a)
    {
      RootsAt(ts, ancestors, i);
      NoRootBelowAncestor(ts[i].children, ancestors + [ts[i].meta.attribution], a);
    }
  }

  /** Of two roots with the same attribution, neither is an ancestor of the other. */
  lemma {:induction false} RootsAreExclusive(ts: seq<Task>, ancestors: seq<Attribution>)
    ensures RootsExclusive(Roots(ts, ancestors))
    decreases ts
  {
    var r := Roots(ts, ancestors);
    forall i | 0 <= i < |ts|
      ensures NoRootWith(r[i].children, r[i].meta.attribution) && RootsExclusive(r[i].children)
    {
      RootsAt(ts, ancestors, i);
      var a := ts[i].meta.attribution;
      NoRootBelowAncestor(ts[i].children, ancestors + [a], a);
      RootsAreExclusive(ts[i].children, ancestors + [a]);
    }
  }

  /** Every flag is overwritten, so the pass gives the same forest when run again. */
  lemma {:induction false} RootsIdempotent(ts: seq<Task>, ancestors: seq<Attribution>)
    ensures Roots(Roots(ts, ancestors), ancestors) == Roots(ts, ancestors)
    decreases ts
  {
    if ts != [] {
      var t := ts[0];
      var a := t.meta.attribution;
      RootsIdempotent(t.children, ancestors + [a]);
      RootsIdempotent(ts[1..], ancestors);
      var r := Roots(ts, ancestors);
      assert r[0] == RootsOne(t, ancestors) && r[1..] == Roots(ts[1..], ancestors);
    }
  }

  /** The `ancestorAttributions` array, used as a stack. */
  class AncestorStack {
    var items: seq<Attribution>

    constructor ()
      ensures items == []
    {
      items := [];
    }

    method Push(a: Attribution)
      modifies this
      ensures items == old(items) + [a]
    {
      items := items + [a];
    }

    method Pop()
      requires items != []
      modifies this
      ensures items == old(items)[..|old(items)| - 1]
    {
      items := items[..|items| - 1];
    }

    /** `includes`: whether some stacked attribution is this one. */
    method Includes(a: Attribution) returns (found: bool)
      ensures found <==> a in items
    {
      found := false;
      var i := 0;
      while i < |items| && !found
        invariant 0 <= i <= |items|
        invariant found <==> a in items[..i]
      {
        found := items[i] == a;
        assert items[..i + 1] == items[..i] + [items[i]];
        i := i + 1;
      }
      if !found {
        assert items[..i] == items;
      }
    }
  }

  /** assignAttributionRoots: the stack holds the ancestors' attributions at every visit and
      is back to its old contents on return. */
  method AssignAttributionRoots(tasks: seq<Task>, ancestorAttributions: AncestorStack)
    returns (out: seq<Task>)
    modifies ancestorAttributions
    ensures ancestorAttributions.items == old(ancestorAttributions.items)
    ensures out == Roots(tasks, old(ancestorAttributions.items))
    decreases tasks, 1
  {
    ghost var ancestors := ancestorAttributions.items;
    out := [];
    for i := 0 to |tasks|
      invariant ancestorAttributions.items == ancestors
      invariant Roots(tasks, ancestors) == out + Roots(tasks[i..], ancestors)
    {
      assert tasks[i..][0] == tasks[i] && tasks[i..][1..] == tasks[i + 1..];
      var task := AssignTaskRoot(tasks[i], ancestorAttributions);
      assert out + ([task] + Roots(tasks[i + 1..], ancestors)) == (out + [task]) + Roots(tasks[i + 1..], ancestors);
      out := out + [task];
    }
  }

  /** The body of assignAttributionRoots' loop for one task. */
  method AssignTaskRoot(task: Task, ancestorAttributions: AncestorStack) returns (out: Task)
    modifies ancestorAttributions
    ensures ancestorAttributions.items == old(ancestorAttributions.items)
    ensures out == RootsOne(task, old(ancestorAttributions.items))
    decreases task, 0
  {
    var attr := task.meta.attribution;
    var included := ancestorAttributions.Includes(attr);
    ancestorAttributions.Push(attr);
    var children := AssignAttributionRoots(task.children, ancestorAttributions);
    ancestorAttributions.Pop();
    out := WithRootFlag(task, !included, children);
  }

  /** findAttributionRoots: start from an empty stack at the top level. */
  method FindAttributionRoots(trace: Trace)
    modifies trace
    ensures trace.tasks == Roots(old(trace.tasks), [])
    ensures trace.frameInfo == old(trace.frameInfo) && trace.attributionMap == old(trace.attributionMap)
  {
    var stack := new AncestorStack();
    trace.tasks := AssignAttributionRoots(trace.tasks, stack);
  }
}
