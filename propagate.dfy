/** Propagation of attributions along the task tree (src/analysis/propagateAttributions.ts).
    The passes are written against the task's interned `attribution`; the context (URLs and
    triggers) stays on the task and is never touched, which is what keeping "Lighthouse's
    opinion" amounts to in this record layout. */
module Propagate {
  import opened Wrappers
  import opened Attributions
  import opened Tasks

  /** propagateAttribution: keep the task's attribution unless the propagated one is strictly
      better for it. A source location is never replaced; a file is replaced only by a source
      location in the same script; an unknown is replaced by anything known. */
  function PropagateAttribution(taskAttribution: Attribution, propagated: Option<Attribution>): (r: Attribution)
    ensures r == taskAttribution || (propagated.Some? && r == propagated.value && Rank(r) > Rank(taskAttribution))
  {
    if propagated.None? then taskAttribution
    else
      match taskAttribution
      case SourceLocation(_, _, _, _, _, _) => taskAttribution
      case File(url) =>
        if !propagated.value.SourceLocation? || propagated.value.url != url then taskAttribution
        else propagated.value
      case Unknown =>
        if propagated.value.Unknown? then taskAttribution else propagated.value
  }

  /** When exactly propagateAttribution replaces the task's attribution. */
  lemma {:induction false} PropagateAttributionIff(a: Attribution, p: Option<Attribution>)
    ensures PropagateAttribution(a, p) != a <==>
      p.Some? && ((a.File? && p.value.SourceLocation? && p.value.url == a.url) || (a.Unknown? && !p.value.Unknown?))
  {
  }

  datatype Pass = Pass(changed: bool, tasks: seq<Task>)

  predicate SameLocation(a: Attribution, b: Attribution)
    requires a.SourceLocation? && b.SourceLocation?
  {
    a.url == b.url && a.lineNumber == b.lineNumber && a.columnNumber == b.columnNumber
  }

  /** The upward candidate of propagateByScope, scanning the children from index 0: the first
      source-location child, dropped (with a break) at a later source location elsewhere or a
      later file in another script. */
  function Candidate(cs: seq<Task>, found: Option<Attribution>): (r: Option<Attribution>)
    requires found.None? || found.value.SourceLocation?
    ensures r.None? || r.value.SourceLocation?
  {
    if cs == [] then found
    else
      var c := cs[0].meta.attribution;
      if c.SourceLocation? then
        if found.None? then Candidate(cs[1..], Some(c))
        else if !SameLocation(c, found.value) then None
        else Candidate(cs[1..], found)
      else if c.File? then
        if found.Some? && c.url != found.value.url then None
        else Candidate(cs[1..], found)
      else Candidate(cs[1..], found)
  }

  /** One task of propagateByScope: take the scope's attribution if better, recurse into the
      children with the result, then take the children's common source location if better. */
  function ScopeOne(t: Task, scope: Option<Attribution>): (r: Pass)
    ensures |r.tasks| == 1
    decreases t, 0
  {
    var down := PropagateAttribution(t.meta.attribution, scope);
    var sub := Scope(t.children, Some(down));
    var up := PropagateAttribution(down, Candidate(sub.tasks, None));
    Pass(down != t.meta.attribution || sub.changed || up != down,
         [t.(children := sub.tasks, meta := t.meta.(attribution := up))])
  }

  /** propagateByScope */
  function Scope(ts: seq<Task>, scope: Option<Attribution>): (r: Pass)
    ensures |r.tasks| == |ts|
    decreases ts, 1
  {
    if ts == [] then Pass(false, [])
    else
      var first := ScopeOne(ts[0], scope);
      var rest := Scope(ts[1..], scope);
      Pass(first.changed || rest.changed, first.tasks + rest.tasks)
  }

  /** The first source-location attribution among siblings. */
  function FirstSource(ts: seq<Task>): (r: Option<Attribution>)
    ensures r.None? || r.value.SourceLocation?
  {
    if ts == [] then None
    else if ts[0].meta.attribution.SourceLocation? then Some(ts[0].meta.attribution)
    else FirstSource(ts[1..])
  }

  datatype LevelResult = LevelResult(changed: bool, attributions: seq<Attribution>)

  /** What the sibling walk of propagateBySequence makes of one attribution: a file may take
      the latest source location; sources and unknowns are left alone. */
  function SequenceStep(a: Attribution, last: Option<Attribution>): Attribution {
    if last.Some? && a.File? then PropagateAttribution(a, last) else a
  }

  /** The latest source location after visiting `a`. */
  function NextSource(a: Attribution, last: Option<Attribution>): (r: Option<Attribution>)
    requires last.None? || last.value.SourceLocation?
    ensures r.None? || r.value.SourceLocation?
  {
    if a.SourceLocation? then Some(a) else last
  }

  /** The sibling walk of propagateBySequence. */
  function Level(ts: seq<Task>, last: Option<Attribution>): (r: LevelResult)
    requires last.None? || last.value.SourceLocation?
    ensures |r.attributions| == |ts|
  {
    if ts == [] then LevelResult(false, [])
    else
      var a := ts[0].meta.attribution;
      var n := SequenceStep(a, last);
      var rest := Level(ts[1..], NextSource(a, last));
      LevelResult(n != a || rest.changed, [n] + rest.attributions)
  }

  /** The last loop of propagateBySequence: the level's new attributions, and each task's
      children processed in turn. */
  function SequenceChildren(ts: seq<Task>, attributions: seq<Attribution>): (r: Pass)
    requires |attributions| == |ts|
    ensures |r.tasks| == |ts|
    decreases ts, 0
  {
    if ts == [] then Pass(false, [])
    else
      var sub := Sequence(ts[0].children);
      var rest := SequenceChildren(ts[1..], attributions[1..]);
      Pass(sub.changed || rest.changed,
           [ts[0].(children := sub.tasks, meta := ts[0].meta.(attribution := attributions[0]))] + rest.tasks)
  }

  /** propagateBySequence */
  function Sequence(ts: seq<Task>): (r: Pass)
    ensures |r.tasks| == |ts|
    decreases ts, 1
  {
    var level := Level(ts, FirstSource(ts));
    var sub := SequenceChildren(ts, level.attributions);
    Pass(level.changed || sub.changed, sub.tasks)
  }

  /** One iteration of propagateAttributions' loop. */
  function Round(ts: seq<Task>): Pass {
    var s := Scope(ts, None);
    var q := Sequence(s.tasks);
    Pass(s.changed || q.changed, q.tasks)
  }

  /** propagateAttributions with `fuel` iterations left: stop after the first iteration in
      which neither pass changed anything. */
  function Iterate(ts: seq<Task>, fuel: nat): seq<Task>
    decreases fuel
  {
    if fuel == 0 then ts
    else
      var r := Round(ts);
      if !r.changed then r.tasks else Iterate(r.tasks, fuel - 1)
  }

  const IterationLimit: nat := 10

  method PropagateByScope(tasks: seq<Task>, scopeAttribution: Option<Attribution>)
    returns (changed: bool, out: seq<Task>)
    ensures Pass(changed, out) == Scope(tasks, scopeAttribution)
    decreases tasks, 1
  {
    changed := false;
    out := [];
    for i := 0 to |tasks|
      invariant Scope(tasks, scopeAttribution)
             == (var rest := Scope(tasks[i..], scopeAttribution); Pass(changed || rest.changed, out + rest.tasks))
    {
      var taskChanged, task := PropagateScopeTask(tasks[i], scopeAttribution);
      ScopeStep(tasks, scopeAttribution, i, changed, out, taskChanged, task);
      changed := changed || taskChanged;
      out := out + [task];
    }
  }

  lemma ScopeStep(tasks: seq<Task>, scope: Option<Attribution>, i: nat, changed: bool, done: seq<Task>,
                  taskChanged: bool, task: Task)
    requires i < |tasks| && Pass(taskChanged, [task]) == ScopeOne(tasks[i], scope)
    ensures (var rest := Scope(tasks[i..], scope); Pass(changed || rest.changed, done + rest.tasks))
         == (var rest := Scope(tasks[i + 1..], scope);
             Pass((changed || taskChanged) || rest.changed, (done + [task]) + rest.tasks))
  {
    assert tasks[i..][0] == tasks[i] && tasks[i..][1..] == tasks[i + 1..];
    var rest := Scope(tasks[i + 1..], scope);
    assert Scope(tasks[i..], scope) == Pass(taskChanged || rest.changed, [task] + rest.tasks);
    assert done + ([task] + rest.tasks) == (done + [task]) + rest.tasks;
  }

  /** The body of propagateByScope's loop for one task. */
  method PropagateScopeTask(task: Task, scopeAttribution: Option<Attribution>)
    returns (changed: bool, out: Task)
    ensures Pass(changed, [out]) == ScopeOne(task, scopeAttribution)
    decreases task, 0
  {
    changed := false;
    var attribution := task.meta.attribution;
    var propagatedAttribution := PropagateAttribution(attribution, scopeAttribution);
    if propagatedAttribution != attribution {
      changed := true;
      attribution := propagatedAttribution;
    }
    var changedViaChildren, children := PropagateByScope(task.children, Some(propagatedAttribution));
    changed := changed || changedViaChildren;

    var childrenAttribution: Option<Attribution> := None;
    var k := 0;
    while k < |children|
      invariant 0 <= k <= |children|
      invariant childrenAttribution.None? || childrenAttribution.value.SourceLocation?
      invariant Candidate(children, None) == Candidate(children[k..], childrenAttribution)
    {
      assert children[k..][1..] == children[k + 1..];
      var childAttribution := children[k].meta.attribution;
      if childAttribution.SourceLocation? {
        if childrenAttribution.None? {
          childrenAttribution := Some(childAttribution);
          k := k + 1;
          continue;
        }
        if !SameLocation(childAttribution, childrenAttribution.value) {
          childrenAttribution := None;
          break;
        }
      } else if childAttribution.File? {
        if childrenAttribution.Some? && childAttribution.url != childrenAttribution.value.url {
          childrenAttribution := None;
          break;
        }
      }
      k := k + 1;
    }

    var upwardsAttribution := PropagateAttribution(propagatedAttribution, childrenAttribution);
    if upwardsAttribution != attribution {
      changed := true;
      attribution := upwardsAttribution;
    }
    out := task.(children := children, meta := task.meta.(attribution := attribution));
  }

  /** propagateBySequence: locate the first source location, walk the siblings, then process
      each task's children. */
  method PropagateBySequence(tasks: seq<Task>) returns (changed: bool, out: seq<Task>)
    ensures Pass(changed, out) == Sequence(tasks)
    decreases tasks, 2
  {
    var firstSource := LocateFirstSource(tasks);
    var attributions;
    changed, attributions := WalkSequence(tasks, firstSource);
    var changedViaChildren;
    changedViaChildren, out := PropagateSequenceChildren(tasks, attributions);
    changed := changed || changedViaChildren;
  }

  /** The first loop of propagateBySequence, which stops at the first source location. */
  method LocateFirstSource(tasks: seq<Task>) returns (lastSourceAttribution: Option<Attribution>)
    ensures lastSourceAttribution == FirstSource(tasks)
  {
    lastSourceAttribution := None;
    var k := 0;
    while k < |tasks|
      invariant 0 <= k <= |tasks|
      invariant lastSourceAttribution.None? ==> FirstSource(tasks) == FirstSource(tasks[k..])
      invariant lastSourceAttribution.Some? ==> lastSourceAttribution == FirstSource(tasks)
    {
      assert tasks[k..][1..] == tasks[k + 1..];
      if tasks[k].meta.attribution.SourceLocation? {
        lastSourceAttribution := Some(tasks[k].meta.attribution);
        break;
      }
      k := k + 1;
    }
  }

  /** The second loop of propagateBySequence: the new attribution of every sibling. */
  method WalkSequence(tasks: seq<Task>, firstSource: Option<Attribution>)
    returns (changed: bool, attributions: seq<Attribution>)
    requires firstSource.None? || firstSource.value.SourceLocation?
    ensures LevelResult(changed, attributions) == Level(tasks, firstSource)
  {
    changed := false;
    var lastSourceAttribution := firstSource;
    attributions := [];
    for i := 0 to |tasks|
      invariant lastSourceAttribution.None? || lastSourceAttribution.value.SourceLocation?
      invariant Level(tasks, firstSource) == Then(changed, attributions, Level(tasks[i..], lastSourceAttribution))
    {
      var attrInfo := tasks[i].meta.attribution;
      LevelStep(tasks, i, lastSourceAttribution);
      ThenStep(changed, attributions, SequenceStep(attrInfo, lastSourceAttribution) != attrInfo,
        SequenceStep(attrInfo, lastSourceAttribution), Level(tasks[i + 1..], NextSource(attrInfo, lastSourceAttribution)));
      var next := attrInfo;
      if attrInfo.SourceLocation? {
        lastSourceAttribution := Some(attrInfo);
      } else if lastSourceAttribution.Some? && attrInfo.File? {
        var propagatedAttribution := PropagateAttribution(attrInfo, lastSourceAttribution);
        if propagatedAttribution != attrInfo {
          changed := true;
          next := propagatedAttribution;
        }
      }
      attributions := attributions + [next];
    }
    assert tasks[|tasks|..] == [];
  }

  /** Level on a suffix, one sibling at a time. */
  lemma {:induction false} LevelStep(tasks: seq<Task>, i: nat, last: Option<Attribution>)
    requires i < |tasks|
    requires last.None? || last.value.SourceLocation?
    ensures var a := tasks[i].meta.attribution;
      var n := SequenceStep(a, last);
      var rest := Level(tasks[i + 1..], NextSource(a, last));
      Level(tasks[i..], last) == LevelResult(n != a || rest.changed, [n] + rest.attributions)
  {
    assert tasks[i..][0] == tasks[i] && tasks[i..][1..] == tasks[i + 1..];
  }

  lemma {:induction false} ThenStep(changed: bool, done: seq<Attribution>, c: bool, n: Attribution, rest: LevelResult)
    ensures Then(changed, done, LevelResult(c || rest.changed, [n] + rest.attributions))
         == Then(changed || c, done + [n], rest)
  {
    assert done + ([n] + rest.attributions) == (done + [n]) + rest.attributions;
  }

  function Then(changed: bool, done: seq<Attribution>, rest: LevelResult): LevelResult {
    LevelResult(changed || rest.changed, done + rest.attributions)
  }

  /** The last loop of propagateBySequence. */
  method PropagateSequenceChildren(tasks: seq<Task>, attributions: seq<Attribution>)
    returns (changed: bool, out: seq<Task>)
    requires |attributions| == |tasks|
    ensures Pass(changed, out) == SequenceChildren(tasks, attributions)
    decreases tasks, 1
  {
    changed := false;
    out := [];
    for i := 0 to |tasks|
      invariant SequenceChildren(tasks, attributions)
             == (var rest := SequenceChildren(tasks[i..], attributions[i..]);
                 Pass(changed || rest.changed, out + rest.tasks))
    {
      assert tasks[i..][0] == tasks[i] && tasks[i..][1..] == tasks[i + 1..];
      assert attributions[i..][0] == attributions[i] && attributions[i..][1..] == attributions[i + 1..];
      var changedViaChildren, children := PropagateBySequence(tasks[i].children);
      var task := tasks[i].(children := children, meta := tasks[i].meta.(attribution := attributions[i]));
      ghost var rest := SequenceChildren(tasks[i + 1..], attributions[i + 1..]);
      assert out + ([task] + rest.tasks) == (out + [task]) + rest.tasks;
      changed := changed || changedViaChildren;
      out := out + [task];
    }
  }

  /** propagateAttributions: at most ten iterations of scope then sequence, stopping at the
      first iteration that changed nothing. */
  method PropagateAttributions(trace: Trace)
    modifies trace
    ensures trace.tasks == Iterate(old(trace.tasks), IterationLimit)
    ensures trace.frameInfo == old(trace.frameInfo) && trace.attributionMap == old(trace.attributionMap)
  {
    for i := 0 to IterationLimit
      invariant Iterate(old(trace.tasks), IterationLimit) == Iterate(trace.tasks, IterationLimit - i)
      invariant trace.frameInfo == old(trace.frameInfo) && trace.attributionMap == old(trace.attributionMap)
    {
      var changedViaScope, scoped := PropagateByScope(trace.tasks, None);
      var changedViaSequence, sequenced := PropagateBySequence(scoped);
      trace.tasks := sequenced;
      if !changedViaScope && !changedViaSequence {
        return;
      }
    }
  }

  // Properties of the passes.

  /** `y` is `x` or strictly more specific. */
  predicate Better(x: Attribution, y: Attribution) {
    y == x || Rank(y) > Rank(x)
  }

  lemma {:induction false} BetterTransitive(x: Attribution, y: Attribution, z: Attribution)
    requires Better(x, y) && Better(y, z)
    ensures Better(x, z)
  {
  }

  /** `b` is `a` with some attributions replaced by strictly more specific ones and nothing
      else changed: same events, metadata, contexts and nesting. */
  ghost predicate Improves(a: seq<Task>, b: seq<Task>)
    decreases a
  {
    |a| == |b| &&
    (a != [] ==>
      Better(a[0].meta.attribution, b[0].meta.attribution) &&
      b[0] == a[0].(children := b[0].children, meta := a[0].meta.(attribution := b[0].meta.attribution)) &&
      Improves(a[0].children, b[0].children) &&
      Improves(a[1..], b[1..]))
  }

  lemma {:induction false} ImprovesReflexive(a: seq<Task>)
    ensures Improves(a, a)
    decreases a
  {
    if a != [] {
      ImprovesReflexive(a[0].children);
      ImprovesReflexive(a[1..]);
    }
  }

  lemma {:induction false} ImprovesTransitive(a: seq<Task>, b: seq<Task>, c: seq<Task>)
    requires Improves(a, b) && Improves(b, c)
    ensures Improves(a, c)
    decreases a
  {
    if a != [] {
      BetterTransitive(a[0].meta.attribution, b[0].meta.attribution, c[0].meta.attribution);
      ImprovesTransitive(a[0].children, b[0].children, c[0].children);
      ImprovesTransitive(a[1..], b[1..], c[1..]);
    }
  }

  /** Number of tasks in a forest. */
  function Size(ts: seq<Task>): nat
    decreases ts
  {
    if ts == [] then 0 else 1 + Size(ts[0].children) + Size(ts[1..])
  }

  /** Sum of the ranks of all attributions of a forest. */
  function RankSum(ts: seq<Task>): (r: nat)
    ensures r <= 2 * Size(ts)
    decreases ts
  {
    if ts == [] then 0 else Rank(ts[0].meta.attribution) + RankSum(ts[0].children) + RankSum(ts[1..])
  }

  /** Improving never lowers the rank sum, and raises it whenever anything changed. */
  lemma {:induction false} ImprovesRankSum(a: seq<Task>, b: seq<Task>)
    requires Improves(a, b)
    ensures Size(b) == Size(a)
    ensures RankSum(b) >= RankSum(a)
    ensures b != a ==> RankSum(b) > RankSum(a)
    decreases a
  {
    if a != [] {
      ImprovesRankSum(a[0].children, b[0].children);
      ImprovesRankSum(a[1..], b[1..]);
      if b != a {
        assert b == [b[0]] + b[1..] && a == [a[0]] + a[1..];
        if b[0] != a[0] {
          assert b[0].children != a[0].children || b[0].meta.attribution != a[0].meta.attribution;
        }
      }
    }
  }

  lemma {:induction false} ScopeOneImproves(t: Task, scope: Option<Attribution>)
    ensures Improves([t], ScopeOne(t, scope).tasks)
    ensures ScopeOne(t, scope).changed <==> ScopeOne(t, scope).tasks != [t]
    decreases t, 0
  {
    var down := PropagateAttribution(t.meta.attribution, scope);
    var sub := Scope(t.children, Some(down));
    ScopeImproves(t.children, Some(down));
    var up := PropagateAttribution(down, Candidate(sub.tasks, None));
    BetterTransitive(t.meta.attribution, down, up);
    var r := ScopeOne(t, scope);
    assert r.tasks[0].children == sub.tasks && r.tasks[0].meta.attribution == up;
    assert [t][1..] == [] && r.tasks[1..] == [];
    ImprovesReflexive([]);
    assert r.tasks != [t] <==> r.tasks[0] != t;
  }

  /** The scope pass only raises attributions, and reports a change exactly when it made one. */
  lemma {:induction false} ScopeImproves(ts: seq<Task>, scope: Option<Attribution>)
    ensures Improves(ts, Scope(ts, scope).tasks)
    ensures Scope(ts, scope).changed <==> Scope(ts, scope).tasks != ts
    decreases ts, 1
  {
    if ts == [] {
    } else {
      var first := ScopeOne(ts[0], scope);
      var rest := Scope(ts[1..], scope);
      ScopeOneImproves(ts[0], scope);
      ScopeImproves(ts[1..], scope);
      ImprovesCons(ts, first.tasks, rest.tasks);
    }
  }

  /** A list improved at its first task and in the rest is improved, and differs from the
      original exactly when one of the parts does. */
  lemma ImprovesCons(ts: seq<Task>, first: seq<Task>, rest: seq<Task>)
    requires ts != [] && |first| == 1
    requires Improves([ts[0]], first) && Improves(ts[1..], rest)
    ensures Improves(ts, first + rest)
    ensures first + rest != ts <==> first != [ts[0]] || rest != ts[1..]
  {
    var us := first + rest;
    assert us[0] == first[0] && us[1..] == rest;
    assert [ts[0]][0] == ts[0] && [ts[0]][1..] == [] && first[1..] == [];
    assert first != [ts[0]] <==> first[0] != ts[0];
    assert us != ts <==> us[0] != ts[0] || us[1..] != ts[1..];
  }

  /** The attributions of a task list, in order. */
  function AttributionsOf(ts: seq<Task>): (r: seq<Attribution>)
    ensures |r| == |ts| && forall i :: 0 <= i < |ts| ==> r[i] == ts[i].meta.attribution
  {
    if ts == [] then [] else [ts[0].meta.attribution] + AttributionsOf(ts[1..])
  }

  lemma {:induction false} LevelFacts(ts: seq<Task>, last: Option<Attribution>)
    requires last.None? || last.value.SourceLocation?
    ensures forall i :: 0 <= i < |ts| ==> Better(ts[i].meta.attribution, Level(ts, last).attributions[i])
    ensures Level(ts, last).changed <==> Level(ts, last).attributions != AttributionsOf(ts)
  {
    if ts != [] {
      var a := ts[0].meta.attribution;
      LevelFacts(ts[1..], NextSource(a, last));
      var r := Level(ts, last);
      var rest := Level(ts[1..], NextSource(a, last));
      var n := SequenceStep(a, last);
      assert r.attributions == [n] + rest.attributions;
      assert AttributionsOf(ts) == [a] + AttributionsOf(ts[1..]);
      ConsEquality(n, rest.attributions, a, AttributionsOf(ts[1..]));
      assert r.attributions[1..] == rest.attributions;
      BetterCons(ts, r.attributions);
    }
  }

  /** Pointwise improvement of a list from that of its head and of its tail. */
  lemma {:induction false} BetterCons(ts: seq<Task>, xs: seq<Attribution>)
    requires |xs| == |ts| > 0
    requires Better(ts[0].meta.attribution, xs[0])
    requires forall i :: 0 <= i < |ts| - 1 ==> Better(ts[1..][i].meta.attribution, xs[1..][i])
    ensures forall i :: 0 <= i < |ts| ==> Better(ts[i].meta.attribution, xs[i])
  {
    forall i | 1 <= i < |ts|
      ensures Better(ts[i].meta.attribution, xs[i])
    {
      assert ts[1..][i - 1] == ts[i] && xs[1..][i - 1] == xs[i];
    }
  }

  lemma {:induction false} SequenceChildrenFacts(ts: seq<Task>, attributions: seq<Attribution>)
    requires |attributions| == |ts|
    requires forall i :: 0 <= i < |ts| ==> Better(ts[i].meta.attribution, attributions[i])
    ensures Improves(ts, SequenceChildren(ts, attributions).tasks)
    decreases ts, 0
  {
    if ts != [] {
      var sub := Sequence(ts[0].children);
      SequenceImproves(ts[0].children);
      forall i | 0 <= i < |ts| - 1
        ensures Better(ts[1..][i].meta.attribution, attributions[1..][i])
      {
        assert ts[1..][i] == ts[i + 1];
      }
      SequenceChildrenFacts(ts[1..], attributions[1..]);
      var r := SequenceChildren(ts, attributions);
      var rest := SequenceChildren(ts[1..], attributions[1..]);
      assert r.tasks[0] == ts[0].(children := sub.tasks, meta := ts[0].meta.(attribution := attributions[0]));
      assert r.tasks[1..] == rest.tasks;
    }
  }

  lemma {:induction false} SequenceChildrenChanged(ts: seq<Task>, attributions: seq<Attribution>)
    requires |attributions| == |ts|
    ensures SequenceChildren(ts, attributions).tasks != ts <==>
            SequenceChildren(ts, attributions).changed || attributions != AttributionsOf(ts)
    decreases ts, 0
  {
    if ts != [] {
      var sub := Sequence(ts[0].children);
      SequenceImproves(ts[0].children);
      SequenceChildrenChanged(ts[1..], attributions[1..]);
      var r := SequenceChildren(ts, attributions);
      var rest := SequenceChildren(ts[1..], attributions[1..]);
      var first := ts[0].(children := sub.tasks, meta := ts[0].meta.(attribution := attributions[0]));
      assert r.tasks == [first] + rest.tasks;
      assert first == ts[0] <==> sub.tasks == ts[0].children && attributions[0] == ts[0].meta.attribution;
      ConsEquality(first, rest.tasks, ts[0], ts[1..]);
      assert ts == [ts[0]] + ts[1..];
      ConsEquality(attributions[0], attributions[1..], ts[0].meta.attribution, AttributionsOf(ts[1..]));
      assert attributions == [attributions[0]] + attributions[1..];
      assert AttributionsOf(ts) == [ts[0].meta.attribution] + AttributionsOf(ts[1..]);
    }
  }

  lemma {:induction false} ConsEquality<T>(x: T, xs: seq<T>, y: T, ys: seq<T>)
    ensures [x] + xs == [y] + ys <==> x == y && xs == ys
  {
    if [x] + xs == [y] + ys {
      assert ([x] + xs)[0] == x && ([x] + xs)[1..] == xs;
      assert ([y] + ys)[0] == y && ([y] + ys)[1..] == ys;
    }
  }

  /** The sequence pass only raises attributions, and reports a change exactly when it made
      one. */
  lemma {:induction false} SequenceImproves(ts: seq<Task>)
    ensures Improves(ts, Sequence(ts).tasks)
    ensures Sequence(ts).changed <==> Sequence(ts).tasks != ts
    decreases ts, 1
  {
    var level := Level(ts, FirstSource(ts));
    LevelFacts(ts, FirstSource(ts));
    SequenceChildrenFacts(ts, level.attributions);
    SequenceChildrenChanged(ts, level.attributions);
  }

  /** One iteration reports a change exactly when the forest changed, and only raises
      attributions. */
  lemma {:induction false} RoundImproves(ts: seq<Task>)
    ensures Improves(ts, Round(ts).tasks)
    ensures Round(ts).changed <==> Round(ts).tasks != ts
  {
    var s := Scope(ts, None);
    ScopeImproves(ts, None);
    SequenceImproves(s.tasks);
    ImprovesTransitive(ts, s.tasks, Round(ts).tasks);
    ImprovesRankSum(ts, s.tasks);
    ImprovesRankSum(s.tasks, Round(ts).tasks);
  }

  /** The loop's result only raises attributions. */
  lemma {:induction false} IterateImproves(ts: seq<Task>, fuel: nat)
    ensures Improves(ts, Iterate(ts, fuel))
    decreases fuel
  {
    if fuel == 0 {
      ImprovesReflexive(ts);
    } else {
      var r := Round(ts);
      RoundImproves(ts);
      if r.changed {
        IterateImproves(r.tasks, fuel - 1);
        ImprovesTransitive(ts, r.tasks, Iterate(r.tasks, fuel - 1));
      }
    }
  }

  /** Each changing iteration raises the rank sum, which is at most twice the number of tasks,
      so with more iterations than 2 * Size - RankSum the loop ends at a fixed point of both
      passes. The cap of ten only matters for forests with more room to improve than that. */
  lemma {:induction false} IterateReachesFixedPoint(ts: seq<Task>, fuel: nat)
    requires fuel > 2 * Size(ts) - RankSum(ts)
    ensures !Round(Iterate(ts, fuel)).changed
    decreases fuel
  {
    var r := Round(ts);
    RoundImproves(ts);
    if r.changed {
      ImprovesRankSum(ts, r.tasks);
      IterateReachesFixedPoint(r.tasks, fuel - 1);
    } else {
      assert r.tasks == ts;
    }
  }

  /** The first source location among the children, by index. */
  function FirstSourceIndex(cs: seq<Task>): (r: Option<nat>)
    ensures r.Some? ==> r.value < |cs| && cs[r.value].meta.attribution.SourceLocation?
    ensures r.Some? ==> forall j :: 0 <= j < r.value ==> !cs[j].meta.attribution.SourceLocation?
    ensures r.None? ==> forall j :: 0 <= j < |cs| ==> !cs[j].meta.attribution.SourceLocation?
  {
    if cs == [] then None
    else if cs[0].meta.attribution.SourceLocation? then Some(0)
    else
      var k := FirstSourceIndex(cs[1..]);
      assert forall j :: 1 <= j < |cs| ==> cs[j] == cs[1..][j - 1];
      if k.Some? then Some(k.value + 1) else None
  }

  /** Every source location in `cs` is at the same place as `a`, and every file is in `a`'s
      script. */
  predicate AgreesWith(cs: seq<Task>, a: Attribution)
    requires a.SourceLocation?
  {
    forall j :: 0 <= j < |cs| ==>
      (cs[j].meta.attribution.SourceLocation? ==> SameLocation(cs[j].meta.attribution, a)) &&
      (cs[j].meta.attribution.File? ==> cs[j].meta.attribution.url == a.url)
  }

  lemma {:induction false} CandidateAfterFound(cs: seq<Task>, a: Attribution)
    requires a.SourceLocation?
    ensures Candidate(cs, Some(a)) == if AgreesWith(cs, a) then Some(a) else None
  {
    if cs != [] {
      CandidateAfterFound(cs[1..], a);
      assert forall j :: 1 <= j < |cs| ==> cs[j] == cs[1..][j - 1];
    }
  }

  /** The upward candidate is the first source-location child, kept only if every later
      source-location child is at the same place and every later file child is in the same
      script. Unknown children, and file children before it, play no part. */
  lemma {:induction false} CandidateIsFirstAgreeingSource(cs: seq<Task>)
    ensures Candidate(cs, None) ==
      (var k := FirstSourceIndex(cs);
       if k.None? then None
       else if AgreesWith(cs[k.value + 1..], cs[k.value].meta.attribution) then Some(cs[k.value].meta.attribution)
       else None)
  {
    if cs != [] {
      if cs[0].meta.attribution.SourceLocation? {
        CandidateAfterFound(cs[1..], cs[0].meta.attribution);
      } else {
        CandidateIsFirstAgreeingSource(cs[1..]);
        var k := FirstSourceIndex(cs[1..]);
        if k.Some? {
          assert cs[1..][k.value + 1..] == cs[k.value + 2..];
        }
      }
    }
  }

  /** The last source-location attribution in a list. */
  function LastSource(ts: seq<Task>): Option<Attribution> {
    if ts == [] then None
    else if ts[|ts| - 1].meta.attribution.SourceLocation? then Some(ts[|ts| - 1].meta.attribution)
    else LastSource(ts[..|ts| - 1])
  }

  lemma {:induction false} LastSourceCons(t: Task, ts: seq<Task>)
    ensures LastSource([t] + ts) ==
      Coalesce(LastSource(ts), if t.meta.attribution.SourceLocation? then Some(t.meta.attribution) else None)
    decreases |ts|
  {
    if ts != [] {
      assert ([t] + ts)[..|ts|] == [t] + ts[..|ts| - 1];
      LastSourceCons(t, ts[..|ts| - 1]);
    } else {
      assert ([t] + ts)[..0] == [];
    }
  }

  lemma {:induction false} LevelAt(ts: seq<Task>, last: Option<Attribution>, i: nat)
    requires last.None? || last.value.SourceLocation?
    requires i < |ts|
    ensures Level(ts, last).attributions[i] == SequenceStep(ts[i].meta.attribution, Coalesce(LastSource(ts[..i]), last))
  {
    if i > 0 {
      var a := ts[0].meta.attribution;
      LevelAt(ts[1..], NextSource(a, last), i - 1);
      assert ts[1..][i - 1] == ts[i];
      assert ts[..i] == [ts[0]] + ts[1..][..i - 1];
      LastSourceCons(ts[0], ts[1..][..i - 1]);
    } else {
      assert ts[..0] == [];
    }
  }

  /** Sequence rule: a file sibling takes the nearest preceding source-location sibling, or the
      first source-location sibling when none precedes it, if that is in the same script;
      source locations and unknowns are untouched. */
  lemma {:induction false} NearestSource(ts: seq<Task>, i: nat)
    requires i < |ts|
    ensures Level(ts, FirstSource(ts)).attributions[i] ==
      (var a := ts[i].meta.attribution;
       var near := Coalesce(LastSource(ts[..i]), FirstSource(ts));
       if a.File? && near.Some? && near.value.SourceLocation? && near.value.url == a.url then near.value else a)
  {
    LevelAt(ts, FirstSource(ts), i);
    LastSourceIsSource(ts[..i]);
  }

  lemma {:induction false} LastSourceIsSource(ts: seq<Task>)
    ensures LastSource(ts).None? || LastSource(ts).value.SourceLocation?
    decreases |ts|
  {
    if ts != [] && !ts[|ts| - 1].meta.attribution.SourceLocation? {
      LastSourceIsSource(ts[..|ts| - 1]);
    }
  }
}
