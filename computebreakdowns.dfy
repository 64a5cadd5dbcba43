/** Breakdown aggregation (src/analysis/computeBreakdowns.ts): bottom-up, every task's
    breakdown is the sum of its children's breakdowns plus its own self time, credited to its
    group and to `total`. */
module ComputeBreakdowns {
  import opened Breakdowns
  import opened Tasks

  /** The part of a task's duration its descendants do not explain, never negative. */
  function SelfTime(duration: int, childTotal: int): (r: int)
    ensures r >= 0 && r >= duration - childTotal
    ensures r == duration - childTotal || r == 0
  {
    if duration - childTotal < 0 then 0 else duration - childTotal
  }

  /** The task's breakdown given the sum of its children's. A group id that is not a key of
      the breakdown adds nothing; a known one gets the self time, and so does `total` (twice,
      should the group id be "total" itself). */
  function TaskBreakdown(t: Task, subtree: Breakdown): Breakdown {
    if IsKey(t.groupId) then
      var selfTime := SelfTime(t.duration, subtree.total);
      AddAt(AddAt(subtree, t.groupId, selfTime), "total", selfTime)
    else subtree
  }

  /** The breakdowns stored on a list of tasks, in order. */
  function BreakdownsOf(ts: seq<Task>): (r: seq<Breakdown>)
    ensures |r| == |ts| && forall i :: 0 <= i < |ts| ==> r[i] == ts[i].meta.breakdown
  {
    if ts == [] then [] else [ts[0].meta.breakdown] + BreakdownsOf(ts[1..])
  }

  function GatherOne(t: Task): Task
    decreases t, 0
  {
    var children := Gather(t.children);
    t.(children := children, meta := t.meta.(breakdown := TaskBreakdown(t, Sum(BreakdownsOf(children)))))
  }

  /** gatherBreakdowns on a task list: every task and descendant gets its breakdown; the
      returned breakdown is Sum(BreakdownsOf(Gather(ts))). */
  function Gather(ts: seq<Task>): (r: seq<Task>)
    ensures |r| == |ts|
    decreases ts, 1
  {
    if ts == [] then [] else [GatherOne(ts[0])] + Gather(ts[1..])
  }

  /** With a known group other than "total", the task's `total` is its duration when the
      children's total does not exceed it, and the children's total otherwise; with an unknown
      group the breakdown is the children's sum. Self time goes to the task's group alone. */
  lemma {:induction false} TaskBreakdownFacts(t: Task, subtree: Breakdown)
    ensures !IsKey(t.groupId) ==> TaskBreakdown(t, subtree) == subtree
    ensures IsKey(t.groupId) && t.groupId != "total" ==>
      var b := TaskBreakdown(t, subtree);
      var selfTime := SelfTime(t.duration, subtree.total);
      b.total == (if t.duration >= subtree.total then t.duration else subtree.total) &&
      Get(b, t.groupId) == Get(subtree, t.groupId) + selfTime &&
      (forall k | k in GroupIds && k != t.groupId :: Get(b, k) == Get(subtree, k))
    ensures t.groupId == "total" ==>
      TaskBreakdown(t, subtree).total == subtree.total + 2 * SelfTime(t.duration, subtree.total)
  {
  }

  /** Sum over a list whose first element is known. */
  lemma {:induction false} SumCons(b: Breakdown, bs: seq<Breakdown>)
    ensures Sum([b] + bs) == Add(b, Sum(bs))
  {
    SumAppend([b], bs);
    assert [b][..0] == [];
  }

  /** A group other than "total" somewhere in the forest, at every task. */
  ghost predicate NoTotalGroup(ts: seq<Task>)
    decreases ts
  {
    forall i :: 0 <= i < |ts| ==> ts[i].groupId != "total" && NoTotalGroup(ts[i].children)
  }

  /** Every breakdown in the forest is non-negative and, when `consistent`, has `total` equal
      to the sum of its group fields. */
  ghost predicate WellFormed(ts: seq<Task>, consistent: bool)
    decreases ts
  {
    forall i :: 0 <= i < |ts| ==>
      ts[i].meta.breakdown.NonNegative() && (consistent ==> ts[i].meta.breakdown.Consistent()) &&
      WellFormed(ts[i].children, consistent)
  }

  lemma {:induction false} GatherAt(ts: seq<Task>, i: nat)
    requires i < |ts|
    ensures Gather(ts)[i] == GatherOne(ts[i])
    decreases ts
  {
    if i > 0 {
      GatherAt(ts[1..], i - 1);
    }
  }

  lemma {:induction false} TaskBreakdownWellFormed(t: Task, subtree: Breakdown)
    requires subtree.NonNegative()
    ensures TaskBreakdown(t, subtree).NonNegative()
    ensures subtree.Consistent() && t.groupId != "total" ==> TaskBreakdown(t, subtree).Consistent()
  {
  }

  /** Every breakdown is non-negative, whatever the durations; every total is the sum of its
      group fields unless a group id is "total". */
  lemma {:induction false} GatherWellFormed(ts: seq<Task>)
    ensures WellFormed(Gather(ts), false)
    ensures NoTotalGroup(ts) ==> WellFormed(Gather(ts), true)
    decreases ts
  {
    var r := Gather(ts);
    forall i | 0 <= i < |ts|
      ensures r[i].meta.breakdown.NonNegative() && WellFormed(r[i].children, false)
      ensures NoTotalGroup(ts) ==> r[i].meta.breakdown.Consistent() && WellFormed(r[i].children, true)
    {
      GatherAt(ts, i);
      var children := Gather(ts[i].children);
      GatherWellFormed(ts[i].children);
      var bs := BreakdownsOf(children);
      SumNonNegative(bs);
      if NoTotalGroup(ts) {
        SumConsistent(bs);
      }
      TaskBreakdownWellFormed(ts[i], Sum(bs));
    }
  }

  /** The sum of the durations of a task list. */
  function DurationSum(ts: seq<Task>): int {
    if ts == [] then 0 else ts[0].duration + DurationSum(ts[1..])
  }

  /** Every task has a known group other than "total" and lasts at least as long as its
      children together. */
  ghost predicate WellNested(ts: seq<Task>)
    decreases ts
  {
    forall i :: 0 <= i < |ts| ==>
      IsKey(ts[i].groupId) && ts[i].groupId != "total" &&
      ts[i].duration >= DurationSum(ts[i].children) && WellNested(ts[i].children)
  }

  /** Every task's `total` equals its duration. */
  ghost predicate TotalsAreDurations(ts: seq<Task>)
    decreases ts
  {
    forall i :: 0 <= i < |ts| ==>
      ts[i].meta.breakdown.total == ts[i].duration && TotalsAreDurations(ts[i].children)
  }

  /** Time conservation: in a well-nested forest every task's `total` is its duration, and a
      level's summed `total` is the sum of its durations. */
  lemma {:induction false} Conservation(ts: seq<Task>)
    requires WellNested(ts)
    ensures TotalsAreDurations(Gather(ts))
    ensures Sum(BreakdownsOf(Gather(ts))).total == DurationSum(ts)
    decreases ts, 1
  {
    var r := Gather(ts);
    forall i | 0 <= i < |ts|
      ensures r[i].meta.breakdown.total == ts[i].duration && TotalsAreDurations(r[i].children)
    {
      ConservationAt(ts, i);
    }
    if ts != [] {
      Conservation(ts[1..]);
      ConservationAt(ts, 0);
      ConservationSumStep(ts);
    }
  }

  /** One task of a well-nested forest: its `total` is its duration, and so below it. */
  lemma {:induction false} ConservationAt(ts: seq<Task>, i: nat)
    requires WellNested(ts) && i < |ts|
    ensures Gather(ts)[i].meta.breakdown.total == ts[i].duration
    ensures TotalsAreDurations(Gather(ts)[i].children)
    decreases ts, 0
  {
    GatherAt(ts, i);
    Conservation(ts[i].children);
    TaskBreakdownFacts(ts[i], Sum(BreakdownsOf(Gather(ts[i].children))));
  }

  lemma {:induction false} ConservationSumStep(ts: seq<Task>)
    requires ts != []
    requires Gather(ts)[0].meta.breakdown.total == ts[0].duration
    requires Sum(BreakdownsOf(Gather(ts[1..]))).total == DurationSum(ts[1..])
    ensures Sum(BreakdownsOf(Gather(ts))).total == DurationSum(ts)
  {
    var r := Gather(ts);
    var rest := BreakdownsOf(Gather(ts[1..]));
    assert r[1..] == Gather(ts[1..]);
    assert BreakdownsOf(r) == [r[0].meta.breakdown] + rest;
    SumCons(r[0].meta.breakdown, rest);
    assert Sum([r[0].meta.breakdown] + rest).total == r[0].meta.breakdown.total + Sum(rest).total;
  }

  /** gatherBreakdowns */
  method GatherBreakdowns(tasks: seq<Task>) returns (sum: Breakdown, out: seq<Task>)
    ensures out == Gather(tasks)
    ensures sum == Sum(BreakdownsOf(out))
    decreases tasks, 1
  {
    var allSubtreeBreakdowns: seq<Breakdown> := [];
    out := [];
    for i := 0 to |tasks|
      invariant Gather(tasks) == out + Gather(tasks[i..])
      invariant allSubtreeBreakdowns == BreakdownsOf(out)
    {
      var task := GatherTaskBreakdown(tasks[i]);
      GatherStep(tasks, out, i);
      BreakdownsOfSnoc(out, task);
      allSubtreeBreakdowns := allSubtreeBreakdowns + [task.meta.breakdown];
      out := out + [task];
    }
    sum := SumOfBreakdowns(allSubtreeBreakdowns);
  }

  lemma GatherStep(tasks: seq<Task>, done: seq<Task>, i: nat)
    requires i < |tasks|
    ensures done + Gather(tasks[i..]) == (done + [GatherOne(tasks[i])]) + Gather(tasks[i + 1..])
  {
    assert tasks[i..][0] == tasks[i] && tasks[i..][1..] == tasks[i + 1..];
  }

  lemma BreakdownsOfSnoc(ts: seq<Task>, t: Task)
    ensures BreakdownsOf(ts + [t]) == BreakdownsOf(ts) + [t.meta.breakdown]
  {
  }

  /** The body of gatherBreakdowns' loop for one task. */
  method GatherTaskBreakdown(task: Task) returns (out: Task)
    ensures out == GatherOne(task)
    decreases task, 0
  {
    var subtreeBreakdown, children := GatherBreakdowns(task.children);
    ghost var childSum := subtreeBreakdown;
    if IsKey(task.groupId) {
      var selfTime := task.duration - subtreeBreakdown.total;
      if selfTime < 0 {
        selfTime := 0;
      }
      assert selfTime == SelfTime(task.duration, childSum.total);
      subtreeBreakdown := AddAt(subtreeBreakdown, task.groupId, selfTime);
      subtreeBreakdown := AddAt(subtreeBreakdown, "total", selfTime);
    }
    assert subtreeBreakdown == TaskBreakdown(task, childSum);
    out := task.(children := children, meta := task.meta.(breakdown := subtreeBreakdown));
  }

  /** computeBreakdowns */
  method ComputeBreakdowns(trace: Trace)
    modifies trace
    ensures trace.tasks == Gather(old(trace.tasks))
    ensures trace.frameInfo == old(trace.frameInfo) && trace.attributionMap == old(trace.attributionMap)
  {
    var _, tasks := GatherBreakdowns(trace.tasks);
    trace.tasks := tasks;
  }
}
