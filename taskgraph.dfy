/** Task-id tagging over the task list the trace library builds (src/analysis/taskgraph.ts). */
module TaskGraph {
  import opened Wrappers

  /** A task node as the library hands it over: its parent link is fixed; its metadata is
      replaced by the tagging loop with a record holding only the task id. */
  class TaskNode {
    const parent: TaskNode?
    var metadata: Option<int>

    constructor (parent: TaskNode?)
      ensures this.parent == parent && metadata.None?
    {
      this.parent := parent;
      metadata := None;
    }
  }

  /** The tasks without a parent, in list order. */
  function Parentless(ts: seq<TaskNode>): (r: seq<TaskNode>)
    ensures forall i :: 0 <= i < |r| ==> r[i] in ts && r[i].parent == null
    ensures forall i :: 0 <= i < |ts| && ts[i].parent == null ==> ts[i] in r
    ensures |r| <= |ts|
  {
    if ts == [] then []
    else
      var rest := Parentless(ts[1..]);
      assert forall i :: 1 <= i < |ts| ==> ts[i] == ts[1..][i - 1];
      (if ts[0].parent == null then [ts[0]] else []) + rest
  }

  /** Filtering a concatenation filters each part: the roots keep the library's order. */
  lemma {:induction false} ParentlessAppend(a: seq<TaskNode>, b: seq<TaskNode>)
    ensures Parentless(a + b) == Parentless(a) + Parentless(b)
  {
    if a == [] {
      assert a + b == b;
    } else {
      assert (a + b)[0] == a[0];
      assert (a + b)[1..] == a[1..] + b;
      ParentlessAppend(a[1..], b);
    }
  }

  /** The tagging loop of computeMainThreadTasks: task k of the library's list gets id k, and
      the result holds the parentless tasks in list order. The library lists each task once. */
  method ComputeMainThreadTasks(allTasks: seq<TaskNode>) returns (tasks: seq<TaskNode>)
    requires forall i, j :: 0 <= i < j < |allTasks| ==> allTasks[i] != allTasks[j]
    modifies set t | t in allTasks
    ensures forall i :: 0 <= i < |allTasks| ==> allTasks[i].metadata == Some(i)
    ensures tasks == Parentless(allTasks)
  {
    tasks := [];
    var nextTaskId := 0;
    for k := 0 to |allTasks|
      invariant nextTaskId == k
      invariant forall i :: 0 <= i < k ==> allTasks[i].metadata == Some(i)
      invariant tasks == Parentless(allTasks[..k])
    {
      var task := allTasks[k];
      task.metadata := Some(nextTaskId);
      nextTaskId := nextTaskId + 1;
      if task.parent == null {
        tasks := tasks + [task];
      }
      ParentlessAppend(allTasks[..k], [task]);
      assert allTasks[..k + 1] == allTasks[..k] + [task];
    }
    assert allTasks[..|allTasks|] == allTasks;
  }
}
