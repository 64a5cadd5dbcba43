/** The older filter pass (src/analysis/filter.ts). Its markTasks and sweepTasks are the same
    walks as those of src/analysis/filterTasks.ts, so it reuses Filtering's; only the driver is
    its own. */
module LegacyFilter {
  import opened Tasks
  import Filtering

  /** filterTasks: the trace's task list becomes the marked-then-swept list. The swept forest
      lists, in pre-order, exactly the tasks marked true, each unchanged but for its children,
      and carries no marks. */
  method FilterTasks(trace: Trace, filter: Filtering.TaskFilter)
    modifies trace
    ensures trace.tasks == Filtering.Sweep(Filtering.Mark(old(trace.tasks), filter, false, false))
    ensures var m := Filtering.Mark(old(trace.tasks), filter, false, false);
      Filtering.Strips(PreOrder(trace.tasks)) == Filtering.Strips(Filtering.MarkedOnly(PreOrder(m))) &&
      Filtering.Strips(PreOrder(m)) == Filtering.Strips(PreOrder(old(trace.tasks))) &&
      Filtering.Unmarked(trace.tasks)
    ensures trace.frameInfo == old(trace.frameInfo) && trace.attributionMap == old(trace.attributionMap)
  {
    Filtering.FilterKeepsMarked(trace.tasks, filter);
    var _, marked := Filtering.MarkTasks(trace.tasks, filter, false, false);
    trace.tasks := Filtering.SweepTasks(marked);
  }
}
