# chromium-trace-analyzer, modelled in Dafny

chromium-trace-analyzer reads a Chrome performance trace and reports where the main thread's time went. The trace library pairs the trace events into a forest of tasks. Each task has an event (name, category, args), a duration, a task group, the Lighthouse-attributable URLs and its children. The analyzer then runs a sequence of passes over that forest:

- **Task-id tagging** (`TaskGraph`) numbers the library's tasks and keeps the parentless ones as the trace's top level.
- **Frame inference** (`FrameInference`, and `LegacyFrames` for the older `frames.ts`) builds a first-writer-wins map from stack-frame id to source location.
- **Attribution assignment** (`Assign`) gives every task an attribution: unknown, a file, or a source location. It picks the first of a chain of heuristics and interns the result in the trace's `AttributionMap` (`Attributions`). A position at line 1, column 1 is downgraded to file level. The pass also sets the task's context: the trigger inherited from its ancestors and a copy of its URLs.
- **Propagation** (`Propagate`) moves attributions down, up and sideways through the tree, by scope and by sequence. A task only ever moves to a more specific attribution: unknown, then file, then source location. The passes repeat until nothing changes, with a cap of ten rounds.
- **The meta-pass** (`Infer`) alternates propagation with frame re-inference and a frame-based update. It then marks **attribution roots** (`AttributionRoots`): the entry points of subtrees with one attribution.
- **Breakdown aggregation** (`ComputeBreakdowns`, over `Breakdowns`) computes each task's time per task group, bottom-up, from self time and its children's sums.
- **Play-by-plays** (`PlayByPlays`) list each task's subtree in pre-order. Consecutive entries with the same attribution and category are merged into runs.
- **Filtering** (`Filtering`) marks and sweeps tasks by a filter, or by a script URL pattern. The older `filter.ts` (`LegacyFilter`) has the same mark and sweep functions, so it reuses `Filtering`'s; only its driver is its own.
- **Summaries** (`Summaries`) gather cumulative, longest-instance and per-task statistics over attribution roots, sorted by total time and optionally filtered.
- **The older single-file attribution pass** `attribution.ts` (`LegacyAttribution`) works on records that carry the URLs and triggers inside the attribution. Its trigger rule is the same function as the newer pass's, so it reuses `Assign.PropagateTrigger`. Lemmas relate each of its steps to the newer passes.

The model's design:
- Tasks are values: a `Task` datatype with a sequence of children and one metadata record.
- Each pass is a method that loops over a sibling list and recurses into children, as the source does. Each method is proved equal to a specification function.
- The specification functions carry the lemmas: rank never falls, the changed flags are exact, time is conserved, play-by-plays are pre-order, the kept set is closed under ancestors, and so on.
- State the source updates in place is modelled as classes: the trace (`Tasks.Trace`), the interning table, a mutable breakdown, the ancestor stack, the summary maps and the library's task nodes.

The repository is in the middle of a refactor. Some passes still read the older `metadata.attributionInfo` record (`src/analysis/propagateAttributions.ts` lines 2 and 72, `src/analysis/filterTasks.ts` line 115). The model follows the newer record layout throughout: an interned `attribution` (kind, url, line, column) and a separate `context` (isTopLevel, isAttributionRoot, URLs, triggers), as `src/attributions.ts` lines 13-27 and 69-72 declare. So propagation replaces only the kind and position, and leaves the context's URLs and triggers in place, which is what `src/analysis/propagateAttributions.ts` lines 53-57 keep. The URL filter reads the task's attribution and context, which is what `src/analysis/filterTasks.ts` lines 115-116 evidently mean.

Where the source compares attributions by identity (`===`, `includes`, `!==`), the model compares values. Every attribution that the passes store is interned, one value per id, and the id is injective on kind, url, line and column (`Attributions.IdInjective`, `Assign.SharedAttribution`). A replacement in propagation always changes the kind, so a changed flag means the same thing either way.

## Model

| member | source | states |
|---|---|---|
| Breakdowns.MutableBreakdown.constructor | src/breakdowns.ts:13-24 | createBreakdown: all seven group fields and `total` are 0 |
| Breakdowns.AddAt | src/analysis/computeBreakdowns.ts:47-48 | adding to one field changes that field alone, and by exactly the amount added |
| Breakdowns.MergeBreakdownInto | src/breakdowns.ts:28-49 | every field of `existing` becomes op(toMerge.f, existing.f); `toMerge` is a value and cannot change |
| Breakdowns.SumOfBreakdowns | src/breakdowns.ts:51-63 | the result is the sum of the inputs; with no input it is the zero breakdown; each field is the sum of that field over the inputs |
| Breakdowns.MaxOfBreakdowns | src/breakdowns.ts:65-83 | the loop computes MaxOf, the fold in which every field of a step is chosen by the accumulator's total before the step (`total` is written last) |
| Breakdowns.SumFieldwise | src/breakdowns.ts:51-63 | each field of a sum is the sum of that field over the inputs |
| Breakdowns.SumConsistent | src/breakdowns.ts:55-60 | when every input's total is the sum of its seven group fields, so is the sum's |
| Breakdowns.SumNonNegative | src/breakdowns.ts:51-63 | a sum of non-negative breakdowns is non-negative |
| Breakdowns.SumAppend | src/breakdowns.ts:51-63 | summing a concatenation adds the two partial sums |
| Breakdowns.SumPair | src/analysis/summarize.ts:56-59 | the two-argument sum is the fieldwise addition |
| Breakdowns.MaxOfIsFirstMaximum | src/breakdowns.ts:65-83 | the result is zero or a copy of the FIRST input with the strictly greatest positive total; its total bounds every input's and is never negative |
| Strings.ContainsAt | src/attributions.ts:157 | `includes` holds when the pattern occurs at some offset |
| Strings.ContainsWitness | src/attributions.ts:157 | when `includes` holds, the pattern occurs at some offset (with ContainsAt: `includes` is substring occurrence) |
| Strings.NatToStringDigits | src/attributions.ts:80 | the decimal text of a natural number is a non-empty string of digits that reads back as the number |
| Strings.IntToStringRoundTrip | src/attributions.ts:80 | the decimal text of an integer is digits after an optional leading minus, and reading it back gives the integer |
| Strings.IntToStringHasNo | src/attributions.ts:80 | the decimal text of an integer holds no character other than digits and a minus, so no '#' |
| Strings.IntToStringInjective | src/attributions.ts:80 | different numbers have different decimal texts |
| Strings.FirstWord | src/analysis/addPlayByPlays.ts:52 | `name.split(' ')[0]`: a space-free prefix of the name, followed by a space when shorter than the name |
| Strings.FirstWordOfSentence | src/analysis/addPlayByPlays.ts:52 | the first word of "w rest" is w when w has no space |
| Attributions.LastIndexOf | src/attributions.ts:80 | the last occurrence of a character, or none |
| Attributions.ParseSourceId | src/attributions.ts:80 | a source-location id splits back into url, column and line text, whatever '#' the url holds |
| Attributions.IdRoundTrip | src/attributions.ts:77-92 | the id can be read back into kind, url, line and column: it drops only the function name, generated position and source lines |
| Attributions.IdInjective | src/attributions.ts:77-92 | two attributions have the same id exactly when their kind, url, line and column agree |
| Attributions.Intern | src/attributions.ts:97-105 | create as a value: the table keeps every entry and gains only the argument's id; a new id stores and returns the argument itself, a known id leaves the table unchanged and returns the attribution stored under it |
| Attributions.InternWellKeyed | src/attributions.ts:97-105 | interning keeps every entry under its own id and returns an attribution with the argument's kind, url, line and column |
| Attributions.InternSameIdSameValue | src/attributions.ts:62-65 | first writer wins: a second create with an equal id returns the first stored attribution and leaves the table unchanged |
| Attributions.AttributionMap.constructor | src/attributions.ts:95 | the map starts empty |
| Attributions.AttributionMap.Create | src/attributions.ts:97-105 | returns the stored value when the id is present, else stores and returns the argument; no entry is removed or replaced |
| Attributions.AttributionMap.GetById | src/attributions.ts:107-109 | defined exactly for stored ids, returning the stored value |
| Attributions.AttributionMap.GetByValue | src/attributions.ts:111-113 | defined exactly when an attribution with the same id was created, returning that stored value with the argument's key |
| Attributions.SomeContains | src/attributions.ts:176-178 | true exactly when some URL contains the pattern |
| Attributions.IsAttributedToWithLine | src/attributions.ts:155-170 | with a line number: true exactly for a source location whose url contains the pattern and whose line matches, or whose generated position does |
| Attributions.IsAttributedToWithoutLine | src/attributions.ts:155-181 | without a line number: true exactly when the source-location or file url, the generated url or some Lighthouse URL contains the pattern |
| TaskGraph.TaskNode.constructor | src/analysis/taskgraph.ts:43 | a library task with its fixed parent link and no metadata yet |
| TaskGraph.Parentless | src/analysis/taskgraph.ts:58-60 | exactly the parentless tasks of the list, and no more of them than the list holds |
| TaskGraph.ParentlessAppend | src/analysis/taskgraph.ts:58-60 | the roots of a concatenation are the roots of each part in order, so they keep the library's order |
| TaskGraph.ComputeMainThreadTasks | src/analysis/taskgraph.ts:53-61 | task k of the library's list gets metadata holding only id k (so ids are distinct and below the task count), and the result is exactly the parentless tasks in library order |
| Tasks.Trace.constructor | src/analysis/taskgraph.ts:45-48 | a trace holds the top-level tasks and starts with no frame map and no attribution map |
| FrameInference.Record | src/analysis/inferFrameSourceLocations.ts:12-31 | recording one event keeps every entry already in the map |
| FrameInference.Walk | src/analysis/inferFrameSourceLocations.ts:5-36 | the walk only extends the map: existing entries are never overwritten |
| FrameInference.WalkIsPreOrderFold | src/analysis/inferFrameSourceLocations.ts:9-35 | the recursive walk records the events in pre-order (each task before its children, siblings in order) |
| FrameInference.FoldFirstWriter | src/analysis/inferFrameSourceLocations.ts:13-17 | an entry already mapped is kept; an unmapped frame id is mapped exactly when some event names it and yields an entry, and then to the FIRST such event's entry |
| FrameInference.WalkIdempotent | src/analysis/inferFrameSourceLocations.ts:9-35 | walking the same forest again from the walk's own result adds nothing |
| FrameInference.WalkDependsOnEvents | src/analysis/inferFrameSourceLocations.ts:9-35 | the walk reads only the events and their nesting, never the metadata |
| FrameInference.CurrentEntry | src/analysis/inferFrameSourceLocations.ts:15-26 | an entry exists exactly when data.url is truthy and `lineNumber ?? startLine` is defined; it copies url and function name, takes the line from lineNumber else startLine, and the column from columnNumber else 0 |
| FrameInference.GatherFrameInfo | src/analysis/inferFrameSourceLocations.ts:5-36 | the loop with its recursive call computes the pre-order walk with the current entry rule, recording only for a truthy frame id (`data.frame ?? args.frame`) not yet mapped |
| FrameInference.InferFrameSourceLocations | src/analysis/inferFrameSourceLocations.ts:38-46 | an existing frame map is reused and extended by the walk, and stored back on the trace; nothing else changes |
| FrameInference.InferTwiceIsOnce | src/analysis/inferFrameSourceLocations.ts:42-45 | running the pass twice on an unchanged forest equals running it once |
| LegacyFrames.LegacyEntry | src/analysis/frames.ts:22-34 | an entry exists exactly when url, lineNumber and columnNumber are all truthy (line 0 or column 0 is rejected), and copies those four fields |
| LegacyFrames.GatherFrameInfo | src/analysis/frames.ts:14-39 | the same pre-order, first-writer-wins walk with the older entry rule |
| LegacyFrames.InferFrameSourceLocations | src/analysis/frames.ts:41-48 | every run starts from a fresh empty map, which replaces any earlier frame map |
| LegacyFrames.LegacyKeysWithinCurrent | src/analysis/frames.ts:22-28 | every frame id the older pass maps, the current pass maps too |
| Assign.NewURLs | src/analysis/assignAttributions.ts:104-109 | exactly the task's URLs that the ancestors' URL set does not hold |
| Assign.CollectNewURLs | src/analysis/assignAttributions.ts:104-109 | the loop collects those URLs, in order |
| Assign.NewURLsAppend | src/analysis/assignAttributions.ts:104-109 | the collection of a concatenation is the concatenation of the collections |
| Assign.Widen | src/analysis/assignAttributions.ts:204-209 | the children's URL set is the ancestors' set together with the task's URLs |
| Assign.ExtractStackTraceFirst | src/analysis/assignAttributions.ts:32-39 | a non-empty stack trace (`data.stackTrace ?? args.beginData.stackTrace`) gives the source location of its first frame, ahead of every other rule |
| Assign.ExtractSourceIff | src/analysis/assignAttributions.ts:32-67 | the candidate is a source location exactly when there is a stack trace, a url (`data.url ?? data.fileName`) with defined line and column, or a truthy frame id present in the frame map |
| Assign.ExtractUnknownIff | src/analysis/assignAttributions.ts:69-124 | the candidate is unknown exactly when no heuristic applies: no stack trace, url, mapped frame, args.fileName, single Lighthouse URL or single new URL |
| Assign.ExtractAttribution | src/analysis/assignAttributions.ts:20-125 | the method interns the candidate of the first applicable heuristic, in the source's order |
| Assign.Simplify | src/analysis/assignAttributions.ts:133-153 | a value other than a (1,1) source location is returned unchanged with the table unchanged; a (1,1) one makes the table hold file(url) |
| Assign.SimplifyResult | src/analysis/assignAttributions.ts:133-153 | the result is never a (1,1) source location; such a value becomes exactly file(url); the table stays well keyed and only grows |
| Assign.SimplifyAttribution | src/analysis/assignAttributions.ts:133-153 | the method computes Simplify on the map's table |
| Assign.PropagateTrigger | src/analysis/assignAttributions.ts:157-171 | a devtools.timeline event with data starts the trigger `name type` when its type is non-empty, the bare name when the type is empty, `name url` when the type is absent and the url non-empty, and the bare name otherwise; otherwise RunMicrotasks and v8.compile name themselves; every other event inherits the enclosing trigger |
| Assign.GatherOne | src/analysis/assignAttributions.ts:180-218 | labelling one task yields one task and only extends the table |
| Assign.Gather | src/analysis/assignAttributions.ts:173-219 | labelling a list yields one task per task and only extends the table |
| Assign.LabelTask | src/analysis/assignAttributions.ts:182-192 | extractAttribution then simplifyAttribution, both through the same map |
| Assign.AttributeTask | src/analysis/assignAttributions.ts:180-218 | one loop iteration: attribution, context (not a root, a copy of the URLs, the inherited trigger), then the children with the propagated trigger and the widened URL set |
| Assign.GatherAttributions | src/analysis/assignAttributions.ts:173-219 | the loop with its recursive calls computes Gather, threading the interning table |
| Assign.AssignAttributions | src/analysis/assignAttributions.ts:223-243 | a fresh AttributionMap; the roots start from trigger 'RunTask' and an empty URL set; the frame map is untouched |
| Assign.LabelInTable | src/analysis/assignAttributions.ts:182-192 | the assigned attribution is the stored one for its id and never a (1,1) source location |
| Assign.GatherOneLabels | src/analysis/assignAttributions.ts:180-218 | every task of one labelled subtree is labelled: stored attribution, no (1,1) source, not a root, its own URLs; the task's triggers are exactly `[scopeTrigger]` and each child below holds the trigger propagateTrigger derives from its parent |
| Assign.GatherLabelsAll | src/analysis/assignAttributions.ts:173-219 | after assignment every task of the forest is labelled by the final table, which stays well keyed, and every task's triggers are exactly the trigger inherited from its ancestors through propagateTrigger, starting from the given root trigger |
| Assign.LabelledGrows | src/attributions.ts:95-105 | labels stay valid as the table grows |
| Assign.SharedAttribution | src/analysis/assignAttributions.ts:35-124 | two tasks whose attributions agree in kind, url, line and column hold the same attribution value: everything assigned comes from create |
| Assign.GatherOneKeepsSkeleton | src/analysis/assignAttributions.ts:180-218 | labelling one task keeps its event, URLs and nesting |
| Assign.GatherKeepsSkeleton | src/analysis/assignAttributions.ts:173-219 | assignment keeps every event and the nesting of the forest |
| Propagate.PropagateAttribution | src/analysis/propagateAttributions.ts:12-58 | the result is the task's attribution or the propagated one, and the latter only when strictly higher in rank |
| Propagate.PropagateAttributionIff | src/analysis/propagateAttributions.ts:16-49 | a replacement happens exactly when a file meets a source location in the same script, or an unknown meets anything known; no propagated value or a source location leaves it unchanged |
| Propagate.Candidate | src/analysis/propagateAttributions.ts:91-121 | the upward candidate is absent or a source location |
| Propagate.CandidateAfterFound | src/analysis/propagateAttributions.ts:95-120 | once a candidate is found, it survives exactly when every later source-location child is at the same place and every later file child is in its script |
| Propagate.CandidateIsFirstAgreeingSource | src/analysis/propagateAttributions.ts:91-121 | the candidate is the first source-location child, kept only when all later children agree with it; unknown children and file children before it play no part |
| Propagate.FirstSourceIndex | src/analysis/propagateAttributions.ts:92-98 | the index of the first source-location child, with none before it |
| Propagate.ScopeOne | src/analysis/propagateAttributions.ts:69-134 | one task of the scope pass yields one task |
| Propagate.Scope | src/analysis/propagateAttributions.ts:63-138 | the scope pass yields one task per task |
| Propagate.PropagateByScope | src/analysis/propagateAttributions.ts:63-138 | the loop computes the scope pass and its changed flag |
| Propagate.PropagateScopeTask | src/analysis/propagateAttributions.ts:69-134 | one iteration: downward propagation, the children, the candidate scan with its early breaks, and the upward propagation |
| Propagate.FirstSource | src/analysis/propagateAttributions.ts:148-158 | the first source location among the siblings, if any |
| Propagate.LocateFirstSource | src/analysis/propagateAttributions.ts:148-158 | the first loop, which breaks at the first source location, finds it |
| Propagate.NextSource | src/analysis/propagateAttributions.ts:166-169 | the latest source location stays a source location |
| Propagate.Level | src/analysis/propagateAttributions.ts:164-185 | the sibling walk gives one attribution per sibling |
| Propagate.WalkSequence | src/analysis/propagateAttributions.ts:164-185 | the second loop computes the sibling walk and whether it replaced anything |
| Propagate.LevelAt | src/analysis/propagateAttributions.ts:164-185 | sibling i takes the step with the latest source location before it, or the starting one when there is none |
| Propagate.NearestSource | src/analysis/propagateAttributions.ts:148-185 | a file sibling takes the nearest preceding source-location sibling (the first one for siblings before it) when in the same script; sources and unknowns are untouched |
| Propagate.LastSourceIsSource | src/analysis/propagateAttributions.ts:166-169 | the latest source location found is a source location |
| Propagate.SequenceChildren | src/analysis/propagateAttributions.ts:188-191 | the last loop yields one task per task |
| Propagate.Sequence | src/analysis/propagateAttributions.ts:143-194 | the sequence pass yields one task per task |
| Propagate.PropagateSequenceChildren | src/analysis/propagateAttributions.ts:188-191 | the last loop applies the level's attributions and processes each task's children |
| Propagate.PropagateBySequence | src/analysis/propagateAttributions.ts:143-194 | the method computes the sequence pass and its changed flag |
| Propagate.PropagateAttributions | src/analysis/propagateAttributions.ts:198-219 | at most ten iterations of scope then sequence, stopping after the first that changed nothing; the trace's other metadata is untouched |
| Propagate.BetterTransitive | src/analysis/propagateAttributions.ts:12-58 | "the same or strictly more specific" is transitive |
| Propagate.ImprovesReflexive | src/analysis/propagateAttributions.ts:63-194 | a forest improves on itself |
| Propagate.ImprovesTransitive | src/analysis/propagateAttributions.ts:63-194 | improvement composes across passes |
| Propagate.RankSum | src/analysis/propagateAttributions.ts:12-58 | the rank sum is at most twice the number of tasks, so each task changes at most twice |
| Propagate.ImprovesRankSum | src/analysis/propagateAttributions.ts:12-58 | improving keeps the number of tasks, never lowers the rank sum, and raises it whenever anything changed |
| Propagate.ScopeOneImproves | src/analysis/propagateAttributions.ts:69-134 | one task of the scope pass only raises attributions and reports a change exactly when it made one |
| Propagate.ScopeImproves | src/analysis/propagateAttributions.ts:63-138 | the scope pass only raises attributions, changes nothing else, and returns true exactly when some attribution was replaced |
| Propagate.ImprovesCons | src/analysis/propagateAttributions.ts:69-135 | improvement of the first task and of the rest is improvement of the list, which changed exactly when a part did |
| Propagate.LevelFacts | src/analysis/propagateAttributions.ts:164-185 | the sibling walk only raises attributions and reports a change exactly when it made one |
| Propagate.SequenceChildrenFacts | src/analysis/propagateAttributions.ts:188-191 | applying raised attributions and processing the children improves the list |
| Propagate.SequenceChildrenChanged | src/analysis/propagateAttributions.ts:188-191 | the last loop's list differs from its input exactly when a child pass reported a change or some sibling's new attribution differs from its old one |
| Propagate.SequenceImproves | src/analysis/propagateAttributions.ts:143-194 | the sequence pass only raises attributions and returns true exactly when some attribution was replaced |
| Propagate.RoundImproves | src/analysis/propagateAttributions.ts:209-215 | one iteration only raises attributions and reports a change exactly when the forest changed |
| Propagate.IterateImproves | src/analysis/propagateAttributions.ts:204-218 | the loop's result only raises attributions |
| Propagate.IterateReachesFixedPoint | src/analysis/propagateAttributions.ts:201-218 | with more iterations than 2·size − rank sum, the loop ends at a fixed point of both passes: the cap only matters when there is more room to improve |
| Infer.FromFrameInfo | src/analysis/inferAttributions.ts:21-44 | interning the new attribution only extends the attribution table |
| Infer.FromFrameInfoResult | src/analysis/inferAttributions.ts:21-44 | a source location is kept; a frame at line 1, column 1 turns only an unknown into the file of the frame's script; any other frame gives the frame's source location; the rank never falls, and the result differs exactly for an unknown, or a file meeting a frame past (1,1) |
| Infer.MappedFrame | src/analysis/inferAttributions.ts:61-64 | a frame is found exactly when `data.frame ?? args.frame` is a non-empty string with an entry in the frame map |
| Infer.UpdateAttribution | src/analysis/inferAttributions.ts:57-81 | a task's attribution changes only when it is not a source location and its frame is mapped |
| Infer.UpdateOne | src/analysis/inferAttributions.ts:56-89 | one task of updateFrameAttributions yields one task, and the table only grows |
| Infer.Update | src/analysis/inferAttributions.ts:49-92 | updateFrameAttributions yields one task per task, and the table only grows |
| Infer.UpdateAttributionFacts | src/analysis/inferAttributions.ts:57-81 | the new attribution is at least as specific as the old and leaves nothing more to do at that task |
| Infer.UpdateOneFacts | src/analysis/inferAttributions.ts:56-89 | one task: attributions only rise, every task below is settled, and the flag is true exactly when something changed |
| Infer.UpdateFacts | src/analysis/inferAttributions.ts:49-92 | updateFrameAttributions only raises attributions, leaves every task settled, and returns true exactly when the forest changed |
| Infer.SettledUnchanged | src/analysis/inferAttributions.ts:49-92 | on a settled forest updateFrameAttributions changes nothing and returns false |
| Infer.SettledImproves | src/analysis/inferAttributions.ts:104-122 | raising attributions keeps a settled forest settled |
| Infer.ImprovesSkeleton | src/analysis/inferAttributions.ts:108-112 | propagation leaves events and nesting as they were, so frame inference sees the same forest |
| Infer.LoopEndsWithinTwoRounds | src/analysis/inferAttributions.ts:96-126 | with two or more rounds allowed, the loop's result is that of two rounds: the second update changes nothing, so the cap of ten is never reached |
| Infer.LoopSettles | src/analysis/inferAttributions.ts:96-126 | when the loop stops, every task with a mapped frame is a source location, or at least a file when the frame is at (1,1) |
| Infer.PropagateAttributionFromFrameInfo | src/analysis/inferAttributions.ts:21-44 | the method interns through the trace's attribution map exactly as the function describes |
| Infer.UpdateFrameAttributions | src/analysis/inferAttributions.ts:49-92 | the loop computes updateFrameAttributions' forest, flag and table |
| Infer.UpdateTask | src/analysis/inferAttributions.ts:56-89 | one iteration: the task's update, then its children, with the changed flag or-ed |
| Infer.PropagateAndInferRound | src/analysis/inferAttributions.ts:107-117 | one round: propagateAttributions, frame inference over the propagated forest, then updateFrameAttributions with the new frame map |
| Infer.PropagateAndInferAttributions | src/analysis/inferAttributions.ts:96-126 | at most ten rounds, stopping after the first whose update changed nothing |
| Infer.InferAttributions | src/analysis/inferAttributions.ts:131-144 | frame inference, assignment, the propagate-and-infer loop and root finding, in that order, with a fresh attribution map |
| Infer.PipelineResult | src/analysis/inferAttributions.ts:131-144 | after inferAttributions no attribution root nests within a root of the same attribution, every top-level task is a root, and every task with a mapped frame is settled |
| AttributionRoots.RootsOne | src/analysis/findAttributionRoots.ts:13-33 | a task is flagged a root exactly when its attribution is not among its ancestors' |
| AttributionRoots.Roots | src/analysis/findAttributionRoots.ts:9-34 | the pass yields one task per task |
| AttributionRoots.RootsSpec | src/analysis/findAttributionRoots.ts:9-34 | every flag in the forest says whether the task's attribution is absent from its ancestors', and nothing but the flags changes |
| AttributionRoots.TopLevelTasksAreRoots | src/analysis/findAttributionRoots.ts:38-43 | starting from an empty stack, every top-level task is a root |
| AttributionRoots.NoRootBelowAncestor | src/analysis/findAttributionRoots.ts:16-18 | no task below an ancestor with attribution a is a root for a |
| AttributionRoots.RootsAreExclusive | src/analysis/findAttributionRoots.ts:9-34 | of two roots with the same attribution, neither lies below the other |
| AttributionRoots.RootsIdempotent | src/analysis/findAttributionRoots.ts:24-26 | every flag is overwritten, so running the pass again changes nothing |
| AttributionRoots.AncestorStack.constructor | src/analysis/findAttributionRoots.ts:42 | the stack starts empty |
| AttributionRoots.AncestorStack.Push | src/analysis/findAttributionRoots.ts:30 | push appends the attribution |
| AttributionRoots.AncestorStack.Pop | src/analysis/findAttributionRoots.ts:32 | pop removes the last attribution |
| AttributionRoots.AncestorStack.Includes | src/analysis/findAttributionRoots.ts:18 | includes is true exactly when the attribution is on the stack |
| AttributionRoots.AssignAttributionRoots | src/analysis/findAttributionRoots.ts:9-34 | the loop computes the pass with the stack's contents as the ancestors, and leaves the stack as it found it |
| AttributionRoots.AssignTaskRoot | src/analysis/findAttributionRoots.ts:14-32 | one iteration sets the flag, recurses with the attribution pushed, then pops it |
| AttributionRoots.FindAttributionRoots | src/analysis/findAttributionRoots.ts:38-43 | the pass runs from an empty stack and touches nothing but the tasks |
| ComputeBreakdowns.SelfTime | src/analysis/computeBreakdowns.ts:28-38 | self time is the duration less the children's total, clamped at zero |
| ComputeBreakdowns.BreakdownsOf | src/analysis/computeBreakdowns.ts:54 | the breakdowns collected at a level are the tasks' own, in order |
| ComputeBreakdowns.Gather | src/analysis/computeBreakdowns.ts:15-60 | the pass yields one task per task |
| ComputeBreakdowns.TaskBreakdownFacts | src/analysis/computeBreakdowns.ts:27-51 | an unknown group id adds nothing; a known group other than total gets the self time, no other group changes, and total becomes the larger of the duration and the children's total; a group named total gets the self time twice |
| ComputeBreakdowns.TaskBreakdownWellFormed | src/analysis/computeBreakdowns.ts:27-53 | a task's breakdown stays non-negative, and stays consistent (total equals the sum of the groups) unless its group id is total |
| ComputeBreakdowns.GatherWellFormed | src/analysis/computeBreakdowns.ts:15-60 | every breakdown in the forest is non-negative whatever the durations, and consistent when no group id is total |
| ComputeBreakdowns.Conservation | src/analysis/computeBreakdowns.ts:15-60 | when every task has a known group and outlasts its children together, every task's total is its duration and a level's summed total is the sum of its durations |
| ComputeBreakdowns.ConservationAt | src/analysis/computeBreakdowns.ts:20-53 | the same for one task of such a forest and everything below it |
| ComputeBreakdowns.GatherBreakdowns | src/analysis/computeBreakdowns.ts:15-60 | the loop computes every task's breakdown and returns the sum of the level's breakdowns |
| ComputeBreakdowns.GatherTaskBreakdown | src/analysis/computeBreakdowns.ts:20-54 | one iteration: the children's sum plus the clamped self time in the task's group and in total |
| ComputeBreakdowns.ComputeBreakdowns | src/analysis/computeBreakdowns.ts:64-73 | the pass rewrites the tasks and nothing else of the trace |
| PlayByPlays.TaskName | src/analysis/addPlayByPlays.ts:12-21 | a task's name is `name type` for a devtools.timeline event with data and a non-empty type, the bare name for an empty type, `name url` when the type is absent and the url non-empty, and the event name in every other case |
| PlayByPlays.TriggerIsTaskName | src/analysis/addPlayByPlays.ts:12-21 | for a devtools.timeline event with data the task name is the trigger that assignment gives such an event; otherwise it is the event name |
| PlayByPlays.EntriesOf | src/analysis/addPlayByPlays.ts:29-34 | one entry per task |
| PlayByPlays.Gather | src/analysis/addPlayByPlays.ts:23-47 | the pass yields one task per task |
| PlayByPlays.GatherOneIsPreOrder | src/analysis/addPlayByPlays.ts:28-41 | a task's play-by-play is the entries of its subtree in pre-order |
| PlayByPlays.GatherIsPreOrder | src/analysis/addPlayByPlays.ts:23-47 | the level's concatenated play-by-play is the entries of the whole forest in pre-order |
| PlayByPlays.GatherAt | src/analysis/addPlayByPlays.ts:28-43 | every task of a level gets its subtree's pre-order entries, and its children are processed in turn |
| PlayByPlays.GatherPlayByPlays | src/analysis/addPlayByPlays.ts:23-47 | the loop computes the pass and returns the concatenation of the level's play-by-plays |
| PlayByPlays.GatherTaskPlayByPlay | src/analysis/addPlayByPlays.ts:29-41 | one iteration: the task's entry followed by its children's entries |
| PlayByPlays.CategoryReadsFirstWord | src/analysis/addPlayByPlays.ts:51-52 | the category depends only on the name's first space-separated word |
| PlayByPlays.CategoryOtherIff | src/analysis/addPlayByPlays.ts:51-91 | a name is 'other' exactly when its first word is none of the listed words |
| PlayByPlays.FirstSeen | src/analysis/addPlayByPlays.ts:99-103 | the distinct names of a run, each once, and nothing else |
| PlayByPlays.Occurrences | src/analysis/addPlayByPlays.ts:101-102 | a name's count is zero exactly when it does not occur |
| PlayByPlays.Summaries | src/analysis/addPlayByPlays.ts:105-112 | one summarized name per distinct name of the run |
| PlayByPlays.BumpFacts | src/analysis/addPlayByPlays.ts:101-102 | a new name goes last with count 1; a known name keeps its place and counts one more, the others unchanged |
| PlayByPlays.NameCountsFacts | src/analysis/addPlayByPlays.ts:99-103 | the names Map holds the run's distinct names in first-seen order, each with its number of occurrences |
| PlayByPlays.MergeRun | src/analysis/addPlayByPlays.ts:93-124 | the merged entry carries every task id in order, the distinct names in first-seen order with their counts, the run's attribution and the sum of its breakdowns |
| PlayByPlays.CollectTaskIds | src/analysis/addPlayByPlays.ts:97 | the run's task ids, concatenated in order |
| PlayByPlays.CountNames | src/analysis/addPlayByPlays.ts:99-103 | the loop builds the names Map |
| PlayByPlays.SummarizeNames | src/analysis/addPlayByPlays.ts:105-112 | a name with count 1 is kept as is; others get the count appended as " (xN)" |
| PlayByPlays.Runs | src/analysis/addPlayByPlays.ts:135-156 | the runs are non-empty, no more numerous than the entries, and exist whenever there are entries |
| PlayByPlays.RunsSnoc | src/analysis/addPlayByPlays.ts:143-155 | another entry extends the last run when it has that run's attribution and category, and starts a new run otherwise |
| PlayByPlays.RunsFlatten | src/analysis/addPlayByPlays.ts:135-160 | the runs partition the play-by-play in order |
| PlayByPlays.RunsUniform | src/analysis/addPlayByPlays.ts:143-148 | every entry of a run has the run's attribution and category |
| PlayByPlays.RunsSeparated | src/analysis/addPlayByPlays.ts:151-155 | neighbouring runs differ in attribution or category |
| PlayByPlays.MergeAll | src/analysis/addPlayByPlays.ts:151-160 | one merged entry per run |
| PlayByPlays.Simplify | src/analysis/addPlayByPlays.ts:126-163 | simplification never lengthens a play-by-play |
| PlayByPlays.SimplifyFacts | src/analysis/addPlayByPlays.ts:126-163 | simplification keeps every task id in order; each merged entry has its run's attribution and the sum of its run's breakdowns; the runs are maximal |
| PlayByPlays.SimplifyPlayByPlay | src/analysis/addPlayByPlays.ts:126-163 | the loop with its run, attribution and category variables computes the maximal-run simplification |
| PlayByPlays.SimplifyAll | src/analysis/addPlayByPlays.ts:165-172 | one task per task |
| PlayByPlays.SimplifyPlayByPlays | src/analysis/addPlayByPlays.ts:165-172 | every play-by-play in the forest is simplified |
| PlayByPlays.SimplifyTaskPlayByPlay | src/analysis/addPlayByPlays.ts:168-171 | one iteration: the task's play-by-play, then its children |
| PlayByPlays.AddPlayByPlays | src/analysis/addPlayByPlays.ts:176-186 | gather then simplify, touching nothing but the tasks |
| Filtering.KeptAny | src/analysis/filterTasks.ts:52-67 | true exactly when some task of the list is marked true |
| Filtering.MarkEach | src/analysis/filterTasks.ts:53-65 | one task per task |
| Filtering.Mark | src/analysis/filterTasks.ts:29-68 | markTasks yields one task per task |
| Filtering.MarkRule | src/analysis/filterTasks.ts:53-65 | every task gets a mark, true exactly when an ancestor keeps it, the filter keeps it, a child is marked true, or a sibling asks for siblings to be kept; its children are marked under keptByAncestor widened by the sibling-descendant flag and its own keepDescendants |
| Filtering.KeptByAncestorMarksAll | src/analysis/filterTasks.ts:55-63 | under a kept ancestor every task and descendant is marked true |
| Filtering.MarkIsClosed | src/analysis/filterTasks.ts:29-68 | marking decides every task, and a task with a child marked true is marked true: ancestors of kept tasks are kept |
| Filtering.MarkChangesOnlyMarks | src/analysis/filterTasks.ts:29-68 | marking writes marks and nothing else |
| Filtering.ScanSiblings | src/analysis/filterTasks.ts:34-49 | the first loop, with its early break, computes both sibling flags over the whole list |
| Filtering.MarkTasks | src/analysis/filterTasks.ts:29-68 | the method computes the marked list and returns whether some task of it was marked true |
| Filtering.MarkTask | src/analysis/filterTasks.ts:54-63 | one iteration of the second loop: the children, then the task's mark |
| Filtering.SurvivingTasks | src/analysis/filterTasks.ts:73-79 | the survivors are exactly the tasks not marked false, in their original order |
| Filtering.SweepEach | src/analysis/filterTasks.ts:80-83 | one task per survivor |
| Filtering.SweepIsSurvivorsSwept | src/analysis/filterTasks.ts:70-85 | sweeping is filtering the survivors, then sweeping each |
| Filtering.SweepAt | src/analysis/filterTasks.ts:70-85 | every swept task is a survivor of the list, swept |
| Filtering.SweepClearsMarks | src/analysis/filterTasks.ts:81 | no swept task carries a mark |
| Filtering.NoMarkedBelow | src/analysis/filterTasks.ts:58-63 | with closed marks, below a task not marked true nothing is marked true, so dropping its subtree loses no kept task |
| Filtering.SweepKeepsMarked | src/analysis/filterTasks.ts:70-85 | on a decided, closed forest the swept forest lists, in pre-order, exactly the tasks marked true, each unchanged but for children and mark |
| Filtering.SameExceptMarksStrips | src/analysis/filterTasks.ts:60-64 | forests that differ only in marks list the same tasks in pre-order |
| Filtering.SurvivorsOf | src/analysis/filterTasks.ts:73-79 | the filter call keeps the survivors in order |
| Filtering.SweepTasks | src/analysis/filterTasks.ts:70-85 | the method computes the sweep |
| Filtering.SweepTask | src/analysis/filterTasks.ts:81-82 | one iteration: the mark deleted, the children swept |
| Filtering.FilterKeepsMarked | src/analysis/filterTasks.ts:87-100 | filtering keeps, in pre-order, exactly the tasks marking marks true, each otherwise unchanged, and leaves no marks behind |
| Filtering.FilterTasks | src/analysis/filterTasks.ts:87-100 | mark from the top level, then sweep; nothing else of the trace changes |
| Filtering.UrlFilterMarks | src/analysis/filterTasks.ts:110-126 | a task is marked true exactly when an ancestor keeps it, it matches, a child is marked true, or (coarse mode, below the top level) some sibling matches; a matching task keeps its whole subtree |
| Filtering.FilterTasksByUrlPattern | src/analysis/filterTasks.ts:102-127 | filterTasks with the URL filter |
| LegacyFilter.FilterTasks | src/analysis/filter.ts:78-89 | the older driver marks then sweeps, keeping in pre-order exactly the tasks marked true, with no marks left |
| Summaries.AppendNewFacts | src/analysis/summarize.ts:63-77 | the include-then-push loops keep the old list as a prefix, add exactly the new items, and add no repeats |
| Summaries.DedupFacts | src/analysis/summarize.ts:63-77 | starting from an empty list the loops give the distinct items, without repeats |
| Summaries.Find | src/analysis/summarize.ts:121-135 | `map.get` finds nothing exactly when the key was never set |
| Summaries.Set | src/analysis/summarize.ts:123-160 | `map.set` never shrinks the map |
| Summaries.Keys | src/analysis/summarize.ts:205 | `map.keys()` in insertion order |
| Summaries.Values | src/analysis/summarize.ts:213-217 | `map.values()` in insertion order |
| Summaries.SetFacts | src/analysis/summarize.ts:123-160 | after `set` the key maps to the new value, every other key to its old value, and a new key goes last |
| Summaries.Instance | src/analysis/summarize.ts:140-159 | a single-task record carries the task's breakdown and attribution |
| Summaries.MergeByAttribution | src/analysis/summarize.ts:79-82 | the merged per-attribution map has the keys of both maps |
| Summaries.AccumulateStatistics | src/analysis/summarize.ts:52-83 | the loops add the task's breakdown, its URLs, triggers and task id not yet present, and merge its breakdowns by attribution |
| Summaries.RecordAllAppend | src/analysis/summarize.ts:91-161 | recording two lists in turn is recording their concatenation |
| Summaries.GatherIsPostOrder | src/analysis/summarize.ts:85-162 | gatherStatistics records every task after its descendants, siblings in order |
| Summaries.CumulativeMapSpec | src/analysis/summarize.ts:104-132 | the cumulative map holds, for each attribution, the accumulation of exactly the attribution roots with it, in post-order, and nothing for attributions with no root |
| Summaries.LongestMapSpec | src/analysis/summarize.ts:134-149 | the longest-instance map holds, for each attribution, the record of the longest root with it |
| Summaries.LongestOfSnoc | src/analysis/summarize.ts:136-139 | a later root replaces the longest only with a strictly greater total |
| Summaries.TaskMapSpec | src/analysis/summarize.ts:151-160 | the per-task map sends each root's task id to the record of the last root with that id, and non-roots' ids to nothing |
| Summaries.KeysSpec | src/analysis/summarize.ts:104-160 | the keys of the attribution maps are the distinct attributions of the roots, and those of the per-task map their distinct task ids, each in first-seen order |
| Summaries.AppendNewAppend | src/analysis/summarize.ts:63-77 | appending new items in two batches is appending them in one |
| Summaries.CumulativeTotals | src/analysis/summarize.ts:52-83 | a cumulative record carries the first root's attribution, the sum of all the roots' breakdowns, and their distinct task ids in order |
| Summaries.CumulativeContext | src/analysis/summarize.ts:61-73 | a cumulative record holds the first root's URLs and triggers followed by the later roots' new ones, in order |
| Summaries.LongestIsFirstMaximum | src/analysis/summarize.ts:134-149 | the longest instance is the first root with the greatest total |
| Summaries.StatisticsMaps.constructor | src/analysis/summarize.ts:191-195 | the three maps start empty |
| Summaries.StatisticsMaps.RecordTask | src/analysis/summarize.ts:100-160 | one task after its children: nothing unless it is an attribution root; otherwise the cumulative record is created or accumulated, the longest replaced when strictly longer, and the per-task record set |
| Summaries.GatherStatistics | src/analysis/summarize.ts:85-162 | the loop fills the maps as gatherStatistics' specification says |
| Summaries.AttachLongest | src/analysis/summarize.ts:204-210 | one cumulative record per attribution, in the same order |
| Summaries.AttachLongestInstances | src/analysis/summarize.ts:204-210 | the loop attaches each attribution's longest instance |
| Summaries.LongestAttached | src/analysis/summarize.ts:204-210 | every cumulative record comes from at least one root and carries the record of the first root with the greatest total for its attribution |
| Summaries.InsertByTotal | src/analysis/summarize.ts:213-218 | inserting keeps every element and adds one |
| Summaries.SortByTotal | src/analysis/summarize.ts:213-218 | the sort is a permutation |
| Summaries.InsertKeepsOrder | src/analysis/summarize.ts:213-218 | insertion keeps a list in non-increasing order of total |
| Summaries.SortByTotalSorts | src/analysis/summarize.ts:213-218 | the sort gives non-increasing totals and keeps every element |
| Summaries.SubsequenceOrder | src/analysis/summarize.ts:235-237 | a filtered sorted list is still sorted and holds only elements of the list |
| Summaries.SelectStatsFacts | src/analysis/summarize.ts:222-237 | `filter(filterStats)` keeps, in order, exactly the records that match the pattern (when given) and are top-level (when asked) |
| Summaries.ListingFacts | src/analysis/summarize.ts:212-238 | a listing is sorted by non-increasing total and holds exactly the records the filter accepts, or all when no filter is asked for |
| Summaries.CreateSummary | src/analysis/summarize.ts:186-248 | the summary is built from the gathered maps, sorted and filtered |
| Summaries.SummaryListings | src/analysis/summarize.ts:186-248 | every listing is sorted by non-increasing total; the longest-instance and per-task listings hold exactly their maps' records that the filter accepts |
| Summaries.SelectNothingTopLevel | src/analysis/summarize.ts:229-231 | with topLevelOnly, records that are not top-level are all dropped |
| Summaries.TopLevelOnlyEmptiesListings | src/analysis/summarize.ts:221-238 | with topLevelOnly and no top-level record, the listing is empty |
| Summaries.PostOrderPermutesPreOrder | src/analysis/summarize.ts:91-98 | the post-order walk visits exactly the tasks of a pre-order walk |
| Summaries.RecordAllNoTopLevel | src/analysis/summarize.ts:123-159 | records take their context from tasks, so no top-level task means no top-level record |
| Summaries.TopLevelOnlyEmptiesSummary | src/analysis/summarize.ts:221-238 | when no task is top-level (nothing in the pipeline sets the flag), topLevelOnly empties every listing |
| LegacyAttribution.ExtractInfo | src/analysis/attribution.ts:40-117 | every extracted record carries the task's URLs and the given triggers |
| LegacyAttribution.ExtractAgreesWithAssign | src/analysis/attribution.ts:40-117 | the older extraction gives the newer one's kind and position, except that where the older finds nothing the newer may find a file from a single new Lighthouse URL; with an empty scope they always agree |
| LegacyAttribution.SimplifyInfo | src/analysis/attribution.ts:119-132 | a source at line 1, column 1 becomes a file with the same URLs and triggers; anything else is kept; the result is never such a source |
| LegacyAttribution.SimplifyAgreesWithAssign | src/analysis/attribution.ts:119-132 | on kind and position the older simplification is the newer, interning one |
| LegacyAttribution.Adopt | src/analysis/attribution.ts:134-180 | a replacement has the scope's kind and position and the task's URLs and triggers |
| LegacyAttribution.PropagateScopeInfo | src/analysis/attribution.ts:134-180 | the task's record is kept, or replaced by the adopted scope of strictly higher rank; the URLs and triggers are always the task's |
| LegacyAttribution.PropagateScopeInfoIff | src/analysis/attribution.ts:134-180 | a replacement happens exactly when the scope differs in kind or position and either a file meets a source in its script or an unknown meets anything known |
| LegacyAttribution.PropagateScopeAgreesWithPropagate | src/analysis/attribution.ts:134-180 | on kinds and positions the older rule is the newer propagateAttribution |
| LegacyAttribution.Gather | src/analysis/attribution.ts:198-233 | one task per task |
| LegacyAttribution.GatherOneFacts | src/analysis/attribution.ts:204-231 | a task's record is the scope-propagated, simplified extraction with the enclosing trigger, replaced by its only child's kind and position only when strictly more specific |
| LegacyAttribution.GatherLabels | src/analysis/attribution.ts:198-233 | every task of the forest gets its own URLs, a single trigger and no source at line 1, column 1; events and nesting are kept |
| LegacyAttribution.GatherOneLabels | src/analysis/attribution.ts:204-231 | the same for one task and everything below it |
| LegacyAttribution.GatherAttributions | src/analysis/attribution.ts:198-233 | the loop computes the labelling |
| LegacyAttribution.GatherTaskAttribution | src/analysis/attribution.ts:205-231 | one iteration: extract, simplify, propagate the scope, label the children with the trigger the task starts, then improve from an only child |
| LegacyAttribution.Rescope | src/analysis/attribution.ts:240-244 | every record with the scope propagated into it |
| LegacyAttribution.FirstSourceIndex | src/analysis/attribution.ts:248-254 | the index of the first source record, with none before it |
| LegacyAttribution.LastSourceIndex | src/analysis/attribution.ts:259-264 | the index of the last source record, with none after it |
| LegacyAttribution.Walk | src/analysis/attribution.ts:259-269 | one record per record |
| LegacyAttribution.Level | src/analysis/attribution.ts:240-269 | one record per task |
| LegacyAttribution.FloodChildren | src/analysis/attribution.ts:272-274 | one task per task |
| LegacyAttribution.Flood | src/analysis/attribution.ts:235-275 | one task per task |
| LegacyAttribution.WalkAt | src/analysis/attribution.ts:259-269 | each record takes the step with the latest source before it, or the first source of the level when there is none |
| LegacyAttribution.FloodLevelAt | src/analysis/attribution.ts:240-269 | after the scope is propagated into every record, a file takes the nearest source before it, or the level's first source when none precedes it, if that source is in its script; other records stay |
| LegacyAttribution.LevelRefines | src/analysis/attribution.ts:240-269 | a level's new record is the old one or a strictly more specific one, with the same URLs and triggers, and never a source at line 1, column 1 |
| LegacyAttribution.PropagateKeepsNonTrivial | src/analysis/attribution.ts:134-180 | propagating a scope that is not a source at (1,1) into a record that is not one gives a record that is not one |
| LegacyAttribution.FloodRefines | src/analysis/attribution.ts:235-275 | flooding only makes records more specific, keeps their URLs and triggers and everything else about the tasks, and spreads no source at (1,1) |
| LegacyAttribution.FloodAttributions | src/analysis/attribution.ts:235-275 | the four loops compute the flood |
| LegacyAttribution.RescopeAll | src/analysis/attribution.ts:240-244 | the first loop propagates the scope into every record |
| LegacyAttribution.LocateFirstSourceInfo | src/analysis/attribution.ts:247-254 | the second loop, breaking at the first source, finds it |
| LegacyAttribution.WalkLevel | src/analysis/attribution.ts:259-269 | the third loop computes the walk |
| LegacyAttribution.FloodChildrenOf | src/analysis/attribution.ts:272-274 | the last loop floods each task's children with its record as scope |
| LegacyAttribution.RefineLabels | src/analysis/attribution.ts:277-288 | after refineAttributions every task carries its own URLs, a single trigger and no source at (1,1); flooding refines the labelling; events and nesting are the input's |
| LegacyAttribution.LabelledHasNoTrivialSources | src/analysis/attribution.ts:119-132 | a labelled forest holds no source at (1,1) |
| LegacyAttribution.RefinesKeepsLabels | src/analysis/attribution.ts:235-275 | a refinement of a labelled forest without sources at (1,1) is labelled, with the same events and nesting |
| LegacyAttribution.RefineAttributions | src/analysis/attribution.ts:277-288 | label from the trigger "RunTask" with no scope, then flood; nothing else of the trace changes |
| LegacyAttribution.LegacyIsAttributedToAgrees | src/analysis/attribution.ts:290-309 | the older matcher is the newer one without a line number: true exactly when a source's or file's url, a source's generated url, or one of the Lighthouse URLs contains the pattern |

## Left out

- Tasks are modelled as values, so aliasing and in-place identity are not modelled. Two tasks never share a breakdown, a context or a children array, and a pass's result is a new forest that the method stores back on the trace. "Each task stores a fresh breakdown object" holds by construction rather than being proved.
- The trace library's event pairing and tree building are outside this model. The model takes the task list it returns, with each task's parent link, as input (`TaskGraph.TaskNode`).
- Logging, the CLI driver (`src/index.ts`), file reads, rendering and JSON writing are left out. So are the source-map passes (`applySourceMapToAttributions.ts`, `sourcemap.ts`), which wrap an external library and file I/O. Warnings such as negative self time, an unknown group id or an exceeded loop cap are only logged by the source, and are dropped.
- Durations and timestamps are unbounded integers, not JavaScript floating-point numbers.
- The filter's `task.parent` test is modelled as a `hasParent` argument that the walk passes down: false at the top level and true below it.
- `Breakdown.selfOnly()` is not defined in `src/breakdowns.ts`. It is a parameter of `PlayByPlays.Gather` and `PlayByPlays.AddPlayByPlays`, about which nothing is assumed.
- Summaries.MergeByAttribution: `mergeBreakdownsByAttribution` is not defined in `src/breakdowns.ts`, so it is modelled as a per-key sum, and its contract states only the keys of the result.
- Summaries.SummaryListings: the cumulative listing's ordering is proved. Its contents are the cumulative map's records with their longest instances attached (`Summaries.LongestAttached`), not a plain membership statement like the other two listings'.
- Summaries.TaskMapSpec: the per-task map sends an id to the LAST root with that id. That is the only such root exactly when the task ids are distinct, which `TaskGraph.ComputeMainThreadTasks` guarantees but the summary pass does not assume.
- `byTimelineBuckets` is always the empty list in the source, and is not modelled. The `summarize` wrapper (`src/analysis/summarize.ts` lines 250-256) only logs and then calls `createSummary`, so `Summaries.CreateSummary` stands for it.
- `context.isTopLevel` is read by the summary filter but written by no pass. The model keeps the field, and `Summaries.TopLevelOnlyEmptiesSummary` proves the consequence: with `topLevelOnly` set, every listing is empty.
- A task whose group id is "total" gets its self time added to `total` twice (`src/analysis/computeBreakdowns.ts` lines 47-48). The model does the same. `ComputeBreakdowns.GatherWellFormed` states consistency (total = sum of groups) only for forests where no group id is "total", and `ComputeBreakdowns.TaskBreakdownFacts` states the doubled amount.
- The stability of the source's `Array.prototype.sort` is modelled: `Summaries.SortByTotal` is an insertion sort that keeps equal totals in their original order. Only ordering and permutation are proved, not stability.
- LegacyAttribution.FloodAttributions: the source's four loops over a sibling array, which rewrite each task's record in place, are modelled as loops over a sequence of records. The new records are attached to the tasks in the last loop.
- Propagate.IterateReachesFixedPoint: the cap of ten rounds is modelled as it is. The lemma states when the cap is not reached (more rounds than twice the task count minus the rank sum), not that ten always suffices.
