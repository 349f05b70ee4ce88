# dd_agent analysis core, modelled in Dafny

dd_agent answers questions about a survey dataset. A language model plans analysis
"cuts"; each cut names a metric over one question, an optional base filter and optional
dimensions. A deterministic engine then executes the cuts against the table of
responses. This project models that deterministic core and proves what its code promises.

- **The execution engine** (`Engine`, `executor.py`). The `Executor` class is modelled
  with its lazily built segment-mask cache. Each cut:
  - resolves its base filter: none, a registered segment id, a raw filter string, or a
    filter tree;
  - resolves its metric column;
  - computes its metric either flat or cross-tabulated by the first dimension, which is a
    question or a segment.

  A failing cut becomes an error record `{cut_id, error, type}` and the batch goes on.
  The cache holds every segment's mask under its id and the complement under `not_<id>`.
  Each state-changing operation is a method on the class or a loop method. Each is proved
  equal to a specification function: `Materialization`, `ResolveBaseMask`,
  `DimensionGroups`, `Tabulate`, `CrossTab`, `CutOutcome` and `BatchResult`. The lemmas
  state the properties.
- **The session agent** (`Agents`, `agent.py`). The agent keeps the session's segments
  both as a list and as a dictionary by id. `add_segment` replaces any segment with the
  same id and keeps the two in agreement. The agent runs cuts through a fresh executor
  with base-size thresholds 30 and 100.
- **The tool output envelope** (`ToolOutputs`, `tool_output.py`). There are three
  constructors: success, failure and a partial result awaiting user input. `err` and
  `warn` build messages.
- **Plan validation** (`HighLevelPlanning`, `high_level_planner.py`, `_validate_plan`).
  Every intent needs an id, a description and a priority of 1, 2 or 3. The rationale
  needs at least ten characters once whitespace is stripped.
- **The autoplan flow** (`Pipeline`, the second `run_autoplan` in `pipeline.py`):
  - the suggested segments are added to the agent;
  - the intents are stably sorted by priority and truncated to `max_cuts`;
  - each intent is planned into a cut, which is executed, or recorded as failed;
  - the per-cut execution results are merged into one.

Support modules:
- `Wrappers`: `Option` and `Result`.
- `OrderedDicts`: Python dictionaries, as a map plus the order in which keys were
  inserted.
- `JsonValues`: the `Any` payloads.
- `Specs`: the request and catalog records.
- `Frames`: the part of pandas the engine uses, meaning rows of optional cells, boolean
  masks, selection, `notna().sum()` and grouping.

### Hidden collaborators

Several collaborators live outside the modelled files. They are fields of
`Engine.Externals` and the model never interprets them:
- the mask builder;
- `df.eval`;
- the six metric calculators;
- `add_base_size_warnings`;
- `str()` of a cell value.

The one fact the engine relies on is `WellBehaved`: a mask has one entry per row.

### Priorities: ranked as strings, validated as integers

The priority sort in `run_autoplan` ranks the strings "high", "medium" and "low". Plan
validation only admits the integers 1, 2 and 3. So every intent of a validated plan
ranks 3, and processing order equals plan order. `Pipeline.ValidatedPlanKeepsOrder`
proves this.

## Model

| member | source | states |
|---|---|---|
| ToolOutputs.Success | src/dd_agent/contracts/tool_output.py:66-79 | ok, carries exactly the data, no errors; a missing or empty warnings list or trace becomes [] or {}; the user-input fields keep their defaults |
| ToolOutputs.Failure | src/dd_agent/contracts/tool_output.py:81-95 | not ok, no data, exactly the given errors; warnings and trace default to empty; the user-input fields keep their defaults |
| ToolOutputs.PartialForUserInput | src/dd_agent/contracts/tool_output.py:48-63 | not ok, no data, no errors or warnings, requires user input, stores exactly the prompt and options |
| ToolOutputs.Err | src/dd_agent/contracts/tool_output.py:98-100 | the message has exactly the given code, message and context |
| ToolOutputs.Warn | src/dd_agent/contracts/tool_output.py:103-105 | the message has exactly the given code, message and context |
| ToolOutputs.ErrIsWarn | src/dd_agent/contracts/tool_output.py:98-105 | `err` and `warn` build the same message from the same arguments |
| ToolOutputs.ConstructorsAreWellFormed | src/dd_agent/contracts/tool_output.py:48-95 | each constructor's envelope is consistent (data present iff ok, ok has no errors, only a request for input has a prompt or options) and is read as its own kind |
| ToolOutputs.WellFormedIsConstructed | src/dd_agent/contracts/tool_output.py:21-95 | conversely, a consistent envelope is what the constructor of its kind builds from its own fields |
| Engine.Externals.constructor | src/dd_agent/engine/executor.py:7-19 | the hidden mask builder, evaluator, calculators, annotator and `str()` are stored unchanged |
| Engine.MetricCallFor | src/dd_agent/engine/executor.py:202-230 | no calculator exactly for an unknown metric type; frequency picks the multi-choice calculator exactly for a multi-choice question; nps is called with promoter_min 9 and detractor_max 6 unless the parameters give them |
| Engine.RunCalculator | src/dd_agent/engine/executor.py:202-227 | a calculator returns a distribution exactly for the two frequency calculators, and a summary dictionary otherwise |
| Engine.ComputeMetricValue | src/dd_agent/engine/executor.py:394-441 | an empty group gives [] for frequency and null otherwise; an unknown metric type or a calculator error gives null instead of failing; otherwise a frequency cell is the (multi-choice) frequency calculator's records, and a mean, top2box, bottom2box or nps cell is the calculator dictionary's `mean`, `top2box_pct`, `bottom2box_pct` or `nps` entry (null when absent), with the `top_values`/`bottom_values` parameters and the 9/6 NPS defaults passed on |
| Engine.ComputeMetricSimple | src/dd_agent/engine/executor.py:187-247 | an unknown metric type fails with "Unknown metric type: …"; a calculator exception fails the cut with that exception; a success carries the cut's ids, base_n = number of non-missing values, the annotator's warnings for that base and no dimensions; its result_data is `{"distribution": records}` with the records as the view for a frequency, and the calculator's dictionary with a one-row view otherwise |
| Engine.GroupCellAgreesWithFlat | src/dd_agent/engine/executor.py:394-441 | on a non-empty group the cross-tab cell is the flat computation's distribution or summary entry, and null where the flat computation fails |
| Engine.BuildMasks | src/dd_agent/engine/executor.py:83-86 | on success, one mask per registered segment, each with one entry per row |
| Engine.BuildMasksPrefixFailure | src/dd_agent/engine/executor.py:83-86 | once a prefix of the registry fails to build, the whole loop fails with that error |
| Engine.BuildMasksStopsAt | src/dd_agent/engine/executor.py:83-86 | the first segment whose mask cannot be built makes materialization raise exactly its error |
| Engine.MaskEntriesAt | src/dd_agent/engine/executor.py:83-90 | the cache writes alternate: segment j's mask under its id, then its negation under `not_<id>` |
| Engine.BaseEntriesAreCounts | src/dd_agent/engine/executor.py:89-92 | every reported base size is the count of the mask written under the same key |
| Engine.Materialization | src/dd_agent/engine/executor.py:78-95 | on success both dictionaries are well formed and every cached mask has one entry per row |
| Engine.MaterializationFails | src/dd_agent/engine/executor.py:83-86 | a failed mask fails materialization with that exception |
| Engine.MaterializationSucceeds | src/dd_agent/engine/executor.py:81-95 | once every mask is built, the cache and the returned counts are exactly the writes of the loop, in registry order |
| Engine.MaterializedSegment | src/dd_agent/engine/executor.py:81-92 | when no id is `not_` followed by another id, after materialization each segment id maps to the segment's own mask, `not_<id>` to its pointwise negation, and the two counts sum to the row count |
| Engine.MaterializedBasesAreCounts | src/dd_agent/engine/executor.py:73-95 | the counts a later call recomputes from the cache equal those the first call returned |
| Engine.MaterializedCoversRegistry | src/dd_agent/engine/executor.py:143-149 | every registered id and its complement are cached, so the fallbacks that rebuild a registered segment's mask outside the cache never run |
| Engine.ResolveBaseMask | src/dd_agent/engine/executor.py:130-162 | the base mask has one entry per row; no filter selects every row; an unregistered string fails exactly when `df.eval` raises, with "Could not parse filter string: …" |
| Engine.SegmentFilterSelectsSegment | src/dd_agent/engine/executor.py:137-149 | when no id is `not_` followed by another id, a registered segment id selects exactly the mask its definition builds, or fails with materialization's error |
| Engine.ExpressionFilterIsItsMask | src/dd_agent/engine/executor.py:159-162 | a filter tree selects exactly the rows its mask selects, or fails with the mask builder's error |
| Engine.MetricColumnName | src/dd_agent/engine/executor.py:167-171 | the question's effective column when the id is in the catalog, otherwise the raw question id |
| Engine.LeadingWarnings | src/dd_agent/engine/executor.py:260-270 | one leading warning exactly when there is more than one dimension |
| Engine.DimensionGroups | src/dd_agent/engine/executor.py:272-311 | an unknown kind, dimension question, dimension column or segment fails with its own message; a question dimension found in the frame gives the groups of `groupby` on its column over the filtered rows; a segment dimension gives exactly the groups id and `not_<id>`, whose non-missing counts sum to those of the filtered rows |
| Engine.Tabulate | src/dd_agent/engine/executor.py:313-360 | the group loop's two dictionaries are well formed with the same keys in the same order, and the leading warnings stay a prefix of the warnings |
| Engine.CrossTabView | src/dd_agent/engine/executor.py:379-390 | one row per group, in group order, with exactly the keys dimension, value, metric and base_n: the dimension id, the group key, the group's metric value and its base size or 0 |
| Engine.GroupsTable | src/dd_agent/engine/executor.py:362-377 | the table carries the cut's ids, base_n = the sum of the group base sizes, dimensions = [kind:id] of the first dimension, one view row per group, and the ignored-dimensions warning first |
| Engine.CrossTab | src/dd_agent/engine/executor.py:249-392 | a cross-tab fails with the error of finding the groups, or is the table of those groups |
| Engine.AddGroupBaseSize | src/dd_agent/engine/executor.py:342-360 | a group's base size is its number of non-missing values, and a new group key is appended to the key order |
| Engine.TabulateBaseStep | src/dd_agent/engine/executor.py:317-360 | each group writes its non-missing count as the base size of its key |
| Engine.TabulateValueStep | src/dd_agent/engine/executor.py:319-360 | each group writes under its key null when it is empty, and otherwise its metric cell |
| Engine.TabulateLastWins | src/dd_agent/engine/executor.py:319-360 | a group whose key no later group repeats ends with its own metric value and non-missing count in the two dictionaries |
| Engine.TabulateKeys | src/dd_agent/engine/executor.py:319-360 | the cross-tab's keys are exactly the keys of the groups |
| Engine.TabulateTwoCells | src/dd_agent/engine/executor.py:342-360 | two groups with distinct keys give the two dictionaries with exactly those keys, in order, holding each group's value and count |
| Engine.CrossTabOfGroups | src/dd_agent/engine/executor.py:362-392 | a cross-tab whose dimension yields some groups reports their tabulation as result_data, its base sizes' sum as base_n, and the view of that tabulation |
| Engine.TwoGroupTotals | src/dd_agent/engine/executor.py:342-375 | a cross-tab over two groups with distinct keys has exactly those keys, and base_n is the sum of their non-missing counts |
| Engine.TwoGroupCells | src/dd_agent/engine/executor.py:342-392 | a cross-tab over two groups with distinct keys holds each group's metric value and count under its key, and a two-row view in that order |
| Engine.TabulateTwoGroups | src/dd_agent/engine/executor.py:340-362 | two groups with distinct keys give two base sizes, in group order, summing to the table's base |
| Engine.SegmentDimensionGroups | src/dd_agent/engine/executor.py:283-307 | for a registered segment and a registry free of complement clashes, the groups are the filtered rows inside and outside that segment's own mask, or materialization's error |
| Engine.SegmentCrossTabCells | src/dd_agent/engine/executor.py:284-392 | for a registered segment, the id holds the metric value and non-missing count of the filtered rows inside the segment, `not_<id>` those of the filtered rows outside it, and the view has exactly these two rows |
| Engine.SegmentCrossTabPartition | src/dd_agent/engine/executor.py:283-362 | a segment cross-tab has exactly the keys id and `not_<id>`, and its base_n is the number of non-missing metric values among the filtered rows |
| Engine.OnlyFirstDimensionUsed | src/dd_agent/engine/executor.py:260-270 | a cut with extra dimensions fails like the cut with only its first dimension, or yields that cut's table with the ignored-dimensions warning in front |
| Engine.GroupsTableLeadingWarning | src/dd_agent/engine/executor.py:260-270 | the extra dimensions change the table only by the leading warning |
| Engine.TabulateWarnings | src/dd_agent/engine/executor.py:329-356 | the leading warnings only prefix the warnings the group loop collects |
| Engine.CutOutcome | src/dd_agent/engine/executor.py:121-185 | a failing base filter fails the cut with its error; a missing metric column fails with "Column '…' not found in DataFrame"; a success carries the cut's ids |
| Engine.FlatCutBaseSize | src/dd_agent/engine/executor.py:195-196 | a flat cut's base_n is the number of rows its filter selects that have a metric value |
| Engine.BatchAccountsForEveryCut | src/dd_agent/engine/executor.py:97-119 | every cut gives exactly one table or one error record, and segments_computed stays empty |
| Engine.BatchConcatenates | src/dd_agent/engine/executor.py:106-119 | the batch of a + b reports a's tables and errors followed by b's, so a failing cut never affects a later one |
| Engine.SingleCutBatch | src/dd_agent/engine/executor.py:106-119 | a batch of one cut holds exactly its table, or exactly its error record {cut_id, str(e), type name} |
| Engine.AccumulateGroups | src/dd_agent/engine/executor.py:313-360 | the in-place loop over the groups computes the group tabulation |
| Engine.AccumulateGroup | src/dd_agent/engine/executor.py:342-360 | one turn of the group loop is one step of the tabulation |
| Engine.FlattenRows | src/dd_agent/engine/executor.py:381-390 | the flattening loop builds the row-oriented view |
| Engine.CacheSegment | src/dd_agent/engine/executor.py:86-92 | one turn writes the segment's mask and complement and their counts, extending the writes so far |
| Engine.BuildNextMask | src/dd_agent/engine/executor.py:83-86 | the next mask's failure is the loop's failure; its success extends the masks built so far |
| Engine.FillSegmentCache | src/dd_agent/engine/executor.py:81-92 | the materialization loop writes exactly each mask and complement into the cache and returns the counts, or raises the first mask failure |
| Engine.Executor.constructor | src/dd_agent/engine/executor.py:43-71 | the executor holds its arguments, a missing segment dictionary becomes empty, and the cache starts empty and unmaterialized |
| Engine.Executor.MaterializeSegments | src/dd_agent/engine/executor.py:73-95 | the first call caches and returns what materialization computes, or raises its error and stays unmaterialized; later calls rebuild nothing and return the cached masks' counts, equal to the first result |
| Engine.Executor.ResolveBaseFilter | src/dd_agent/engine/executor.py:130-162 | the base mask is the one the filter specification resolves to, keeping the cache consistent |
| Engine.Executor.ResolveDimensionGroups | src/dd_agent/engine/executor.py:272-311 | the groups are those of the first dimension per the specification, keeping the cache consistent |
| Engine.Executor.ComputeMetricWithDimensions | src/dd_agent/engine/executor.py:249-392 | the result is the cross-tab the specification defines |
| Engine.Executor.ExecuteSingleCut | src/dd_agent/engine/executor.py:121-185 | the result or raised error is the cut's outcome |
| Engine.Executor.ExecuteCuts | src/dd_agent/engine/executor.py:97-119 | the result is the batch of the cuts in order, with len(tables) + len(errors) = len(cuts) and segments_computed empty |
| Frames.CountComplement | src/dd_agent/engine/executor.py:89-92 | a mask's count plus its negation's count is the row count |
| Frames.NonMissingSelected | src/dd_agent/engine/executor.py:195-196 | the non-missing count of a selected column is the number of selected rows with a value |
| Frames.PresentSplit | src/dd_agent/engine/executor.py:293-298 | intersecting the filter with a segment and with its complement splits the filtered rows' values in two |
| Frames.Distinct | src/dd_agent/engine/executor.py:281 | the group values are distinct and are exactly the non-missing values of the dimension column |
| Frames.GroupByValue | src/dd_agent/engine/executor.py:281 | one group per distinct non-missing dimension value, keyed by its `str()` and holding the metric column of exactly the rows with that value |
| Frames.GroupByValuePartition | src/dd_agent/engine/executor.py:281 | every row with a dimension value lies in exactly one group, the one of its own value; rows with a missing value are dropped |
| Frames.SegmentGroups | src/dd_agent/engine/executor.py:289-298 | the segment groups are id, holding the metric column of the filtered rows inside the segment, and `not_<id>`, holding that of the filtered rows outside it; together they hold every filtered row and every non-missing value once |
| Frames.CountSplit | src/dd_agent/engine/executor.py:293-298 | the filtered rows inside and outside a segment add up to the filtered rows |
| Frames.SelectAndIsNested | src/dd_agent/engine/executor.py:293-298 | selecting by filter-and-segment is selecting the filtered rows and then the segment among them, as `df[segment_mask]` on the filtered frame does |
| Agents.QuestionIndexKeys | src/dd_agent/orchestrator/agent.py:43 | the question index has an entry for exactly the catalog's question ids |
| Agents.QuestionIndexLastWins | src/dd_agent/orchestrator/agent.py:43 | each id maps to the last question carrying it |
| Agents.WithoutIdMembers | src/dd_agent/orchestrator/agent.py:145 | the filter keeps exactly the segments with another id |
| Agents.WithoutIdDistinct | src/dd_agent/orchestrator/agent.py:145 | filtering keeps the ids distinct |
| Agents.WithoutIdIdempotent | src/dd_agent/orchestrator/agent.py:145 | filtering twice by the same id is filtering once |
| Agents.AddedSegments | src/dd_agent/orchestrator/agent.py:145-146 | the new segment ends the list |
| Agents.AddedSegmentIsLastOfItsId | src/dd_agent/orchestrator/agent.py:145-146 | the new segment is last and no other element carries its id |
| Agents.AddKeepsOthersInOrder | src/dd_agent/orchestrator/agent.py:145-146 | the segments with other ids keep their relative order |
| Agents.AddedDistinct | src/dd_agent/orchestrator/agent.py:145-146 | adding keeps the list's ids distinct |
| Agents.AddedIds | src/dd_agent/orchestrator/agent.py:145-146 | the ids after adding are the old ids and the new one |
| Agents.AddSegmentKeepsRegistry | src/dd_agent/orchestrator/agent.py:138-147 | `add_segment` preserves the agreement of list and dictionary: distinct ids, the same id set, and each entry the list's segment with that id |
| Agents.AddSegmentIdempotent | src/dd_agent/orchestrator/agent.py:145-147 | adding the same segment twice gives the list and dictionary adding it once gives |
| Agents.RegistryLookupIsUnique | src/dd_agent/orchestrator/agent.py:138-147 | in an agreeing registry the dictionary's value for an id is the unique list element carrying it |
| Agents.AddAllKeepsRegistry | src/dd_agent/orchestrator/pipeline.py:1007-1010 | adding several segments in turn keeps list and dictionary in agreement |
| Agents.AddedAllRegistersLast | src/dd_agent/orchestrator/pipeline.py:1007-1010 | the last segment added under an id is the one registered under it |
| Agents.Agent.constructor | src/dd_agent/orchestrator/agent.py:42-50 | the question index is built from the catalog, and the segment list and dictionary start empty |
| Agents.Agent.AddSegment | src/dd_agent/orchestrator/agent.py:138-147 | the list drops the id's old segment and appends the new one; the dictionary maps the id to it; other entries are unchanged; the registry invariant is kept |
| Agents.Agent.ExecuteCuts | src/dd_agent/orchestrator/agent.py:149-168 | the result is the batch of the cuts on an executor over the session state with thresholds 30 and 100 |
| Agents.Agent.ExecuteSingleCut | src/dd_agent/orchestrator/agent.py:170-179 | the result is exactly the batch of the one cut |
| HighLevelPlanning.StripIsTrimmedSlice | src/dd_agent/tools/high_level_planner.py:244 | `strip()` keeps a contiguous slice that neither starts nor ends with whitespace and drops only whitespace around it |
| HighLevelPlanning.IntentErrors | src/dd_agent/tools/high_level_planner.py:236-241 | at most three errors, and none exactly when the intent has an id, a description and a priority in 1..3 |
| HighLevelPlanning.IntentsErrorsEmptyIff | src/dd_agent/tools/high_level_planner.py:235-241 | the intent errors are empty exactly when every intent's are, with at most three per intent |
| HighLevelPlanning.IntentsErrorsNeverRationale | src/dd_agent/tools/high_level_planner.py:235-241 | no intent error is the rationale message |
| HighLevelPlanning.PlanAcceptedIff | src/dd_agent/tools/high_level_planner.py:231-247 | no errors exactly when every intent passes all three checks and the rationale passes |
| HighLevelPlanning.PlanErrorsShape | src/dd_agent/tools/high_level_planner.py:235-245 | at most 3·\|intents\| + 1 errors; the rationale is rejected exactly when its error is last |
| HighLevelPlanning.IntentsErrorsInOrder | src/dd_agent/tools/high_level_planner.py:235-241 | the errors of earlier intents are a prefix of those of later ones |
| HighLevelPlanning.IntentErrorInPlan | src/dd_agent/tools/high_level_planner.py:235-247 | every error of an intent is among the plan's errors |
| HighLevelPlanning.BadIntentReported | src/dd_agent/tools/high_level_planner.py:236-241 | each failing check of intent i is reported with its own message: missing intent_id at index i, missing description, invalid priority with its text |
| HighLevelPlanning.ValidatePlan | src/dd_agent/tools/high_level_planner.py:227-247 | the loop's errors are the plan's errors: each intent's in order, then the rationale's |
| Pipeline.Rank | src/dd_agent/orchestrator/pipeline.py:1020 | the sort key is 0 exactly for "high", 1 exactly for "medium", 2 exactly for "low", and 3 for any other priority, integers included |
| Pipeline.SortPutsHighFirst | src/dd_agent/orchestrator/pipeline.py:1018-1021 | after sorting, "high" intents precede all others, "medium" ones precede "low" and unranked ones, and "low" ones precede unranked ones |
| Pipeline.SortIsSorted | src/dd_agent/orchestrator/pipeline.py:1018-1021 | the sorted intents are ordered by rank |
| Pipeline.SortIsStable | src/dd_agent/orchestrator/pipeline.py:1018-1021 | each rank's intents keep their input order |
| Pipeline.SortIsPermutation | src/dd_agent/orchestrator/pipeline.py:1018-1021 | the sort is a permutation |
| Pipeline.SortedIsGroups | src/dd_agent/orchestrator/pipeline.py:1018-1021 | a list already sorted by rank is left unchanged |
| Pipeline.SortIsUnique | src/dd_agent/orchestrator/pipeline.py:1018-1021 | any rank-sorted list with the input's rank groups in order is the sorted list, so the model is Python's stable sort |
| Pipeline.ValidatedPlanKeepsOrder | src/dd_agent/orchestrator/pipeline.py:1018-1021 | a plan that passes validation keeps plan order, because its integer priorities all rank 3 |
| Pipeline.Take | src/dd_agent/orchestrator/pipeline.py:1024 | `[:max_cuts]` is a prefix of length min(max_cuts, n), and a negative bound counts from the end |
| Pipeline.ProcessAll | src/dd_agent/orchestrator/pipeline.py:1026-1058 | every intent lands in planned or failed, and each planned cut's execution result sits at the same position |
| Pipeline.PlannedFailedSplit | src/dd_agent/orchestrator/pipeline.py:1026-1058 | planned has one entry per intent whose planning succeeded, and failed one per other intent |
| Pipeline.PlannedFailedInOrder | src/dd_agent/orchestrator/pipeline.py:1026-1056 | planned is the planner's cut for each intent whose planning succeeded, and failed names each other intent by id and description with the planner's errors or the exception text; both in intent order |
| Pipeline.CountPlannedZero | src/dd_agent/orchestrator/pipeline.py:1026-1058 | nothing is planned exactly when planning fails for every intent |
| Pipeline.CombinedSegments | src/dd_agent/orchestrator/pipeline.py:1063-1069 | the merged segments_computed is a well-formed dictionary |
| Pipeline.CombinedTablesConcat | src/dd_agent/orchestrator/pipeline.py:1065-1066 | the combined tables are the in-order concatenation |
| Pipeline.CombinedErrorsConcat | src/dd_agent/orchestrator/pipeline.py:1065-1067 | the combined errors are the in-order concatenation |
| Pipeline.CombineStep | src/dd_agent/orchestrator/pipeline.py:1065-1069 | each step updates the merged dictionary with the next result's entries; an empty one changes nothing |
| Pipeline.CombineLastKey | src/dd_agent/orchestrator/pipeline.py:1068-1069 | each key of the last result ends with that result's value |
| Pipeline.CombineLaterWins | src/dd_agent/orchestrator/pipeline.py:1068-1069 | later results overwrite earlier keys |
| Pipeline.CombineOfBatchesComputesNoSegments | src/dd_agent/orchestrator/pipeline.py:1060-1075 | the merged segments_computed of executed cuts is empty |
| Pipeline.CombineCounts | src/dd_agent/orchestrator/pipeline.py:1060-1075 | one combined table or error per executed cut |
| Pipeline.AutoplanResult | src/dd_agent/orchestrator/pipeline.py:1124-1133 | success exactly when some cut was planned; otherwise errors is exactly ["No cuts were successfully executed"] |
| Pipeline.AutoplanOutcome | src/dd_agent/orchestrator/pipeline.py:1018-1133 | the run succeeds exactly when some processed intent was planned; planned + failed = processed intents; tables + errors = planned cuts; segments_computed is empty |
| Pipeline.ProcessIntent | src/dd_agent/orchestrator/pipeline.py:1029-1058 | one turn plans the intent's cut and executes it through the agent, or records the failure |
| Pipeline.ProcessIntents | src/dd_agent/orchestrator/pipeline.py:1026-1058 | the intent loop computes the processing function |
| Pipeline.CombineResults | src/dd_agent/orchestrator/pipeline.py:1060-1075 | the combine loop computes the combination |
| Pipeline.AddSuggestedSegments | src/dd_agent/orchestrator/pipeline.py:1006-1010 | each suggested segment is added in turn and the registry invariant is kept |
| Pipeline.RunAutoplan | src/dd_agent/orchestrator/pipeline.py:1006-1133 | adds the suggested segments, then returns the autoplan result over the updated session |

## Left out

- I/O and orchestration are not modelled: data loading, `RunStore` artifacts and CSV writes, logging and the console. `run_id` and `run_dir` are parameters.
- The language-model tools are not modelled: `HighLevelPlanner.run`, `CutPlanner.run`, `SegmentBuilder.run` and `Agent.resolve_ambiguity_and_plan`.
- The autoplan steps before the plan exists (plan generation and its failure paths) are not modelled.
- Cut planning is the parameter `planCut`, which returns an envelope or the text of a raised exception.
- Pipeline.Planned: planning is a function of the description, so two intents with the same description get the same outcome. The language-model planner gives no such guarantee, and no lemma relies on it.
- Pipeline.PlannerWellBehaved: the model relies on an ok envelope carrying its cut, as `ToolOutput.success` builds them.
- Pipeline.ProcessOne: a failed-plan entry keeps the planner's message records rather than their `str()` rendering.
- Pipeline.ProcessOne: the `intent_{i}` fallback for a missing `intent_id` is not modelled, because every intent has that attribute.
- Execution never raises in the model (the executor records errors), so the `except` branch records only planning exceptions.
- `build_mask`, `df.eval`, the metric calculators, `add_base_size_warnings` and `str()` of a cell are uninterpreted parameters. No NPS, box or threshold formula is modelled.
- Metric values are opaque JSON. Floating point is not modelled.
- Frames.GroupByValue: groups come in order of first appearance, not pandas' sorted key order, and keys are rendered by the `str()` parameter.
- Pandas index alignment is reduced to intersecting the segment mask with the base filter. The base filter always covers the full index.
- `TableResult`'s own methods are not modelled, because they live in a file outside the modelled core. Only the row-oriented view attached with `set_dataframe` is kept.
- The executor's fallbacks that rebuild a registered segment's mask outside the cache are modelled. `Engine.MaterializedCoversRegistry` shows they never run.
- The Agent and its executors share `segments_by_id` by reference. The model passes the dictionary by value; nothing in the core mutates it during execution.
- HighLevelPlanning.ValidPriority: only integer priorities 1–3 pass. Python's `True in [1, 2, 3]` and float priorities such as `1.0` are not modelled.
- Engine.ListRepr: Python's `repr` of an id list is modelled with single quotes and no escaping, so ids containing quotes or backslashes render differently.
- The first, shadowed definitions of `PipelineResult` and `Pipeline` in `pipeline.py` are not modelled; only the second, effective ones are.
- The question index (`questions_by_id`) that `_validate_plan` builds is unused by the checks and is not modelled.
- A segment id can be `not_` followed by another segment's id. Materialization then overwrites that segment's mask with the other segment's complement. The model reproduces the overwrite. The lemmas about a segment's own mask assume no such clash.
