# Action Factory, modelled in Dafny

Action Factory is an agent that creates its own tools at run time. A request is
analysed by a language model. When no registered tool fits, the agent synthesises one:
- a code model writes a Python function;
- a validator compiles the code and scans it for dangerous patterns;
- the function's name is taken from the first `def`;
- a second model writes a Hypothesis property test, and pytest must pass it in a sandbox;
- the code is executed and the function registered.

A registered tool is also broadcast on a replication bus. The bus is a PostgreSQL table
of tool updates with one cursor per subscriber, so other processes import the tool in
turn. Beside this plan-and-execute pipeline sits a LangGraph workflow:
- it breaks a problem into steps;
- it makes a basic tool for every missing tool a step requires;
- it solves the steps in order and writes a final answer.

The project has one module per source file of the core:

| module | file | models |
|---|---|---|
| `Wrappers` | `wrappers.dfy` | `Option` and `Result` |
| `Strings` | `strings.dfy` | the Python `str` operations used (`isspace`, `strip`, `lower`, `in`, `find`, `split`, `join`, `str(n)`) |
| `Registry` | `registry.dfy` | `registry.py`: the insertion-ordered registry and its `tool_registry.json` snapshot, as the class `ToolRegistry` |
| `Database` | `database.dfy` | `database.py`: the `tool_updates` log and the `subscriber_state` cursors, as the class `ReplicationBus` |
| `Subscriber` | `subscriber.dfy` | `subscriber.py`: handling an event and one poll-and-import iteration |
| `Codegen` | `codegen.dfy` | `codegen.py`: the validator and the clean-up of generated code (fences, `textwrap.dedent`, `strip`) |
| `Planner` | `planner.dfy` | `planner.py`, pure part: `extract_function_name`, the tools description, the JSON fence trim, `create_execution_plan` |
| `Pipeline` | `pipeline.dfy` | `sandbox.py`, `testgen.py`, `broadcaster.py` and the effectful part of `planner.py`: tool synthesis, `execute_plan_step`, `intelligent_plan_and_execute` |
| `Workflow` | `workflow.dfy` | `action_factory_graph.py`: the graph's nodes, its routing, and `run` |
| `DefaultTools` | `defaulttools.dfy` | `default_tools.py`: `text_analyzer` and `password_generator` |

Some things are outside the model's reach:
- the language models;
- Python's `compile` and `exec`;
- pytest;
- calls of tool functions;
- `json.loads`.

These become function-valued parameters: `Pipeline.Collaborators`, `Workflow.Llm` and
`Workflow.Env`. Best-effort file and database writes, whose failures the source swallows,
become boolean parameters: `writable`, `removable` and `reachable`.

State that the source updates in place is modelled as classes:
- the registry and its file;
- the database.

Their methods are proved against functions on values, such as `Registry.Put`,
`Database.Selected` and `Subscriber.ApplyRows`. The graph state is a value, because
LangGraph hands each node a state and takes back a new one. The loops of the source are
methods with invariants, proved equal to the functions that specify them. Examples:
- the `make_tool`, `test_tool` and `_solve_with_tools` loops;
- the description loop;
- the two plan-conversion loops;
- the plan-and-execute loop;
- the subscriber's batch loop;
- the graph walk in `Workflow.Run`.

### Where the code does less than its design

The model follows the code in each of these places.
- **No one-definition check.** The validator does not check that the code holds exactly
  one top-level callable. The name extractor does not require a lower-case name either.
  `Pipeline.CreateAndRegisterNewTool` accepts any code that compiles, avoids the eight
  patterns, and has a line starting with `def name(`. `Planner.FirstDefinitionFound` shows
  any identifier is taken.
- **The JSON fence trim cuts blindly.** It always drops the last three characters of a
  fenced answer, whether or not it ends with a fence. See `Planner.UnclosedJsonFence`.
- **The cursor moves before the import.** The cursor advances inside
  `get_new_tool_updates`, before any import. An import that fails, or one lost to a crash,
  is therefore skipped for good, not retried. `Subscriber.ListenOnce` states this.
- **No registry lock.** `registry.py` has no lock. The model treats each registry
  method as atomic, without claiming a lock exists.
- **Planned dependencies are never read.** The graph plans step `dependencies` but no node
  reads them. `Workflow.DependenciesNeverConsulted` proves this.
- **The retry edge is never taken.** The graph's edge from `test_tool` back to `make_tool`
  is never followed, because `tool_works_condition` always answers `solve_step`.
  `Workflow.Advance` proves it: from `test_tool` the walk always moves to `solve_step`
  with the state unchanged, and `make_tool` is entered only from `check_tool_exists`.

## Model

| member | source | states |
|---|---|---|
| Strings.StripIsSlice | src/codegen.py:73 | `strip` gives the slice of the text between an all-whitespace head and an all-whitespace tail; with the result having no whitespace at either end, this fixes the slice |
| Strings.StripTrimmed | src/planner.py:83 | a text with no whitespace at either end is its own `strip` |
| Strings.Strip | src/codegen.py:73 | `strip` never lengthens the text and leaves no whitespace at either end |
| Strings.StripEmptyIffBlank | src/default_tools.py:138-139 | `s.strip()` is empty exactly when `s` is all whitespace (the truthiness test of the count filters) |
| Codegen.LowerSlice | src/codegen.py:177-179 | lower-casing a slice is slicing the lower-cased text, so a pattern found in any capitalisation is found after `code.lower()` |
| Strings.Lower | src/codegen.py:177 | `code.lower()` keeps the length, leaves no upper-case ASCII letter and keeps every character that is not one |
| Strings.LowerIdempotent | src/codegen.py:177 | lower-casing an already lower-cased text changes nothing |
| Strings.IndexOf | src/codegen.py:179 | the first occurrence of a pattern, with no earlier one; none exactly when the pattern is not contained |
| Strings.Split | src/default_tools.py:131-132 | `split(sep)` always yields at least one piece |
| Strings.JoinSplit | src/default_tools.py:131-132 | joining the pieces of `split(sep)` with `sep` gives back the text |
| Strings.SplitPiecesFree | src/default_tools.py:131-132 | no piece of `split(sep)` contains the separator |
| Strings.SplitWithout | src/default_tools.py:131-132 | a text without the separator splits into itself alone |
| Strings.SplitBlank | src/default_tools.py:131-132 | every piece of an all-whitespace text is all whitespace |
| Strings.WordsEmptyIffBlank | src/default_tools.py:130 | `split()` gives no word exactly when the text is all whitespace |
| Strings.WordsAreWords | src/default_tools.py:130 | every piece of `split()` is non-empty and holds no whitespace |
| Strings.WordsCount | src/default_tools.py:130 | `split()` gives exactly one word per position where a non-space character follows a space or the start |
| Strings.DecimalString | src/action_factory_graph.py:308 | `str(n)` is a non-empty string of decimal digits, with no leading zero unless `n` is 0 |
| Strings.DecimalStringValue | src/action_factory_graph.py:308 | reading the digits of `str(n)` back gives `n` |
| Registry.PutLookup | src/registry.py:32 | after `tool_registry[name] = tool` the name maps to the new tool and every other name is as before |
| Registry.PutWellFormed | src/registry.py:32 | assignment keeps names unique and in step with the dictionary |
| Registry.LastWriteWins | src/registry.py:32 | registering a name twice keeps only the second tool |
| Registry.SnapshotIsObject | src/registry.py:10 | the saved JSON object has one entry per registered name and no name twice, each with that tool's description, in registry order |
| Registry.SnapshotAfterPut | src/registry.py:30-33 | a new name appends its entry to the snapshot; an existing name has its entry replaced in place |
| Registry.ToolRegistry.constructor | src/registry.py:4-5 | a process starts with an empty registry, beside whatever file was left |
| Registry.ToolRegistry.SaveRegistry | src/registry.py:7-12 | the file is rewritten with the snapshot when it can be written; otherwise it is left as it was |
| Registry.ToolRegistry.RegisterTool | src/registry.py:30-33 | a function without a docstring makes `tool(func)` raise and nothing changes; otherwise stores `tool(func)` under `name` (overwriting), with the docstring as description and `description` unused, then saves |
| Registry.ToolRegistry.LoadRegistry | src/registry.py:14-28 | reports the entries of a readable file and nothing otherwise; the registry is not touched |
| Registry.ToolRegistry.ResetRegistry | src/registry.py:35-44 | empties the registry; the file is deleted when it can be, else left as it was |
| Database.SelectedMembers | src/database.py:77-84 | the query returns exactly the rows whose id is above the cursor |
| Database.BoundarySplits | src/database.py:77-84 | on an id-ordered log, the rows seen are a prefix and the rows due the rest |
| Database.SeenThenSelected | src/database.py:62-98 | rows already seen followed by rows due make up the whole log, whatever the cursor |
| Database.SameRelativeOrder | src/database.py:77-84 | any two subscribers receive the rows they share in the same order |
| Database.CaughtUp | src/database.py:86-96 | a cursor at the last row's id selects nothing |
| Database.SeenAppend | src/database.py:52-60 | publishing a row above a cursor leaves what that cursor has seen alone |
| Database.SelectedAppend | src/database.py:52-60 | a published row is due to every cursor below its id, after the rows it was already due |
| Database.ReplicationBus.constructor | src/database.py:33-50 | fresh tables: empty log, no cursors, SERIAL at 1 |
| Database.ReplicationBus.PublishToolUpdate | src/database.py:52-60 | appends a row with the next SERIAL id, keeps ids ascending, and makes it due to every subscriber after its earlier rows |
| Database.ReplicationBus.GetNewToolUpdates | src/database.py:62-98 | returns the rows above the stored cursor (0 when absent) in id order; moves the cursor to the last id only when there are rows; the rows seen grow by exactly the batch |
| Subscriber.ApplyRowsWellFormed | src/subscriber.py:12-27 | handling any rows keeps the registry well formed |
| Subscriber.ApplyRowsAppend | src/subscriber.py:29-41 | handling two polls' batches in turn is handling their concatenation |
| Subscriber.UntouchedName | src/subscriber.py:12-27 | a name that no importing row carries keeps its entry (or its absence) |
| Subscriber.LastImportWins | src/subscriber.py:34-41 | a name ends bound to the function of the last row that imported it |
| Subscriber.HandleEvent | src/subscriber.py:12-27 | registers the function `exec` binds under the event's name; a raise or a missing binding changes nothing |
| Subscriber.ProcessBatch | src/subscriber.py:34-41 | handles the rows in order; the file is rewritten exactly when some row imports |
| Subscriber.ListenOnce | src/subscriber.py:29-47 | one poll then the imports: the cursor passes every row of the batch, whether or not its import succeeded; no other cursor and no id changes; the file is rewritten exactly when some row imports |
| Codegen.FirstUnsafeFrom | src/codegen.py:177-182 | the first pattern in list order that the text contains, and none when no pattern occurs |
| Codegen.ValidateGeneratedCode | src/codegen.py:151-187 | syntax and other compile errors give their messages; compilable code is accepted iff no pattern occurs in its lower-cased text, else the first pattern in list order is reported |
| Codegen.RejectsAnyCase | src/codegen.py:177-180 | any capitalisation of a dangerous pattern in compilable code makes it rejected |
| Codegen.ReportsListOrder | src/codegen.py:166-180 | code containing both `subprocess` and `exec(` is reported for `exec(`, wherever they stand |
| Codegen.ValidationDependsOnlyOnText | src/codegen.py:161-187 | the verdict depends only on the compile outcome and the lower-cased text |
| Codegen.Margin | src/codegen.py:84 | dedent's margin exists iff some line is not blank, and it prefixes the indentation of every non-blank line |
| Codegen.MarginIsLongest | src/codegen.py:84 | the margin is the longest common indentation of the non-blank lines |
| Codegen.DedentFlushLeft | src/codegen.py:84 | text starting with a non-space character has an empty margin |
| Codegen.StripFences | src/codegen.py:73-83 | the fence removal ends in text with no whitespace at either end |
| Codegen.DropOpeningFence | src/codegen.py:76-79 | dropping an opening fence keeps the text stripped |
| Codegen.DropClosingFence | src/codegen.py:81-82 | dropping a closing fence keeps the text stripped |
| Codegen.CleanGeneratedCode | src/codegen.py:73-84 | the cleaned code has no whitespace at either end |
| Codegen.FencedBody | src/codegen.py:73-83 | a body wrapped in a python fence comes back from the fence removal |
| Codegen.BareBody | src/codegen.py:73-83 | stripped code without fences passes through the fence removal unchanged |
| Codegen.FencesAreTransparent | src/codegen.py:73-84 | a fenced answer cleans up exactly like the bare code |
| Planner.MatchAtSound | src/planner.py:31 | what the scan finds at a position is a match of `def\s+NAME\s*\(` there |
| Planner.MatchAtComplete | src/planner.py:31 | every match of the pattern at a position is found there, with the same name |
| Planner.FirstWhere | src/planner.py:31 | the left-to-right search gives the first position that matches, and none when no position does |
| Planner.ExtractFunctionName | src/planner.py:29-34 | a name is found iff some line start matches the pattern; it is the identifier of the first such line; otherwise the error is `ValueError`'s message |
| Planner.FirstDefinitionFound | src/planner.py:29-34 | whatever identifier (upper-case letters included) and whitespace (newlines included) the first matching line has, its name is the one returned |
| Planner.IndentedDefinitions | src/planner.py:31 | code whose every line starts with whitespace has no definition found: `def` must open a line |
| Planner.Describe | src/planner.py:36-46 | no entries give exactly the fixed message; otherwise the text starts with the header |
| Planner.ToolsDescription | src/planner.py:36-46 | an empty registry gives exactly the fixed message; otherwise the header starts the text |
| Planner.EntryListed | src/planner.py:42-44 | every entry is listed as `- name: description` |
| Planner.EntriesInOrder | src/planner.py:42-44 | an entry's line ends before any later entry's line starts |
| Planner.RegistryEntryListed | src/planner.py:42-44 | every registered tool is listed with its description, in registry order |
| Planner.GetAvailableToolsDescription | src/planner.py:36-46 | the loop builds the text the registry's description specifies |
| Planner.JsonFenceRoundTrip | src/planner.py:86-87 | an answer fenced with "```json" and "```" gives back its stripped body |
| Planner.UnclosedJsonFence | src/planner.py:86-87 | without a closing fence the last three characters of the body are still cut off |
| Planner.UnfencedAnswer | src/planner.py:86-91 | an answer without a fence is parsed as it is |
| Planner.FencedAnswerParsed | src/planner.py:82-91 | an answer that is a fenced JSON block is parsed as its stripped body; a parse error gives the fallback analysis carrying it |
| Planner.FailedAnalysisPlan | src/planner.py:81-103 | a raise from the model or from the parse ends in exactly one clarification step, whose reasoning carries the error |
| Planner.AnalyzeUserRequest | src/planner.py:93-103 | a raise from the model gives an analysis of type `clarification_needed` that finds the tools insufficient and carries the error in its reasoning |
| Planner.RecommendedSteps | src/planner.py:116-127 | one `use_tool` step per recommended name that is registered, carrying the instruction |
| Planner.RecommendedStepsAppend | src/planner.py:118-127 | the recommended plan keeps the order of the recommendations |
| Planner.RecommendedNone | src/planner.py:116-127 | recommendations none of which is registered give no step |
| Planner.RecommendedSingle | src/planner.py:119-126 | one name gives its step iff it is registered |
| Planner.MatchTool | src/planner.py:134-142 | a string step can only match a registered name |
| Planner.MatchToolFirst | src/planner.py:134-142 | the match is the first registered name that occurs in the step, ignoring case; there is none iff no name occurs |
| Planner.FirstMatchingTool | src/planner.py:134-142 | the loop with `break` finds that first match |
| Planner.ConvertedStepsAppend | src/planner.py:130-145 | converting `execution_plan` keeps its entries' order |
| Planner.ConvertedSingle | src/planner.py:131-144 | a dict entry is copied, other non-strings dropped, a string gives at most one `use_tool` step for the first name it mentions |
| Planner.SingleStepTaskTypes | src/planner.py:147-169 | every task type but `use_existing_tools` gives exactly one step, whose action matches the type |
| Planner.ExecutionPlan | src/planner.py:105-169 | every task type but `use_existing_tools` gives a plan of exactly one step |
| Planner.FallbackAsksForClarification | src/planner.py:164-169 | the fallback analysis yields one clarification request that carries the error |
| Planner.EmptyExistingToolsPlan | src/planner.py:111-127 | `use_existing_tools` with no plan entries and no registered recommendation gives the empty plan |
| Planner.CreateExecutionPlan | src/planner.py:105-169 | the two loops build the plan that `create_execution_plan` specifies for the registry |
| Pipeline.RunPropertyTest | src/sandbox.py:8-31 | the tests pass iff pytest finishes with return code 0; a timeout fails |
| Pipeline.TimeoutFails | src/sandbox.py:30-31 | a timed-out run fails with "pytest timed out" |
| Pipeline.SynthesisSound | src/planner.py:215-278 | an accepted tool has code that is the cleaned model answer and passes the validator; its first definition names it; its property test passes; `exec` binds its name |
| Pipeline.Synthesize | src/planner.py:215-264 | a tool the pipeline accepts has a function with a docstring, so registering it cannot raise |
| Pipeline.FromCodeSound | src/planner.py:233-264 | the same findings for the stages after generation |
| Pipeline.ValidationGate | src/planner.py:233-237 | rejected code stops the attempt, whatever the test model, the sandbox and `exec` would do |
| Pipeline.TestsGate | src/planner.py:246-255 | a failing property test stops the attempt before `exec` has a say |
| Pipeline.SuggestionIsOnlyAHint | src/planner.py:227-244 | the suggested name only reaches the code model; the tool is named after its function |
| Pipeline.CreateAndRegisterNewTool | src/planner.py:215-278 | on failure nothing is registered or broadcast; on success the tool is registered under the extracted name, the file rewritten when writable, and one row published with the next id when the bus is reachable; no cursor moves |
| Pipeline.UseToolResult | src/planner.py:177-194 | an unregistered tool gives None; a registered one gives its function's result, or "Error: ..." when it raises |
| Pipeline.ExecutePlanStep | src/planner.py:171-213 | `create_new_tool` gives whether creation succeeded and leaves registry, file, log and ids as a successful creation specifies; every other action changes nothing and gives the result its step specifies |
| Pipeline.UseToolResultsSize | src/planner.py:317-321 | the re-run adds at most one result per step of the new plan |
| Pipeline.RunWithoutCreation | src/planner.py:304-308 | without a creation step the registry is untouched and there is one result per step, in plan order |
| Pipeline.AtLeastOneResultPerStep | src/planner.py:304-321 | there are never fewer results than plan steps |
| Pipeline.RunOnlyAppends | src/planner.py:304-321 | a run only appends to the bus log, ids advance by exactly the rows it adds, and an unreachable bus gets none |
| Pipeline.IntelligentPlanAndExecute | src/planner.py:280-323 | an empty plan gives `[]`; otherwise each step runs against the registry, file and bus the steps before it left, and the results are the steps' chunks in order; no cursor moves |
| Pipeline.RunPlan | src/planner.py:304-321 | the loop runs the steps in order; registry, file, log and ids end as the chain of step specifications says |
| Pipeline.RunStep | src/planner.py:306-321 | one step appends its result, then the re-analysis results after a successful creation; its effect on registry, file, log and ids is the step specification's |
| Pipeline.Reanalyse | src/planner.py:314-321 | after a creation, the `use_tool` results of the new plan when the tools are now sufficient, else none |
| Pipeline.RunUseToolSteps | src/planner.py:317-321 | the inner loop executes exactly the `use_tool` steps of the new plan, in order, one result each |
| Pipeline.AnalyzeRegistry | src/planner.py:48-83 | the analysis of the request against the registry's description |
| Workflow.BasicToolPasses | src/action_factory_graph.py:354-371 | a basic tool always passes its test |
| Workflow.CreateProblemSteps | src/action_factory_graph.py:102-166 | the planned steps are uncompleted and without results; the index starts at 0 with no results; the rest is kept |
| Workflow.NoModelPlansOneStep | src/action_factory_graph.py:149-159 | without a model, one step that needs `basic_solver` |
| Workflow.UndecodableFallsBack | src/action_factory_graph.py:138-148 | an answer that is not JSON gives one step that needs `analysis_tool` |
| Workflow.MissingMembers | src/action_factory_graph.py:179 | the missing tools are exactly the required ones not available |
| Workflow.ToolExistsCondition | src/action_factory_graph.py:329-340 | the route is `make_tool` or `solve_step` |
| Workflow.ToolExistsRoutes | src/action_factory_graph.py:329-340 | the route is `make_tool` iff the index is in range and a required tool is missing |
| Workflow.ToolWorksCondition | src/action_factory_graph.py:342-346 | always `solve_step` |
| Workflow.NextStepCondition | src/action_factory_graph.py:348-350 | another round iff a step is left, else `finalize_answer` |
| Workflow.AddMissingEffect | src/action_factory_graph.py:204-208 | every required tool becomes available, existing tools are kept, new ones are basic tools for the step |
| Workflow.MakeToolEffect | src/action_factory_graph.py:192-216 | `make_tool` provides the current step's tools and changes nothing else |
| Workflow.MakeTool | src/action_factory_graph.py:192-216 | the loop produces exactly the state `make_tool` specifies |
| Workflow.TestResultsCover | src/action_factory_graph.py:230-240 | the results cover exactly the required tools that are available, each with its own verdict |
| Workflow.TestTool | src/action_factory_graph.py:218-248 | the loop produces exactly those results, and none when the index is out of range |
| Workflow.MadeToolsPass | src/action_factory_graph.py:218-248 | the tools `make_tool` created all pass `test_tool` |
| Workflow.Reports | src/action_factory_graph.py:383-390 | at most one report per required tool |
| Workflow.ReportsCoverRequired | src/action_factory_graph.py:383-392 | with every tool available there is one report per tool, in order, headed by its name |
| Workflow.NoToolsSolution | src/action_factory_graph.py:378-379 | a step without tools is completed without calling any tool |
| Workflow.SolveWithTools | src/action_factory_graph.py:373-392 | the loop produces exactly the solution `_solve_with_tools` specifies |
| Workflow.SolveStepEffect | src/action_factory_graph.py:250-283 | marks the current step completed with its solution, appends one result, advances the index by one; nothing else changes |
| Workflow.SolveStepOutOfRange | src/action_factory_graph.py:254-255 | out of range the state is unchanged |
| Workflow.SolveStep | src/action_factory_graph.py:250-283 | the node produces exactly the state `solve_step` specifies |
| Workflow.FinalizeAnswer | src/action_factory_graph.py:285-314 | always complete; only the answer changes; without a model the answer holds the request, the step count and the results |
| Workflow.RoundAdvances | src/action_factory_graph.py:277-283 | a round on an in-range step adds one result and one to the index |
| Workflow.RoundPastEnd | src/action_factory_graph.py:168-283 | past the last step a round changes nothing |
| Workflow.RoundsIndex | src/action_factory_graph.py:64-98 | after `k` rounds the index is `k` with `k` new results |
| Workflow.PreparedEffect | src/action_factory_graph.py:168-216 | `check_tool_exists` and `make_tool` only add tools, providing the step's tools |
| Workflow.RoundBody | src/action_factory_graph.py:168-283 | a round on an in-range step: the step is completed with the solution computed from the tools after `make_tool`, one result is appended, the index advances, and the tools are those `make_tool` left |
| Workflow.RoundsKeepPlan | src/action_factory_graph.py:264-266 | steps not reached are as planned; solved ones differ only in completion and result |
| Workflow.RoundsSolveInOrder | src/action_factory_graph.py:264-273 | result `j` carries index `j` and step `j`'s description; step `j` is completed and holds it |
| Workflow.RoundsProvideTools | src/action_factory_graph.py:201-214 | starting tools are kept and every solved step's required tools are available |
| Workflow.RoundIgnoresDependencies | src/action_factory_graph.py:168-283 | a round never reads `dependencies` |
| Workflow.DependenciesNeverConsulted | src/action_factory_graph.py:124-137 | plans that differ only in dependencies give the same results and the same answer |
| Workflow.Outcome | src/action_factory_graph.py:394-414 | the specified end state of `run` is complete |
| Workflow.RunSolvesEveryStep | src/action_factory_graph.py:394-414 | `run` ends complete, with one result per planned step, in order, each step completed with its result |
| Workflow.BasicSolverSolution | src/action_factory_graph.py:354-363 | a step that needs only its own basic solver is solved as `Step solved using tools. Results: basic_solver: Tool basic_solver processed: <step> for step: <step>` |
| Workflow.NoModelTools | src/action_factory_graph.py:149-159 | without a model, `check_tool_exists` and `make_tool` leave exactly one tool: a basic `basic_solver` for the step `Solve the problem: <request>` |
| Workflow.FallbackForOne | src/action_factory_graph.py:306-308 | for one result the answer is `Solved '<request>' through 1 steps. Results: ` followed by the `repr` of that result's text |
| Workflow.NoModelRound | src/action_factory_graph.py:168-283 | without a model there is one planned step, and its round records one result: index 0, the step's description, and the basic solver's report on that description |
| Workflow.NoModelRun | src/action_factory_graph.py:394-414 | without a model, `run` records exactly that one result, and its answer is the fallback answer over it |
| Workflow.FromCheckToolExists | src/action_factory_graph.py:168-190 | the node keeps the state and follows its conditional edge |
| Workflow.FromMakeTool | src/action_factory_graph.py:192-216 | the node and its edge to `test_tool` |
| Workflow.FromTestTool | src/action_factory_graph.py:218-248 | the node keeps the state and the step index and always goes on to `solve_step`, never back to `make_tool` |
| Workflow.FromSolveStep | src/action_factory_graph.py:250-283 | the node ends a round and follows `next_step_condition` |
| Workflow.FromFinalizeAnswer | src/action_factory_graph.py:285-314 | the node and its edge to `give_user_answer` |
| Workflow.FromGiveUserAnswer | src/action_factory_graph.py:316-325 | the node keeps the state and ends the walk |
| Workflow.AfterRound | src/action_factory_graph.py:88-95 | after `k` rounds the walk is back at `check_tool_exists`, or at `finalize_answer` once every step is solved |
| Workflow.Advance | src/action_factory_graph.py:64-98 | one edge of the graph, with progress towards the end; from `test_tool` the walk always goes to `solve_step` with the state unchanged, and `make_tool` is entered only from `check_tool_exists` |
| Workflow.Run | src/action_factory_graph.py:394-414 | the walk from `create_problem_steps` to the end returns the final state's answer, results and completion |
| DefaultTools.WithoutSpacesContents | src/default_tools.py:136 | removing `' '` keeps every other character as often as it occurs |
| DefaultTools.NonBlankMembers | src/default_tools.py:138-139 | the filter keeps exactly the non-blank pieces |
| DefaultTools.LongestIsFirstLongest | src/default_tools.py:141 | `max(key=len)` picks the first word of greatest length |
| DefaultTools.ShortestIsFirstShortest | src/default_tools.py:142 | `min(key=len)` picks the first word of least length |
| DefaultTools.AnalyzeCharacters | src/default_tools.py:135-136 | `character_count` is the length; `character_count_no_spaces` is the length less the number of `' '` characters |
| DefaultTools.Analyze | src/default_tools.py:128-143 | the count without spaces never exceeds the character count |
| DefaultTools.AnalyzeBlankWords | src/default_tools.py:137-142 | no words iff the text is blank; a blank text has "" as longest and shortest word |
| DefaultTools.LongestWordIsFirstLongest | src/default_tools.py:141 | the longest word is a word of the list, the first of greatest length |
| DefaultTools.ShortestWordIsFirstShortest | src/default_tools.py:142 | the shortest word is a word of the list, the first of least length |
| DefaultTools.AnalyzePicksWords | src/default_tools.py:141-142 | for a non-blank text both picks are words of `split()` |
| DefaultTools.CountedPieces | src/default_tools.py:138-139 | at most one count per piece, none for a blank text, one for a non-blank text without separator |
| DefaultTools.AnalyzeSentences | src/default_tools.py:131-138 | the sentence count is exactly the number of non-blank pieces between periods: none for a blank text, one for a non-blank text without a period |
| DefaultTools.AnalyzeParagraphs | src/default_tools.py:132-139 | the paragraph count is exactly the number of non-blank pieces between blank-line breaks: none for a blank text, one for a non-blank text without a break |
| DefaultTools.NonBlankCount | src/default_tools.py:138-139 | the filter keeps exactly as many pieces as there are non-blank positions |
| DefaultTools.AnalyzeWords | src/default_tools.py:130-137 | `word_count` is the number of word starts of the text |
| DefaultTools.Alphabet | src/default_tools.py:187-189 | at least the 62 letters and digits |
| DefaultTools.AlphabetContents | src/default_tools.py:187-189 | letters and digits first, then the symbols exactly when asked for |
| DefaultTools.PasswordShape | src/default_tools.py:191 | exactly `length` characters (none when `length <= 0`), each drawn from the alphabet |
| DefaultTools.EveryPasswordPossible | src/default_tools.py:191 | every string of that length over the alphabet is produced by some draws |
| DefaultTools.PasswordGenerator | src/default_tools.py:187-192 | the answer is "Generated password: " followed by exactly `length` characters (none when `length <= 0`) |

## Left out

- Chat messages, `print` and logging are not modelled. `check_tool_exists`, `test_tool`
  and `give_user_answer` only append a message, so they are the identity on the model's state.
- Foreign code stays opaque, as oracles:
  - the language models and their prompts;
  - `compile` and `exec`;
  - pytest and its temporary directory;
  - the calls of tool functions;
  - `json.loads`.
  The model uses what each returns, not how.
- Threads, `threading.Lock`, `time.sleep` and the lock's serialisation are not modelled.
  Each class method is one atomic step.
- The listener's endless `while True` loop is not modelled. `Subscriber.ListenOnce` is
  one iteration, and the exception-and-retry branch is not modelled.
- The PostgreSQL connection is not modelled, and neither are `created_at`/`updated_at`.
  The 32-bit width of `last_processed_id` and of `SERIAL` ids is not modelled either.
  Ids are unbounded integers.
- `Database.ReplicationBus.GetNewToolUpdates`: a failing query is not modelled. Only a
  failed publish (`reachable`) is a parameter.
- These source files are not part of this model: `api.py`, `tool_api.py`, `agent.py`,
  `config.py`, `main.py`, `demo.py`. They are an HTTP layer, an agent front end,
  configuration and scripts.
- `broadcaster.py` becomes the `reachable` publish inside
  `Pipeline.CreateAndRegisterNewTool`.
- These default tools are not modelled: `google_search`, `calculate_math`,
  `current_time`, `generate_random_number`, `json_formatter`, `url_validator`,
  `init_default_tools`. They depend on the network, `eval`, clocks, randomness, or JSON
  and URL parsing.
- `text_analyzer`: `average_word_length` (floating point) is not modelled. The
  title-cased report text is not modelled either: the model states the counts and words.
- `password_generator`: `random.choice` is the `pick` oracle. The model does not
  capture that the draws are random.
- `generate_tool_code` and `generate_tool_code_with_context` are reduced to their shared
  clean-up, `Codegen.CleanGeneratedCode`, on the oracle's text. The `str(code)`
  conversion of a non-string answer is not modelled.
- `generate_property_test` is reduced to `Pipeline.CleanTest`, which is dedent and
  strip on the oracle's text.
- `Registry.ToolRegistry.RegisterTool`: of langchain's `tool(func)` only the docstring
  check is modelled. A function without one raises; an empty docstring gives the
  description "". Other checks of `tool`, such as schema inference, are not modelled.
  The model takes the docstring as it stands for the description; langchain cleans it
  (dedent and strip) or, in older versions, prefixes it with the function's signature.
- `Strings.Lower` lower-cases ASCII letters only. Python's `str.lower` also folds
  non-ASCII letters.
- `Codegen.Margin`: `textwrap.dedent` follows CPython up to 3.13, where a blank line is
  one of spaces and tabs.
- `Planner.ExtractFunctionName` recognises this one pattern. There is no general engine
  for regular expressions.
- `Workflow.Run`: LangGraph's recursion limit (25 super-steps by default) is not
  modelled. A long enough plan would raise `GraphRecursionError` in the source, but the
  model runs one round per step however many there are.
- `Workflow.CreateProblemSteps`: some model answers are valid JSON but not a list of
  step objects with a `description`. They raise and abort the source's run. The model
  covers only answers that do not decode and well-shaped lists. A key present with the
  value `null` is treated as absent.
- `Planner.AnalyzeUserRequest`: the `parse` oracle returns a well-shaped analysis or an
  error. Several JSON answers that `json.loads` accepts are not modelled, and they behave
  differently in the source:
  - a list or scalar makes `analysis.get` raise, in `intelligent_plan_and_execute` and in
    `create_execution_plan`;
  - `"recommended_tools": null` makes the loop over it raise;
  - `"missing_tool_description": null` passes None to `create_new_tool`, where the model
    uses the instruction;
  - `existing_tools_sufficient` holding a non-boolean value is tested for truthiness.
- `Pipeline.IntelligentPlanAndExecute`: the ill-shaped analyses just listed are not
  modelled; the model takes every analysis as well shaped.
- `Workflow.BasicToolPasses`, `Workflow.MakeTool`, `Workflow.NoModelTools`,
  `Workflow.NoModelRound`, `Workflow.NoModelRun`, `Workflow.Run`: the model assumes that
  `@tool(name=tool_name)` builds the basic tool. If the installed `langchain_core`
  rejects that keyword, `make_tool` raises and `run` aborts; these members do not cover
  that case. `Workflow.RunSolvesEveryStep` and `Workflow.Outcome` take the same
  assumption.
- `Workflow.CreateProblemSteps`, `Workflow.FinalizeAnswer`, `Workflow.Run`,
  `Workflow.RunSolvesEveryStep`, `Workflow.Outcome`: a raise from `llm.invoke` is not
  caught at src/action_factory_graph.py:125 (only a JSON decoding error is) nor at
  src/action_factory_graph.py:304, so it aborts `run`. The model's `Llm` oracle always
  answers, so the model's run always ends complete; a failing model call is not modelled.
- `Pipeline.IntelligentPlanAndExecute`: formatting a non-numeric `confidence` with
  `:.2f` raises in the source's log line. The model does not raise there, because log
  output is not modelled.
- `Pipeline.ExecutePlanStep`: a tool is called through `func`. The `tool.run` branch,
  for tools without `func`, is not modelled. Step fields of the wrong type are not
  modelled.
- In-place mutation is modelled on values:
  - `make_tool` updates the state's tool dictionary in place;
  - `solve_step` updates the step dictionaries and the results list in place.
  Each state is used once, so the model works on values. One effect this hides: the
  "Created tools" message is always an empty list in the source, because it is computed
  after the mutation. Messages are not modelled.
- Python's `repr` of the list of results is the `repr` parameter of `Workflow.Env`.
- A name that `exec` binds to a non-callable is treated like a function.
