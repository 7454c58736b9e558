/**
 * The Action Factory step workflow: a graph whose nodes break a request into problem
 * steps, create the tools each step requires and solve the steps one after the other.
 * Chat messages are not modelled, so `check_tool_exists`, `test_tool` and
 * `give_user_answer`, which only append a message, leave the modelled state as it is.
 */
module Workflow {
  import opened Wrappers
  import opened Strings

  /** A tool in `available_tools`: one built by `_create_basic_tool`, or one supplied from outside. */
  datatype Tool = Basic(name: string, stepDescription: string) | External(id: nat)

  /** One entry of `problem_steps`. */
  datatype ProblemStep = ProblemStep(
    description: string, requiredTools: seq<string>, dependencies: seq<int>,
    completed: bool, result: Option<string>)

  /** One entry of `step_results`. */
  datatype StepOutcome = StepOutcome(stepIndex: int, description: string, result: string)

  /** `ActionFactoryState` without `messages`; the index only ever starts at 0 and grows. */
  datatype State = State(
    userPrompt: string, problemSteps: seq<ProblemStep>, index: nat, available: map<string, Tool>,
    stepResults: seq<StepOutcome>, finalAnswer: string, complete: bool)

  /** One step of the language model's JSON plan; absent keys are `None`. */
  datatype PlannedStep = PlannedStep(description: string, requiredTools: Option<seq<string>>, dependencies: Option<seq<int>>)

  /** What `json.loads` makes of the model's answer to the planning prompt. */
  datatype Decoded = Undecodable | Steps(steps: seq<PlannedStep>)

  /** A configured language model: its answers as functions of what the prompts are built from. */
  datatype Llm = Llm(plan: string -> Decoded, answer: (string, seq<StepOutcome>) -> string)

  /**
   * The workflow's collaborators: the optional model, the tools that do not come from
   * `_create_basic_tool`, and Python's `repr` of the list of step results.
   */
  datatype Env = Env(llm: Option<Llm>, external: (nat, string) -> Result<string>, repr: seq<string> -> string)

  /** The nodes of the compiled graph, and its end. */
  datatype Node = AtCheckToolExists | AtMakeTool | AtTestTool | AtSolveStep | AtFinalizeAnswer | AtGiveUserAnswer | AtEnd

  /** The dictionary `run` returns. */
  datatype RunResult = RunResult(finalAnswer: string, stepResults: seq<StepOutcome>, workflowComplete: bool)

  // ---------------------------------------------------------------------------------------
  // Tools

  /** `tool.invoke(query)`: a basic tool echoes its query and step; other tools are oracles. */
  function Invoke(tool: Tool, query: string, external: (nat, string) -> Result<string>): Result<string> {
    match tool
    case Basic(name, step) => Ok("Tool " + name + " processed: " + query + " for step: " + step)
    case External(id) => external(id, query)
  }

  /** `_test_tool`: the call succeeds and its result is truthy (a non-empty string). */
  predicate PassesTest(tool: Tool, query: string, external: (nat, string) -> Result<string>) {
    Invoke(tool, query, external).Ok? && Invoke(tool, query, external).value != ""
  }

  /** A tool built by `_create_basic_tool` always passes its test, whatever it is asked. */
  lemma BasicToolPasses(name: string, step: string, query: string, external: (nat, string) -> Result<string>)
    ensures PassesTest(Basic(name, step), query, external)
  {
    assert ("Tool " + name + " processed: " + query + " for step: " + step)[0] == 'T';
  }

  // ---------------------------------------------------------------------------------------
  // create_problem_steps

  const NoModelTask := "Solve the problem: "
  const FallbackTask := "Analyze and solve: "
  const BasicSolver := "basic_solver"
  const AnalysisTool := "analysis_tool"

  /** A step as the planner writes it: not completed and without a result. */
  function FreshStep(description: string, tools: seq<string>, dependencies: seq<int>): ProblemStep {
    ProblemStep(description, tools, dependencies, false, None)
  }

  /** The steps `create_problem_steps` plans for a request. */
  function PlannedSteps(userPrompt: string, llm: Option<Llm>): seq<ProblemStep> {
    match llm
    case None => [FreshStep(NoModelTask + userPrompt, [BasicSolver], [])]
    case Some(model) =>
      match model.plan(userPrompt)
      case Undecodable => [FreshStep(FallbackTask + userPrompt, [AnalysisTool], [])]
      case Steps(planned) =>
        seq(|planned|, i requires 0 <= i < |planned| =>
          FreshStep(planned[i].description, planned[i].requiredTools.GetOr([]), planned[i].dependencies.GetOr([])))
  }

  /** `create_problem_steps`: installs the planned steps, starts at step 0 with no results. */
  function CreateProblemSteps(s: State, llm: Option<Llm>): (r: State)
    ensures r.index == 0 && r.stepResults == []
    ensures r.available == s.available && r.userPrompt == s.userPrompt && r.complete == s.complete
    ensures forall j :: 0 <= j < |r.problemSteps| ==> !r.problemSteps[j].completed && r.problemSteps[j].result == None
  {
    s.(problemSteps := PlannedSteps(s.userPrompt, llm), index := 0, stepResults := [])
  }

  /** Without a model the plan is one step that needs `basic_solver`. */
  lemma NoModelPlansOneStep(s: State)
    ensures CreateProblemSteps(s, None).problemSteps == [FreshStep(NoModelTask + s.userPrompt, [BasicSolver], [])]
  {
  }

  /** An answer that is not JSON falls back to one step that needs `analysis_tool`. */
  lemma UndecodableFallsBack(s: State, model: Llm)
    requires model.plan(s.userPrompt) == Undecodable
    ensures CreateProblemSteps(s, Some(model)).problemSteps == [FreshStep(FallbackTask + s.userPrompt, [AnalysisTool], [])]
  {
  }

  // ---------------------------------------------------------------------------------------
  // Routing

  /** The required tools that are not available, in order (`missing_tools`). */
  function Missing(required: seq<string>, available: map<string, Tool>): seq<string> {
    if required == [] then []
    else (if required[0] in available then [] else [required[0]]) + Missing(required[1..], available)
  }

  /** The missing tools are exactly the required names that are not available. */
  lemma {:induction false} MissingMembers(required: seq<string>, available: map<string, Tool>)
    ensures forall t :: t in Missing(required, available) <==> t in required && t !in available
  {
    if required != [] {
      MissingMembers(required[1..], available);
      assert forall t :: t in required <==> t == required[0] || t in required[1..];
    }
  }

  /** `tool_exists_condition`: the route out of `check_tool_exists`. */
  function ToolExistsCondition(s: State): (r: Node)
    ensures r == AtMakeTool || r == AtSolveStep
  {
    if s.index >= |s.problemSteps| then AtSolveStep
    else if Missing(s.problemSteps[s.index].requiredTools, s.available) != [] then AtMakeTool
    else AtSolveStep
  }

  /** The route is `make_tool` iff the index is in range and the current step lacks a required tool. */
  lemma ToolExistsRoutes(s: State)
    ensures ToolExistsCondition(s) == AtMakeTool <==>
      s.index < |s.problemSteps| && (exists t :: t in s.problemSteps[s.index].requiredTools && t !in s.available)
  {
    if s.index < |s.problemSteps| {
      var m := Missing(s.problemSteps[s.index].requiredTools, s.available);
      MissingMembers(s.problemSteps[s.index].requiredTools, s.available);
      if m != [] {
        assert m[0] in m;
      }
    }
  }

  /** `tool_works_condition`: always back to solving, so the retry edge to `make_tool` is never taken. */
  function ToolWorksCondition(s: State): (r: Node)
    ensures r == AtSolveStep
  {
    AtSolveStep
  }

  /** `next_step_condition`: another round iff some step is left. */
  function NextStepCondition(s: State): (r: Node)
    ensures r == AtCheckToolExists || r == AtFinalizeAnswer
    ensures r == AtCheckToolExists <==> s.index < |s.problemSteps|
  {
    if s.index < |s.problemSteps| then AtCheckToolExists else AtFinalizeAnswer
  }

  // ---------------------------------------------------------------------------------------
  // make_tool

  /** The tools after the `make_tool` loop over `required`. */
  function AddMissing(available: map<string, Tool>, required: seq<string>, description: string): map<string, Tool> {
    if required == [] then available
    else
      var before := AddMissing(available, required[..|required| - 1], description);
      var t := required[|required| - 1];
      if t in before then before else before[t := Basic(t, description)]
  }

  /**
   * Every required name ends up available, the tools that were available are kept as they
   * are, and every new one is a basic tool for the step.
   */
  lemma {:induction false} AddMissingEffect(available: map<string, Tool>, required: seq<string>, description: string)
    ensures var r := AddMissing(available, required, description);
      && (forall t :: t in required ==> t in r)
      && (forall t :: t in available ==> t in r && r[t] == available[t])
      && (forall t :: t in r ==> t in available || (t in required && r[t] == Basic(t, description)))
  {
    if required != [] {
      var init := required[..|required| - 1];
      AddMissingEffect(available, init, description);
      assert forall u :: u in required <==> u in init || u == required[|required| - 1];
    }
  }

  /** `make_tool`: adds the current step's missing tools; out of range it changes nothing. */
  function MakeToolState(s: State): State {
    if s.index >= |s.problemSteps| then s
    else
      var step := s.problemSteps[s.index];
      s.(available := AddMissing(s.available, step.requiredTools, step.description))
  }

  /**
   * After `make_tool` every required tool of the current step is available, the tools that
   * were available are untouched, and each new one is a basic tool for the step; nothing
   * else in the state changes.
   */
  lemma MakeToolEffect(s: State)
    ensures var r := MakeToolState(s);
      && r == s.(available := r.available)
      && (s.index >= |s.problemSteps| ==> r == s)
      && (s.index < |s.problemSteps| ==>
        && (forall t :: t in s.problemSteps[s.index].requiredTools ==> t in r.available)
        && (forall t :: t in s.available ==> t in r.available && r.available[t] == s.available[t])
        && (forall t :: t in r.available && t !in s.available ==>
              r.available[t] == Basic(t, s.problemSteps[s.index].description)))
  {
    if s.index < |s.problemSteps| {
      AddMissingEffect(s.available, s.problemSteps[s.index].requiredTools, s.problemSteps[s.index].description);
    }
  }

  /** The `make_tool` node, with its loop over the required tools. */
  method MakeTool(s: State) returns (r: State)
    ensures r == MakeToolState(s)
  {
    if s.index >= |s.problemSteps| {
      return s;
    }
    var step := s.problemSteps[s.index];
    var available := s.available;
    for k := 0 to |step.requiredTools|
      invariant available == AddMissing(s.available, step.requiredTools[..k], step.description)
    {
      assert step.requiredTools[..k + 1][..k] == step.requiredTools[..k];
      var name := step.requiredTools[k];
      if name !in available {
        available := available[name := Basic(name, step.description)];
      }
    }
    assert step.requiredTools[..|step.requiredTools|] == step.requiredTools;
    return s.(available := available);
  }

  // ---------------------------------------------------------------------------------------
  // test_tool

  /** `tool_test_results`: for each required tool that is available, whether it passes. */
  function TestResults(required: seq<string>, available: map<string, Tool>, query: string,
                       external: (nat, string) -> Result<string>): map<string, bool>
  {
    if required == [] then map[]
    else
      var before := TestResults(required[..|required| - 1], available, query, external);
      var t := required[|required| - 1];
      if t in available then before[t := PassesTest(available[t], query, external)] else before
  }

  /** The test results cover exactly the required tools that are available, each with its own verdict. */
  lemma {:induction false} TestResultsCover(required: seq<string>, available: map<string, Tool>, query: string,
                                            external: (nat, string) -> Result<string>)
    ensures var r := TestResults(required, available, query, external);
      && (forall t :: t in r <==> t in required && t in available)
      && (forall t :: t in r ==> r[t] == PassesTest(available[t], query, external))
  {
    if required != [] {
      var init := required[..|required| - 1];
      TestResultsCover(init, available, query, external);
      assert forall u :: u in required <==> u in init || u == required[|required| - 1];
    }
  }

  /**
   * The loop of `test_tool`. Its results only reach a chat message: the node returns the
   * state as it was, and `tool_works_condition` does not look at them.
   */
  method TestTool(s: State, external: (nat, string) -> Result<string>) returns (results: map<string, bool>)
    ensures s.index < |s.problemSteps| ==>
      var step := s.problemSteps[s.index];
      results == TestResults(step.requiredTools, s.available, step.description, external)
    ensures s.index >= |s.problemSteps| ==> results == map[]
  {
    results := map[];
    if s.index >= |s.problemSteps| {
      return;
    }
    var step := s.problemSteps[s.index];
    for k := 0 to |step.requiredTools|
      invariant results == TestResults(step.requiredTools[..k], s.available, step.description, external)
    {
      assert step.requiredTools[..k + 1][..k] == step.requiredTools[..k];
      var name := step.requiredTools[k];
      if name in s.available {
        results := results[name := PassesTest(s.available[name], step.description, external)];
      }
    }
    assert step.requiredTools[..|step.requiredTools|] == step.requiredTools;
  }

  /** Right after `make_tool`, the tools it created report success in `test_tool`. */
  lemma MadeToolsPass(s: State, external: (nat, string) -> Result<string>, t: string)
    requires s.index < |s.problemSteps|
    requires t in s.problemSteps[s.index].requiredTools && t !in s.available
    ensures var step := s.problemSteps[s.index];
      var made := MakeToolState(s).available;
      var results := TestResults(step.requiredTools, made, step.description, external);
      t in results && results[t]
  {
    var step := s.problemSteps[s.index];
    MakeToolEffect(s);
    TestResultsCover(step.requiredTools, MakeToolState(s).available, step.description, external);
    BasicToolPasses(t, step.description, step.description, external);
  }

  // ---------------------------------------------------------------------------------------
  // solve_step

  /** One entry of the `_solve_with_tools` report. */
  function Report(name: string, outcome: Result<string>): string {
    match outcome
    case Ok(text) => name + ": " + text
    case Err(e) => name + ": Error - " + e
  }

  /** The reports of the required tools that are available, in the order they are required. */
  function Reports(required: seq<string>, tools: map<string, Tool>, description: string,
                   external: (nat, string) -> Result<string>): (rs: seq<string>)
    ensures |rs| <= |required|
  {
    if required == [] then []
    else
      var before := Reports(required[..|required| - 1], tools, description, external);
      var t := required[|required| - 1];
      if t in tools then before + [Report(t, Invoke(tools[t], description, external))] else before
  }

  /** With every required tool available there is one report per tool, in order, headed by its name. */
  lemma {:induction false} ReportsCoverRequired(required: seq<string>, tools: map<string, Tool>, description: string,
                                                external: (nat, string) -> Result<string>)
    requires forall t :: t in required ==> t in tools
    ensures |Reports(required, tools, description, external)| == |required|
    ensures forall k :: 0 <= k < |required| ==>
      Reports(required, tools, description, external)[k] == Report(required[k], Invoke(tools[required[k]], description, external))
  {
    if required != [] {
      var init := required[..|required| - 1];
      assert forall t :: t in init ==> t in required;
      ReportsCoverRequired(init, tools, description, external);
    }
  }

  const CompletedPrefix := "Completed: "
  const SolvedPrefix := "Step solved using tools. Results: "
  const ReportSeparator := "; "

  /** What `_solve_with_tools` returns for a step. */
  function Solution(step: ProblemStep, tools: map<string, Tool>, external: (nat, string) -> Result<string>): string {
    if step.requiredTools == [] then CompletedPrefix + step.description
    else SolvedPrefix + Join(ReportSeparator, Reports(step.requiredTools, tools, step.description, external))
  }

  /** A step that needs no tool is completed without calling any. */
  lemma NoToolsSolution(step: ProblemStep, tools: map<string, Tool>, external: (nat, string) -> Result<string>)
    requires step.requiredTools == []
    ensures Solution(step, tools, external) == CompletedPrefix + step.description
  {
  }

  /** `_solve_with_tools`, with its loop over the required tools. */
  method SolveWithTools(step: ProblemStep, tools: map<string, Tool>, external: (nat, string) -> Result<string>)
    returns (text: string)
    ensures text == Solution(step, tools, external)
  {
    if step.requiredTools == [] {
      return CompletedPrefix + step.description;
    }
    var results := [];
    for k := 0 to |step.requiredTools|
      invariant results == Reports(step.requiredTools[..k], tools, step.description, external)
    {
      assert step.requiredTools[..k + 1][..k] == step.requiredTools[..k];
      var name := step.requiredTools[k];
      if name in tools {
        var outcome := Invoke(tools[name], step.description, external);
        results := results + [Report(name, outcome)];
      }
    }
    assert step.requiredTools[..|step.requiredTools|] == step.requiredTools;
    return SolvedPrefix + Join(ReportSeparator, results);
  }

  /** `solve_step` on the state's own index: out of range it changes nothing. */
  function SolveStepState(s: State, external: (nat, string) -> Result<string>): State {
    if s.index >= |s.problemSteps| then s
    else
      var step := s.problemSteps[s.index];
      var text := Solution(step, s.available, external);
      s.(problemSteps := s.problemSteps[s.index := step.(completed := true, result := Some(text))],
         stepResults := s.stepResults + [StepOutcome(s.index, step.description, text)],
         index := s.index + 1)
  }

  /**
   * `solve_step` on an in-range step marks that step completed with its solution, appends one
   * result carrying the old index and the step's description and solution, and advances the
   * index by exactly one; every other step, the tools and the answer fields are untouched.
   */
  lemma SolveStepEffect(s: State, external: (nat, string) -> Result<string>)
    requires s.index < |s.problemSteps|
    ensures var r := SolveStepState(s, external);
      && r.index == s.index + 1
      && r == s.(problemSteps := r.problemSteps, stepResults := r.stepResults, index := r.index)
      && |r.problemSteps| == |s.problemSteps|
      && (forall j :: 0 <= j < |s.problemSteps| && j != s.index ==> r.problemSteps[j] == s.problemSteps[j])
      && r.problemSteps[s.index] == s.problemSteps[s.index].(completed := true, result := r.problemSteps[s.index].result)
      && |r.stepResults| == |s.stepResults| + 1
      && r.stepResults[..|s.stepResults|] == s.stepResults
      && r.stepResults[|s.stepResults|].stepIndex == s.index
      && r.stepResults[|s.stepResults|].description == s.problemSteps[s.index].description
      && r.problemSteps[s.index].result == Some(r.stepResults[|s.stepResults|].result)
  {
  }

  /** Out of range, `solve_step` returns the state unchanged. */
  lemma SolveStepOutOfRange(s: State, external: (nat, string) -> Result<string>)
    requires s.index >= |s.problemSteps|
    ensures SolveStepState(s, external) == s
  {
  }

  /** The `solve_step` node. */
  method SolveStep(s: State, external: (nat, string) -> Result<string>) returns (r: State)
    ensures r == SolveStepState(s, external)
  {
    if s.index >= |s.problemSteps| {
      return s;
    }
    var step := s.problemSteps[s.index];
    var text := SolveWithTools(step, s.available, external);
    r := s.(problemSteps := s.problemSteps[s.index := step.(completed := true, result := Some(text))],
            stepResults := s.stepResults + [StepOutcome(s.index, step.description, text)],
            index := s.index + 1);
  }

  // ---------------------------------------------------------------------------------------
  // finalize_answer

  /** The answer written without a model: the request, the number of steps and their results. */
  function FallbackAnswer(userPrompt: string, results: seq<StepOutcome>, repr: seq<string> -> string): string {
    "Solved '" + userPrompt + "' through " + DecimalString(|results|) + " steps. Results: "
    + repr(seq(|results|, i requires 0 <= i < |results| => results[i].result))
  }

  /** `finalize_answer`: writes the final answer and always marks the workflow complete. */
  function FinalizeAnswer(s: State, env: Env): (r: State)
    ensures r.complete
    ensures r == s.(finalAnswer := r.finalAnswer, complete := true)
    ensures env.llm.None? ==> r.finalAnswer == FallbackAnswer(s.userPrompt, s.stepResults, env.repr)
  {
    var answer := match env.llm
      case None => FallbackAnswer(s.userPrompt, s.stepResults, env.repr)
      case Some(model) => model.answer(s.userPrompt, s.stepResults);
    s.(finalAnswer := answer, complete := true)
  }

  // ---------------------------------------------------------------------------------------
  // The graph

  /** `check_tool_exists`, then `make_tool` and `test_tool` when the routing asks for them. */
  function Prepared(s: State): State {
    if ToolExistsCondition(s) == AtMakeTool then MakeToolState(s) else s
  }

  /** One round of the graph: from `check_tool_exists` through `solve_step`. */
  function Round(s: State, external: (nat, string) -> Result<string>): State {
    SolveStepState(Prepared(s), external)
  }

  /** The state after `k` rounds. */
  function Rounds(s: State, k: nat, external: (nat, string) -> Result<string>): State {
    if k == 0 then s else Round(Rounds(s, k - 1, external), external)
  }

  /** The state `run` starts from. */
  function InitialState(userPrompt: string): State {
    State(userPrompt, [], 0, map[], [], "", false)
  }

  /** Where the graph ends: the planned steps, one round per step, then the final answer. */
  function Outcome(userPrompt: string, env: Env): (r: State)
    ensures r.complete
  {
    var start := CreateProblemSteps(InitialState(userPrompt), env.llm);
    FinalizeAnswer(Rounds(start, |start.problemSteps|, env.external), env)
  }

  /** The dictionary `run` builds from the final state. */
  function Summary(s: State): RunResult {
    RunResult(s.finalAnswer, s.stepResults, s.complete)
  }

  /** The position of a node in a round; with the steps left it bounds the rest of the run. */
  function Rank(node: Node): nat {
    match node
    case AtCheckToolExists => 6
    case AtMakeTool => 5
    case AtTestTool => 4
    case AtSolveStep => 3
    case AtFinalizeAnswer => 2
    case AtGiveUserAnswer => 1
    case AtEnd => 0
  }

  /** A round on an in-range step keeps the step list and advances the index by one. */
  lemma RoundAdvances(s: State, external: (nat, string) -> Result<string>)
    requires s.index < |s.problemSteps|
    ensures Round(s, external).index == s.index + 1
    ensures |Round(s, external).problemSteps| == |s.problemSteps|
    ensures |Round(s, external).stepResults| == |s.stepResults| + 1
  {
    var p := Prepared(s);
    assert p.index == s.index && p.problemSteps == s.problemSteps && p.stepResults == s.stepResults;
  }

  /** Once every step is solved a round changes nothing. */
  lemma RoundPastEnd(s: State, external: (nat, string) -> Result<string>)
    requires s.index >= |s.problemSteps|
    ensures Round(s, external) == s
  {
  }

  /** After `k` rounds from step 0, the index is `k` and `k` results have been added. */
  lemma {:induction false} RoundsIndex(s: State, k: nat, external: (nat, string) -> Result<string>)
    requires s.index == 0 && k <= |s.problemSteps|
    ensures Rounds(s, k, external).index == k
    ensures |Rounds(s, k, external).problemSteps| == |s.problemSteps|
    ensures |Rounds(s, k, external).stepResults| == |s.stepResults| + k
  {
    if k > 0 {
      RoundsIndex(s, k - 1, external);
      RoundAdvances(Rounds(s, k - 1, external), external);
    }
  }

  /**
   * `check_tool_exists`, with `make_tool` when routed there, changes only the tools: the
   * available ones are kept and the current step's required ones are all there afterwards.
   */
  lemma PreparedEffect(s: State)
    ensures var p := Prepared(s);
      && p == s.(available := p.available)
      && (forall t :: t in s.available ==> t in p.available && p.available[t] == s.available[t])
      && (s.index < |s.problemSteps| ==> forall t :: t in s.problemSteps[s.index].requiredTools ==> t in p.available)
  {
    MakeToolEffect(s);
    ToolExistsRoutes(s);
  }

  /** The solution a round records for the current step, with the tools it has by then. */
  function RoundText(s: State, external: (nat, string) -> Result<string>): string
    requires s.index < |s.problemSteps|
  {
    Solution(s.problemSteps[s.index], Prepared(s).available, external)
  }

  /** One round on an in-range step, written out field by field. */
  lemma RoundBody(s: State, external: (nat, string) -> Result<string>)
    requires s.index < |s.problemSteps|
    ensures var step := s.problemSteps[s.index];
      Round(s, external) == s.(
        available := Prepared(s).available,
        problemSteps := s.problemSteps[s.index := step.(completed := true, result := Some(RoundText(s, external)))],
        stepResults := s.stepResults + [StepOutcome(s.index, step.description, RoundText(s, external))],
        index := s.index + 1)
    ensures var step := s.problemSteps[s.index];
      && Round(s, external).problemSteps == s.problemSteps[s.index := step.(completed := true, result := Some(RoundText(s, external)))]
      && Round(s, external).stepResults == s.stepResults + [StepOutcome(s.index, step.description, RoundText(s, external))]
  {
    PreparedEffect(s);
  }

  /** Steps `k..` of `r` are as planned, and every step differs from its plan at most in its completion and its result. */
  predicate KeepsPlan(plan: seq<ProblemStep>, r: State, k: nat) {
    && |r.problemSteps| == |plan|
    && (forall j :: k <= j < |plan| ==> r.problemSteps[j] == plan[j])
    && forall j :: 0 <= j < |plan| ==>
      r.problemSteps[j] == plan[j].(completed := r.problemSteps[j].completed, result := r.problemSteps[j].result)
  }

  /**
   * Results `0..k-1` of `r` account for the first `k` steps of `plan`, in order: result `j`
   * carries index `j` and the description of step `j`, which is completed and holds it.
   */
  predicate SolvedInOrder(plan: seq<ProblemStep>, r: State, k: nat) {
    && k <= |plan| && |r.problemSteps| == |plan| && |r.stepResults| == k
    && forall j :: 0 <= j < k ==>
      && r.problemSteps[j].completed
      && r.stepResults[j].stepIndex == j
      && r.stepResults[j].description == plan[j].description
      && r.problemSteps[j].result == Some(r.stepResults[j].result)
  }

  /** `r` still has the starting `tools` unchanged and every tool the first `k` steps required. */
  predicate ProvidesTools(plan: seq<ProblemStep>, tools: map<string, Tool>, r: State, k: nat) {
    && (forall t :: t in tools ==> t in r.available && r.available[t] == tools[t])
    && forall j, t :: 0 <= j < k <= |plan| && t in plan[j].requiredTools ==> t in r.available
  }

  /** What holds after `k` rounds from a fresh plan with the given starting tools. */
  predicate Progress(plan: seq<ProblemStep>, tools: map<string, Tool>, r: State, k: nat) {
    && k <= |plan| && r.index == k
    && KeepsPlan(plan, r, k) && SolvedInOrder(plan, r, k) && ProvidesTools(plan, tools, r, k)
  }

  /** Solving step `k - 1` keeps the plan, one step further on. */
  lemma KeepsPlanStep(plan: seq<ProblemStep>, prev: State, r: State, k: nat, text: string)
    requires 0 < k <= |plan| && KeepsPlan(plan, prev, k - 1)
    requires r.problemSteps == prev.problemSteps[k - 1 := prev.problemSteps[k - 1].(completed := true, result := Some(text))]
    ensures KeepsPlan(plan, r, k)
  {
    forall j | 0 <= j < |plan|
      ensures r.problemSteps[j] == plan[j].(completed := r.problemSteps[j].completed, result := r.problemSteps[j].result)
    {
      if j == k - 1 {
        assert prev.problemSteps[j] == plan[j];
      }
    }
  }

  /** Solving step `k - 1` with `text` extends the solved prefix by that step. */
  lemma SolvedInOrderStep(plan: seq<ProblemStep>, prev: State, r: State, k: nat, text: string)
    requires 0 < k && SolvedInOrder(plan, prev, k - 1) && k <= |plan|
    requires prev.problemSteps[k - 1].description == plan[k - 1].description
    requires r.problemSteps == prev.problemSteps[k - 1 := prev.problemSteps[k - 1].(completed := true, result := Some(text))]
    requires r.stepResults == prev.stepResults + [StepOutcome(k - 1, prev.problemSteps[k - 1].description, text)]
    ensures SolvedInOrder(plan, r, k)
  {
    forall j | 0 <= j < k
      ensures r.problemSteps[j].completed && r.stepResults[j].stepIndex == j
      ensures r.stepResults[j].description == plan[j].description
      ensures r.problemSteps[j].result == Some(r.stepResults[j].result)
    {
      if j < k - 1 {
        assert r.stepResults[j] == prev.stepResults[j] && r.problemSteps[j] == prev.problemSteps[j];
      }
    }
  }

  /** Keeping every tool and adding the ones step `k - 1` requires provides the tools one step further on. */
  lemma ProvidesToolsStep(plan: seq<ProblemStep>, tools: map<string, Tool>, prev: State, r: State, k: nat)
    requires 0 < k <= |plan| && ProvidesTools(plan, tools, prev, k - 1)
    requires forall t :: t in prev.available ==> t in r.available && r.available[t] == prev.available[t]
    requires forall t :: t in plan[k - 1].requiredTools ==> t in r.available
    ensures ProvidesTools(plan, tools, r, k)
  {
  }

  /** The rounds keep the plan, solve its steps in order and only ever add tools. */
  lemma {:induction false} RoundsProgress(s: State, k: nat, external: (nat, string) -> Result<string>)
    requires s.index == 0 && s.stepResults == [] && k <= |s.problemSteps|
    ensures Progress(s.problemSteps, s.available, Rounds(s, k, external), k)
  {
    if k > 0 {
      var prev := Rounds(s, k - 1, external);
      RoundsProgress(s, k - 1, external);
      RoundBody(prev, external);
      PreparedEffect(prev);
      var r, text := Rounds(s, k, external), RoundText(prev, external);
      assert prev.problemSteps[k - 1] == s.problemSteps[k - 1];
      KeepsPlanStep(s.problemSteps, prev, r, k, text);
      SolvedInOrderStep(s.problemSteps, prev, r, k, text);
      ProvidesToolsStep(s.problemSteps, s.available, prev, r, k);
    }
  }

  /** The steps not reached yet are as planned; the others changed at most in completion and result. */
  lemma RoundsKeepPlan(s: State, k: nat, external: (nat, string) -> Result<string>)
    requires s.index == 0 && s.stepResults == [] && k <= |s.problemSteps|
    ensures KeepsPlan(s.problemSteps, Rounds(s, k, external), k)
  {
    RoundsProgress(s, k, external);
  }

  /** After `k` rounds from a fresh plan the first `k` steps are solved in order. */
  lemma RoundsSolveInOrder(s: State, k: nat, external: (nat, string) -> Result<string>)
    requires s.index == 0 && s.stepResults == [] && k <= |s.problemSteps|
    ensures SolvedInOrder(s.problemSteps, Rounds(s, k, external), k)
  {
    RoundsProgress(s, k, external);
  }

  /**
   * Tools are only ever added: after `k` rounds the starting tools are untouched and every
   * tool a solved step required is available.
   */
  lemma RoundsProvideTools(s: State, k: nat, external: (nat, string) -> Result<string>)
    requires s.index == 0 && s.stepResults == [] && k <= |s.problemSteps|
    ensures ProvidesTools(s.problemSteps, s.available, Rounds(s, k, external), k)
  {
    RoundsProgress(s, k, external);
  }

  /** Two states that differ at most in the steps' `dependencies`. */
  predicate SameButDependencies(a: State, b: State) {
    && a.(problemSteps := []) == b.(problemSteps := [])
    && |a.problemSteps| == |b.problemSteps|
    && forall j :: 0 <= j < |a.problemSteps| ==> a.problemSteps[j].(dependencies := []) == b.problemSteps[j].(dependencies := [])
  }

  /** A round never reads a step's `dependencies`. */
  lemma RoundIgnoresDependencies(a: State, b: State, external: (nat, string) -> Result<string>)
    requires SameButDependencies(a, b)
    ensures SameButDependencies(Round(a, external), Round(b, external))
  {
    assert a.index == b.index && a.available == b.available;
    if a.index < |a.problemSteps| {
      var sa, sb := a.problemSteps[a.index], b.problemSteps[a.index];
      assert sa.(dependencies := []) == sb.(dependencies := []);
      assert sa.requiredTools == sb.requiredTools && sa.description == sb.description;
      PreparedEffect(a);
      PreparedEffect(b);
      assert ToolExistsCondition(a) == ToolExistsCondition(b);
      assert Prepared(a).available == Prepared(b).available;
      SolveStepEffect(Prepared(a), external);
      SolveStepEffect(Prepared(b), external);
    }
  }

  /**
   * Step `dependencies` are never consulted: runs from states that differ only there give
   * the same step results and the same final answer.
   */
  lemma {:induction false} DependenciesNeverConsulted(a: State, b: State, k: nat, env: Env)
    requires SameButDependencies(a, b)
    ensures SameButDependencies(Rounds(a, k, env.external), Rounds(b, k, env.external))
    ensures Rounds(a, k, env.external).stepResults == Rounds(b, k, env.external).stepResults
    ensures FinalizeAnswer(Rounds(a, k, env.external), env).finalAnswer == FinalizeAnswer(Rounds(b, k, env.external), env).finalAnswer
  {
    if k > 0 {
      DependenciesNeverConsulted(a, b, k - 1, env);
      RoundIgnoresDependencies(Rounds(a, k - 1, env.external), Rounds(b, k - 1, env.external), env.external);
    }
    var ra, rb := Rounds(a, k, env.external), Rounds(b, k, env.external);
    assert ra.stepResults == ra.(problemSteps := []).stepResults;
    assert rb.stepResults == rb.(problemSteps := []).stepResults;
    assert ra.userPrompt == ra.(problemSteps := []).userPrompt;
    assert rb.userPrompt == rb.(problemSteps := []).userPrompt;
  }

  /**
   * `run` always ends complete, with one result per planned step: the results list the
   * indices 0..n-1 in order, each step is completed and holds its result.
   */
  lemma RunSolvesEveryStep(userPrompt: string, env: Env)
    ensures var r := Outcome(userPrompt, env);
      var planned := PlannedSteps(userPrompt, env.llm);
      && r.complete
      && |r.problemSteps| == |planned| && |r.stepResults| == |planned|
      && forall j :: 0 <= j < |planned| ==>
        && r.stepResults[j].stepIndex == j
        && r.stepResults[j].description == planned[j].description
        && r.problemSteps[j].completed
        && r.problemSteps[j].result == Some(r.stepResults[j].result)
  {
    var start := CreateProblemSteps(InitialState(userPrompt), env.llm);
    RoundsSolveInOrder(start, |start.problemSteps|, env.external);
  }

  /** The basic solver made for a step that needs only it reports what it was asked. */
  lemma BasicSolverSolution(task: string, external: (nat, string) -> Result<string>)
    ensures Solution(FreshStep(task, [BasicSolver], []), map[BasicSolver := Basic(BasicSolver, task)], external)
      == SolvedPrefix + (BasicSolver + ": " + ("Tool " + BasicSolver + " processed: " + task + " for step: " + task))
  {
    var tools := map[BasicSolver := Basic(BasicSolver, task)];
    var report := Report(BasicSolver, Invoke(tools[BasicSolver], task, external));
    assert [BasicSolver][..0] == [];
    assert Reports([BasicSolver], tools, task, external) == [report];
  }

  /** Without a model the first round starts by making the basic solver, and no other tool. */
  lemma NoModelTools(userPrompt: string)
    ensures var start := CreateProblemSteps(InitialState(userPrompt), None);
      Prepared(start).available == map[BasicSolver := Basic(BasicSolver, NoModelTask + userPrompt)]
  {
    var task := NoModelTask + userPrompt;
    var start := CreateProblemSteps(InitialState(userPrompt), None);
    assert start.problemSteps == [FreshStep(task, [BasicSolver], [])] && start.index == 0 && start.available == map[];
    ToolExistsRoutes(start);
    assert BasicSolver in start.problemSteps[0].requiredTools;
    assert ToolExistsCondition(start) == AtMakeTool;
    assert Prepared(start) == MakeToolState(start);
    assert [BasicSolver][..0] == [];
    assert AddMissing(map[], [BasicSolver], task) == map[BasicSolver := Basic(BasicSolver, task)];
  }

  /** The fallback answer for a single result names one step and that result. */
  lemma FallbackForOne(userPrompt: string, results: seq<StepOutcome>, repr: seq<string> -> string)
    requires |results| == 1
    ensures FallbackAnswer(userPrompt, results, repr) == "Solved '" + userPrompt + "' through 1 steps. Results: " + repr([results[0].result])
  {
    assert DecimalString(1) == "1";
    assert seq(1, i requires 0 <= i < 1 => results[i].result) == [results[0].result];
  }

  /** Without a model the one round solves the single planned step with the basic solver. */
  lemma NoModelRound(userPrompt: string, external: (nat, string) -> Result<string>)
    ensures var start := CreateProblemSteps(InitialState(userPrompt), None);
      var task := NoModelTask + userPrompt;
      && |start.problemSteps| == 1
      && Rounds(start, 1, external).stepResults == [StepOutcome(0, task,
           SolvedPrefix + (BasicSolver + ": " + ("Tool " + BasicSolver + " processed: " + task + " for step: " + task)))]
  {
    var task := NoModelTask + userPrompt;
    var start := CreateProblemSteps(InitialState(userPrompt), None);
    assert start.problemSteps == [FreshStep(task, [BasicSolver], [])];
    NoModelTools(userPrompt);
    BasicSolverSolution(task, external);
    RoundBody(start, external);
    assert Rounds(start, 0, external) == start;
  }

  /** Without a model the run solves its single step with the basic solver it creates. */
  lemma NoModelRun(userPrompt: string, env: Env)
    requires env.llm == None
    ensures var task := NoModelTask + userPrompt;
      var text := SolvedPrefix + (BasicSolver + ": " + ("Tool " + BasicSolver + " processed: " + task + " for step: " + task));
      && Outcome(userPrompt, env).stepResults == [StepOutcome(0, task, text)]
      && Outcome(userPrompt, env).finalAnswer == "Solved '" + userPrompt + "' through 1 steps. Results: " + env.repr([text])
  {
    var start := CreateProblemSteps(InitialState(userPrompt), None);
    NoModelRound(userPrompt, env.external);
    FallbackForOne(userPrompt, Rounds(start, 1, env.external).stepResults, env.repr);
  }

  /**
   * Where the walk stands: at `node`, after `k` whole rounds from `start`, holding `s`.
   * `check_tool_exists` and `test_tool` leave the state alone, and the walk goes through
   * `make_tool` only when `tool_exists_condition` asks for it.
   */
  ghost predicate Position(start: State, env: Env, k: nat, node: Node, s: State) {
    var n := |start.problemSteps|;
    var done := Rounds(start, k, env.external);
    && start.index == 0 && k <= n
    && match node
      case AtCheckToolExists => s == done && (k < n || n == 0)
      case AtMakeTool => s == done && k < n && ToolExistsCondition(done) == AtMakeTool
      case AtTestTool => s == MakeToolState(done) && k < n && ToolExistsCondition(done) == AtMakeTool
      case AtSolveStep => s == Prepared(done) && (k < n || n == 0)
      case AtFinalizeAnswer => s == Rounds(start, n, env.external)
      case AtGiveUserAnswer => s == FinalizeAnswer(Rounds(start, n, env.external), env)
      case AtEnd => s == FinalizeAnswer(Rounds(start, n, env.external), env)
  }

  /** What is left of the walk: the rounds still to run and the nodes left in the current one. */
  function Remaining(start: State, k: nat, node: Node): int {
    7 * (|start.problemSteps| - k) + Rank(node)
  }

  /** `check_tool_exists` and its conditional edge. */
  method FromCheckToolExists(ghost start: State, env: Env, ghost k: nat, s: State)
    returns (ghost k': nat, node': Node, s': State)
    requires Position(start, env, k, AtCheckToolExists, s)
    ensures Position(start, env, k', node', s')
    ensures 0 <= Remaining(start, k', node') < Remaining(start, k, AtCheckToolExists)
  {
    RoundsIndex(start, k, env.external);
    k' := k;
    s' := s;
    node' := ToolExistsCondition(s);
  }

  /** `make_tool` and its edge to `test_tool`. */
  method FromMakeTool(ghost start: State, env: Env, ghost k: nat, s: State)
    returns (ghost k': nat, node': Node, s': State)
    requires Position(start, env, k, AtMakeTool, s)
    ensures Position(start, env, k', node', s')
    ensures 0 <= Remaining(start, k', node') < Remaining(start, k, AtMakeTool)
    ensures node' == AtTestTool
  {
    RoundsIndex(start, k, env.external);
    k' := k;
    s' := MakeTool(s);
    node' := AtTestTool;
  }

  /** `test_tool` and its conditional edge. */
  method FromTestTool(ghost start: State, env: Env, ghost k: nat, s: State)
    returns (ghost k': nat, node': Node, s': State)
    requires Position(start, env, k, AtTestTool, s)
    ensures Position(start, env, k', node', s')
    ensures 0 <= Remaining(start, k', node') < Remaining(start, k, AtTestTool)
    ensures node' == AtSolveStep && s' == s && k' == k
  {
    RoundsIndex(start, k, env.external);
    k' := k;
    s' := s;
    var results := TestTool(s, env.external);
    node' := ToolWorksCondition(s);
  }

  /** `solve_step` and its conditional edge. */
  method FromSolveStep(ghost start: State, env: Env, ghost k: nat, s: State)
    returns (ghost k': nat, node': Node, s': State)
    requires Position(start, env, k, AtSolveStep, s)
    ensures Position(start, env, k', node', s')
    ensures 0 <= Remaining(start, k', node') < Remaining(start, k, AtSolveStep)
    ensures node' == AtCheckToolExists || node' == AtFinalizeAnswer
  {
    s' := SolveStep(s, env.external);
    if k < |start.problemSteps| {
      k' := k + 1;
      assert s' == Rounds(start, k', env.external);
    } else {
      k' := k;
      RoundPastEnd(start, env.external);
      assert s' == Rounds(start, k', env.external);
    }
    node' := NextStepCondition(s');
    AfterRound(start, env, k');
  }

  /** `finalize_answer` and its edge to `give_user_answer`. */
  method FromFinalizeAnswer(ghost start: State, env: Env, ghost k: nat, s: State)
    returns (ghost k': nat, node': Node, s': State)
    requires Position(start, env, k, AtFinalizeAnswer, s)
    ensures Position(start, env, k', node', s')
    ensures 0 <= Remaining(start, k', node') < Remaining(start, k, AtFinalizeAnswer)
    ensures node' == AtGiveUserAnswer
  {
    RoundsIndex(start, k, env.external);
    k' := k;
    s' := FinalizeAnswer(s, env);
    node' := AtGiveUserAnswer;
  }

  /** `give_user_answer` and its edge to the end. */
  method FromGiveUserAnswer(ghost start: State, env: Env, ghost k: nat, s: State)
    returns (ghost k': nat, node': Node, s': State)
    requires Position(start, env, k, AtGiveUserAnswer, s)
    ensures Position(start, env, k', node', s')
    ensures 0 <= Remaining(start, k', node') < Remaining(start, k, AtGiveUserAnswer)
    ensures node' == AtEnd
  {
    RoundsIndex(start, k, env.external);
    k' := k;
    s' := s;
    node' := AtEnd;
  }

  /** After `k` rounds the walk is back at `check_tool_exists`, or at `finalize_answer` once all steps are solved. */
  lemma AfterRound(start: State, env: Env, k: nat)
    requires start.index == 0 && k <= |start.problemSteps|
    ensures var s := Rounds(start, k, env.external);
      && Position(start, env, k, NextStepCondition(s), s)
      && (NextStepCondition(s) == AtFinalizeAnswer ==> k == |start.problemSteps|)
  {
    RoundsIndex(start, k, env.external);
  }

  /** One edge of the compiled graph: runs the node and follows its outgoing edge. */
  method Advance(ghost start: State, env: Env, ghost k: nat, node: Node, s: State)
    returns (ghost k': nat, node': Node, s': State)
    requires node != AtEnd && Position(start, env, k, node, s)
    ensures Position(start, env, k', node', s')
    ensures 0 <= Remaining(start, k', node') < Remaining(start, k, node)
    ensures node == AtTestTool ==> node' == AtSolveStep && s' == s
    ensures node' == AtMakeTool ==> node == AtCheckToolExists
  {
    match node
    case AtCheckToolExists => k', node', s' := FromCheckToolExists(start, env, k, s);
    case AtMakeTool => k', node', s' := FromMakeTool(start, env, k, s);
    case AtTestTool => k', node', s' := FromTestTool(start, env, k, s);
    case AtSolveStep => k', node', s' := FromSolveStep(start, env, k, s);
    case AtFinalizeAnswer => k', node', s' := FromFinalizeAnswer(start, env, k, s);
    case AtGiveUserAnswer => k', node', s' := FromGiveUserAnswer(start, env, k, s);
  }

  /**
   * `run`: walks the compiled graph from `create_problem_steps` to the end. Every round
   * solves one step, so the walk ends after one round per step.
   */
  method Run(userPrompt: string, env: Env) returns (res: RunResult)
    ensures res == Summary(Outcome(userPrompt, env))
  {
    var s := CreateProblemSteps(InitialState(userPrompt), env.llm);
    ghost var start := s;
    ghost var k: nat := 0;
    var node := AtCheckToolExists;
    while node != AtEnd
      invariant Position(start, env, k, node, s)
      decreases Remaining(start, k, node)
    {
      k, node, s := Advance(start, env, k, node, s);
    }
    return Summary(s);
  }
}
