/**
 * The effectful half of the planner: synthesising a tool (generate, validate, name,
 * test, import, register, broadcast), executing plan steps, and the plan-and-execute
 * loop. The language models, `compile`, `exec`, the pytest run and calls of tool
 * functions are oracles collected in `Collaborators`.
 */
module Pipeline {
  import opened Wrappers
  import opened Strings
  import opened Registry
  import opened Database
  import opened Subscriber
  import opened Codegen
  import opened Planner

  /** A Python value handed back by a plan step. */
  datatype Value =
    | Absent               // None
    | Text(s: string)
    | Flag(b: bool)
    | Opaque(id: nat)      // whatever else a tool function returns

  /** How `subprocess.run(["pytest", ...], timeout=12)` ends. */
  datatype PytestRun = Finished(returncode: int, stdout: string, stderr: string) | TimedOut

  /**
   * The outside world. `Err` stands for a raised exception.
   * - `generate`: the code model, on the request, the existing (name, description) pairs and the name hint;
   * - `compile`: Python's compiler;
   * - `testgen`: the test model, on the function name and its code;
   * - `pytest`: the run on the contents of `tool.py` and `test_tool.py`;
   * - `exec`: executing code in a fresh namespace;
   * - `invoke`: calling a tool function on a string;
   * - `ask`, `parse`: the analysis model on the request and the tools text, and `json.loads`.
   */
  datatype Collaborators = Collaborators(
    generate: (string, seq<(string, string)>, Option<string>) -> Result<string>,
    compile: string -> Compilation,
    testgen: (string, string) -> Result<string>,
    pytest: (string, string) -> Result<PytestRun>,
    exec: string -> ExecOutcome,
    invoke: (Callable, string) -> Result<Value>,
    ask: (string, string) -> Result<string>,
    parse: string -> Result<Analysis>)

  // ---------------------------------------------------------------------------
  // run_property_test
  // ---------------------------------------------------------------------------

  /** `tool.py` and `test_tool.py` as the sandbox writes them. */
  function ToolFile(code: string): string { code + "\n" }

  function TestFile(test: string): string { "from tool import *\n\n" + test + "\n" }

  /** `run_property_test`: `(returncode == 0, stdout + "\n" + stderr)`, or a failure on timeout. */
  function RunPropertyTest(code: string, test: string, pytest: (string, string) -> Result<PytestRun>): (r: Result<(bool, string)>)
    ensures pytest(ToolFile(code), TestFile(test)).Err? <==> r.Err?
    ensures r.Ok? && r.value.0 <==>
      pytest(ToolFile(code), TestFile(test)).Ok? && pytest(ToolFile(code), TestFile(test)).value.Finished?
      && pytest(ToolFile(code), TestFile(test)).value.returncode == 0
  {
    match pytest(ToolFile(code), TestFile(test))
    case Err(e) => Err(e)
    case Ok(Finished(rc, out, err)) => Ok((rc == 0, out + "\n" + err))
    case Ok(TimedOut) => Ok((false, "pytest timed out"))
  }

  /** A run that times out fails with the fixed message. */
  lemma TimeoutFails(code: string, test: string, pytest: (string, string) -> Result<PytestRun>)
    requires pytest(ToolFile(code), TestFile(test)) == Ok(TimedOut)
    ensures RunPropertyTest(code, test, pytest) == Ok((false, "pytest timed out"))
  {
  }

  // ---------------------------------------------------------------------------
  // create_and_register_new_tool
  // ---------------------------------------------------------------------------

  /** The stage at which a synthesis gives up. */
  datatype Stage = Generation | Validation | Extraction | TestGeneration | Testing | Import | Registration

  /** How a synthesis ends: a stage that failed, or the tool to register and broadcast. */
  datatype Synthesis =
    | Failed(stage: Stage)
    | Succeeded(name: string, func: Callable, code: string, description: string)

  /** `suggested_name if suggested_name else None`. */
  function Hint(suggested: string): Option<string> {
    if suggested == "" then None else Some(suggested)
  }

  /** `func.__doc__ or tool_description`. */
  function BroadcastDescription(f: Callable, fallback: string): string {
    if f.doc.Some? && f.doc.value != "" then f.doc.value else fallback
  }

  /** The test code as `generate_property_test` returns it. */
  function CleanTest(raw: string): string {
    Strip(Dedent(raw))
  }

  /** The generated property test exists and pytest passes it on the code. */
  predicate TestsPass(name: string, code: string, c: Collaborators) {
    && c.testgen(name, code).Ok?
    && var run := RunPropertyTest(code, CleanTest(c.testgen(name, code).value), c.pytest);
    && run.Ok? && run.value.0
  }

  /**
   * The stages of `create_and_register_new_tool` up to registration, given the existing
   * (name, description) pairs: generation, then the stages on the cleaned code. Each raise
   * or negative answer ends the attempt.
   */
  function Synthesize(description: string, suggested: string, existing: seq<(string, string)>, c: Collaborators): (r: Synthesis)
    ensures r.Succeeded? ==> Wrappable(r.func)
  {
    match c.generate(description, existing, Hint(suggested))
    case Err(_) => Failed(Generation)
    case Ok(raw) => FromCode(CleanGeneratedCode(raw), description, c)
  }

  /** Validation and name extraction on the cleaned code `code`. */
  function FromCode(code: string, description: string, c: Collaborators): (r: Synthesis)
    ensures r.Succeeded? ==> Wrappable(r.func)
  {
    if !ValidateGeneratedCode(code, c.compile).valid then Failed(Validation)
    else
      match ExtractFunctionName(code)
      case Err(_) => Failed(Extraction)
      case Ok(name) => FromName(name, code, description, c)
  }

  /** The property test of the function `name`, then the import. */
  function FromName(name: string, code: string, description: string, c: Collaborators): (r: Synthesis)
    ensures r.Succeeded? ==> Wrappable(r.func)
  {
    if !TestsPass(name, code, c) then
      if c.testgen(name, code).Err? then Failed(TestGeneration) else Failed(Testing)
    else ImportTool(name, code, description, c.exec)
  }

  /** `exec(func_code, ns)`, `ns.get(func_name)`, then `tool(func)` inside `register_tool`, which raises without a docstring. */
  function ImportTool(name: string, code: string, description: string, exec: string -> ExecOutcome): (r: Synthesis)
    ensures r.Succeeded? ==> Wrappable(r.func)
  {
    match exec(code)
    case Raised(_) => Failed(Import)
    case Namespace(ns) =>
      if name !in ns then Failed(Import)
      else if !Wrappable(ns[name]) then Failed(Registration)
      else Succeeded(name, ns[name], code, BroadcastDescription(ns[name], description))
  }

  /**
   * What a successful synthesis has established: the code is the cleaned answer of the
   * code model and passes the validator, its first definition names the tool, the
   * property test passes, `exec` binds that name to the registered function, and that
   * function has the docstring `tool` needs.
   */
  lemma SynthesisSound(description: string, suggested: string, existing: seq<(string, string)>, c: Collaborators)
    requires Synthesize(description, suggested, existing, c).Succeeded?
    ensures var r := Synthesize(description, suggested, existing, c);
      && c.generate(description, existing, Hint(suggested)).Ok?
      && r.code == CleanGeneratedCode(c.generate(description, existing, Hint(suggested)).value)
      && Trimmed(r.code)
      && ValidateGeneratedCode(r.code, c.compile).valid
      && ExtractFunctionName(r.code) == Ok(r.name) && IsIdentifier(r.name)
      && TestsPass(r.name, r.code, c)
      && c.exec(r.code).Namespace? && r.name in c.exec(r.code).bindings && r.func == c.exec(r.code).bindings[r.name]
      && Wrappable(r.func)
      && r.description == BroadcastDescription(r.func, description)
  {
    var code := CleanGeneratedCode(c.generate(description, existing, Hint(suggested)).value);
    assert Synthesize(description, suggested, existing, c) == FromCode(code, description, c);
    FromCodeSound(code, description, c);
  }

  lemma FromCodeSound(code: string, description: string, c: Collaborators)
    requires FromCode(code, description, c).Succeeded?
    ensures var r := FromCode(code, description, c);
      && r.code == code && ValidateGeneratedCode(code, c.compile).valid
      && ExtractFunctionName(code) == Ok(r.name) && IsIdentifier(r.name)
      && TestsPass(r.name, code, c)
      && c.exec(code).Namespace? && r.name in c.exec(code).bindings && r.func == c.exec(code).bindings[r.name]
      && Wrappable(r.func)
      && r.description == BroadcastDescription(r.func, description)
  {
    var name := ExtractFunctionName(code).value;
    assert FromCode(code, description, c) == FromName(name, code, description, c);
    assert TestsPass(name, code, c);
    assert FromName(name, code, description, c) == ImportTool(name, code, description, c.exec);
    ImportSound(name, code, description, c.exec);
  }

  /** A successful import carries the name, the code and the function `exec` bound to the name. */
  lemma ImportSound(name: string, code: string, description: string, exec: string -> ExecOutcome)
    requires ImportTool(name, code, description, exec).Succeeded?
    ensures var r := ImportTool(name, code, description, exec);
      && r.name == name && r.code == code
      && exec(code).Namespace? && name in exec(code).bindings && r.func == exec(code).bindings[name]
      && Wrappable(r.func)
      && r.description == BroadcastDescription(r.func, description)
  {
  }

  /**
   * Code the validator rejects ends the attempt at validation: neither the test model,
   * nor the sandbox, nor `exec` has any say.
   */
  lemma ValidationGate(description: string, suggested: string, existing: seq<(string, string)>, c: Collaborators,
                       testgen: (string, string) -> Result<string>, pytest: (string, string) -> Result<PytestRun>,
                       exec: string -> ExecOutcome)
    requires c.generate(description, existing, Hint(suggested)).Ok?
    requires !ValidateGeneratedCode(CleanGeneratedCode(c.generate(description, existing, Hint(suggested)).value), c.compile).valid
    ensures Synthesize(description, suggested, existing, c) == Failed(Validation)
    ensures Synthesize(description, suggested, existing, c.(testgen := testgen, pytest := pytest, exec := exec)) == Failed(Validation)
  {
  }

  /** A failing property test ends the attempt before `exec` is consulted. */
  lemma TestsGate(name: string, code: string, description: string, c: Collaborators, exec: string -> ExecOutcome)
    requires !TestsPass(name, code, c)
    ensures FromName(name, code, description, c).Failed?
    ensures FromName(name, code, description, c.(exec := exec)) == FromName(name, code, description, c)
  {
    assert TestsPass(name, code, c.(exec := exec)) == TestsPass(name, code, c);
  }

  /**
   * The suggested name only reaches the code model, as a hint: the tool is named after
   * the function the code defines.
   */
  lemma SuggestionIsOnlyAHint(description: string, s1: string, s2: string, existing: seq<(string, string)>, c: Collaborators)
    requires c.generate(description, existing, Hint(s1)) == c.generate(description, existing, Hint(s2))
    ensures Synthesize(description, s1, existing, c) == Synthesize(description, s2, existing, c)
  {
  }

  /** The registry contents after a synthesis: the new tool under its extracted name, or nothing changed. */
  function Installed(t: Table, s: Synthesis): Table
    requires s.Succeeded? ==> Wrappable(s.func)
  {
    if s.Succeeded? then Put(t, s.name, Wrap(s.func)) else t
  }

  /** What the planner's steps can change (the bus cursors stay as they are): the registry, its file, the bus's log and next id. */
  datatype World = World(table: Table, file: SnapshotFile, log: seq<Event>, nextId: int)

  function Observe(reg: ToolRegistry, bus: ReplicationBus): World
    reads reg, bus
  {
    World(reg.Contents(), reg.file, bus.log, bus.nextId)
  }

  /**
   * The world after a synthesis. A failure changes nothing. A success registers the tool,
   * rewrites the snapshot when the file can be written, and publishes one event with the
   * next id when the bus can be reached.
   */
  function AfterSynthesis(w: World, s: Synthesis, writable: bool, reachable: bool): (r: World)
    requires WellFormed(w.table) && (s.Succeeded? ==> Wrappable(s.func))
    ensures WellFormed(r.table)
  {
    if s.Failed? then w
    else
      PutWellFormed(w.table, s.name, Wrap(s.func));
      var t := Installed(w.table, s);
      World(t,
            if writable then Written(Snapshot(t)) else w.file,
            if reachable then w.log + [Event(w.nextId, s.name, Some(s.description), s.code)] else w.log,
            if reachable then w.nextId + 1 else w.nextId)
  }

  /**
   * `create_and_register_new_tool`. On failure nothing is registered and nothing is
   * broadcast; on success the tool is registered under the extracted name and broadcast
   * exactly once (when the bus can be reached; a failed publish is swallowed).
   */
  method CreateAndRegisterNewTool(reg: ToolRegistry, bus: ReplicationBus, description: string, suggested: string,
                                  c: Collaborators, writable: bool, reachable: bool) returns (ok: bool)
    requires reg.Valid() && bus.Valid()
    modifies reg, bus
    ensures reg.Valid() && bus.Valid()
    ensures ok == Synthesize(description, suggested, old(Snapshot(reg.Contents())), c).Succeeded?
    ensures reg.Contents() == Installed(old(reg.Contents()), Synthesize(description, suggested, old(Snapshot(reg.Contents())), c))
    ensures !ok ==> unchanged(reg, bus)
    ensures ok ==>
      var s := Synthesize(description, suggested, old(Snapshot(reg.Contents())), c);
      && reg.file == (if writable then Written(Snapshot(reg.Contents())) else old(reg.file))
      && bus.cursors == old(bus.cursors)
      && (reachable ==> bus.log == old(bus.log) + [Event(old(bus.nextId), s.name, Some(s.description), s.code)])
      && (!reachable ==> unchanged(bus))
    ensures Observe(reg, bus) ==
      AfterSynthesis(old(Observe(reg, bus)), Synthesize(description, suggested, old(Snapshot(reg.Contents())), c), writable, reachable)
    ensures bus.cursors == old(bus.cursors)
  {
    var s := Synthesize(description, suggested, Snapshot(reg.Contents()), c);
    if s.Failed? {
      return false;
    }
    ok := RegisterAndBroadcast(reg, bus, s, writable, reachable);
  }

  /** The end of a successful synthesis: `register_tool`, then `broadcast_tool`. */
  method RegisterAndBroadcast(reg: ToolRegistry, bus: ReplicationBus, s: Synthesis, writable: bool, reachable: bool)
    returns (ok: bool)
    requires reg.Valid() && bus.Valid() && s.Succeeded? && Wrappable(s.func)
    modifies reg, bus
    ensures reg.Valid() && bus.Valid() && ok
    ensures Observe(reg, bus) == AfterSynthesis(old(Observe(reg, bus)), s, writable, reachable)
    ensures bus.cursors == old(bus.cursors)
    ensures !reachable ==> unchanged(bus)
  {
    ok := reg.RegisterTool(s.name, s.func, s.description, writable);
    if reachable {
      bus.PublishToolUpdate(s.name, s.description, s.code);
    }
  }

  // ---------------------------------------------------------------------------
  // execute_plan_step
  // ---------------------------------------------------------------------------

  /** `step.get(key)`: the string, or None. */
  function OptionalText(s: Option<string>): Value {
    if s.Some? then Text(s.value) else Absent
  }

  /**
   * `execute_plan_step` for every action but `create_new_tool`: a registered tool is
   * called on the instruction, and a raise becomes the string "Error: ...".
   */
  function StepResult(t: Table, step: Step, c: Collaborators): Value
    requires !step.CreateNewTool?
  {
    match step
    case UseTool(tool, instruction, _) =>
      if tool.Some? && tool.value in t.tools then
        match c.invoke(t.tools[tool.value].func, instruction.GetOr(""))
        case Ok(v) => v
        case Err(e) => Text("Error: " + e)
      else Absent
    case RequestClarification(message, _) => OptionalText(message)
    case ComplexWorkflow(description, _, _) => OptionalText(description)
    case OtherAction(_) => Absent
  }

  /** A `use_tool` step naming no registered tool gives None; a registered one gives what its function returns. */
  lemma UseToolResult(t: Table, name: Option<string>, instruction: Option<string>, reasoning: string, c: Collaborators)
    ensures name.None? || name.value !in t.tools ==> StepResult(t, UseTool(name, instruction, reasoning), c) == Absent
    ensures name.Some? && name.value in t.tools ==>
      var called := c.invoke(t.tools[name.value].func, instruction.GetOr(""));
      StepResult(t, UseTool(name, instruction, reasoning), c) == if called.Ok? then called.value else Text("Error: " + called.error)
  {
  }

  /** `execute_plan_step`: only a `create_new_tool` step changes anything. */
  method ExecutePlanStep(reg: ToolRegistry, bus: ReplicationBus, step: Step, c: Collaborators, writable: bool, reachable: bool)
    returns (result: Value)
    requires reg.Valid() && bus.Valid()
    modifies reg, bus
    ensures reg.Valid() && bus.Valid()
    ensures !step.CreateNewTool? ==> result == StepResult(old(reg.Contents()), step, c) && unchanged(reg, bus)
    ensures step.CreateNewTool? ==>
      var s := Synthesize(step.description.GetOr(""), step.toolName.GetOr(""), old(Snapshot(reg.Contents())), c);
      && result == Flag(s.Succeeded?) && reg.Contents() == Installed(old(reg.Contents()), s)
      && Observe(reg, bus) == AfterSynthesis(old(Observe(reg, bus)), s, writable, reachable)
    ensures bus.cursors == old(bus.cursors)
  {
    if step.CreateNewTool? {
      var ok := CreateAndRegisterNewTool(reg, bus, step.description.GetOr(""), step.toolName.GetOr(""), c, writable, reachable);
      result := Flag(ok);
    } else {
      result := StepResult(reg.Contents(), step, c);
    }
  }

  // ---------------------------------------------------------------------------
  // intelligent_plan_and_execute
  // ---------------------------------------------------------------------------

  /** The analysis of a request against a registry, as `analyze_user_request` does it. */
  function Analyze(instruction: string, t: Table, c: Collaborators): Analysis
    requires WellFormed(t)
  {
    AnalyzeUserRequest(instruction, ToolsDescription(t), c.ask, c.parse)
  }

  /** The plan executed for a request. */
  function PlanFor(instruction: string, t: Table, c: Collaborators): seq<Step>
    requires WellFormed(t)
  {
    ExecutionPlan(instruction, Analyze(instruction, t, c), t)
  }

  /** The results of the `use_tool` steps of a plan; the other steps are skipped. */
  function UseToolResults(t: Table, plan: seq<Step>, c: Collaborators): seq<Value> {
    if plan == [] then []
    else
      var last := plan[|plan| - 1];
      UseToolResults(t, plan[..|plan| - 1], c) + (if last.UseTool? then [StepResult(t, last, c)] else [])
  }

  /**
   * What follows a successful creation: a fresh analysis against the grown registry and,
   * when it finds the tools sufficient, the results of the `use_tool` steps of its plan.
   */
  function Reanalysis(instruction: string, t: Table, c: Collaborators): seq<Value>
    requires WellFormed(t)
  {
    var again := Analyze(instruction, t, c);
    if again.existingToolsSufficient then UseToolResults(t, ExecutionPlan(instruction, again, t), c) else []
  }

  /**
   * One step of the loop: the world before and after it, and the results it appends.
   * Steps other than `create_new_tool` append their one result and change nothing; a
   * creation changes the world as the synthesis says and appends its boolean, then the
   * re-analysis results when it succeeded.
   */
  ghost predicate StepSpec(instruction: string, step: Step, before: World, after: World, chunk: seq<Value>,
                           c: Collaborators, writable: bool, reachable: bool)
    requires WellFormed(before.table)
  {
    if step.CreateNewTool? then
      var s := Synthesize(step.description.GetOr(""), step.toolName.GetOr(""), Snapshot(before.table), c);
      && after == AfterSynthesis(before, s, writable, reachable)
      && chunk == [Flag(s.Succeeded?)] + (if s.Succeeded? then Reanalysis(instruction, after.table, c) else [])
    else
      after == before && chunk == [StepResult(before.table, step, c)]
  }

  /** The chunks concatenated. */
  function Flatten<T>(chunks: seq<seq<T>>): seq<T> {
    if chunks == [] then [] else Flatten(chunks[..|chunks| - 1]) + chunks[|chunks| - 1]
  }

  /**
   * The whole run: each step of the plan from the world left by the steps before it;
   * `worlds` holds the world before the first step and after each one.
   */
  ghost predicate RunSpec(instruction: string, plan: seq<Step>, worlds: seq<World>, chunks: seq<seq<Value>>,
                          c: Collaborators, writable: bool, reachable: bool)
    decreases |plan|
  {
    && |worlds| == |plan| + 1
    && |chunks| == |plan|
    && WellFormed(worlds[0].table)
    && (plan != [] ==>
         var n := |plan| - 1;
         && RunSpec(instruction, plan[..n], worlds[..n + 1], chunks[..n], c, writable, reachable)
         && WellFormed(worlds[n].table)
         && StepSpec(instruction, plan[n], worlds[n], worlds[n + 1], chunks[n], c, writable, reachable))
  }

  /** A step spec leaves a well-formed registry. */
  lemma StepSpecWellFormed(instruction: string, step: Step, before: World, after: World, chunk: seq<Value>,
                           c: Collaborators, writable: bool, reachable: bool)
    requires WellFormed(before.table) && StepSpec(instruction, step, before, after, chunk, c, writable, reachable)
    ensures WellFormed(after.table)
  {
  }

  /** A run of the first `i` steps followed by step `i` is a run of the first `i + 1`. */
  lemma RunSpecExtend(instruction: string, plan: seq<Step>, i: nat, worlds: seq<World>, chunks: seq<seq<Value>>,
                      after: World, chunk: seq<Value>, c: Collaborators, writable: bool, reachable: bool)
    requires i < |plan| && RunSpec(instruction, plan[..i], worlds, chunks, c, writable, reachable) && WellFormed(worlds[i].table)
    requires StepSpec(instruction, plan[i], worlds[i], after, chunk, c, writable, reachable)
    ensures RunSpec(instruction, plan[..i + 1], worlds + [after], chunks + [chunk], c, writable, reachable)
  {
    var worlds', chunks' := worlds + [after], chunks + [chunk];
    assert plan[..i + 1][..i] == plan[..i] && worlds'[..i + 1] == worlds && chunks'[..i] == chunks;
  }

  /** A plan has at most one `use_tool` result per step. */
  lemma {:induction false} UseToolResultsSize(t: Table, plan: seq<Step>, c: Collaborators)
    ensures |UseToolResults(t, plan, c)| <= |plan|
  {
    if plan != [] {
      UseToolResultsSize(t, plan[..|plan| - 1], c);
    }
  }

  /**
   * Without a `create_new_tool` step nothing changes (registry, file and bus alike) and
   * there is exactly one result per step, in plan order, each computed against the
   * initial registry.
   */
  lemma {:induction false} RunWithoutCreation(instruction: string, plan: seq<Step>, worlds: seq<World>, chunks: seq<seq<Value>>,
                                              c: Collaborators, writable: bool, reachable: bool)
    requires RunSpec(instruction, plan, worlds, chunks, c, writable, reachable)
    requires forall k :: 0 <= k < |plan| ==> !plan[k].CreateNewTool?
    ensures worlds[|plan|] == worlds[0]
    ensures |Flatten(chunks)| == |plan|
    ensures forall k :: 0 <= k < |plan| ==> Flatten(chunks)[k] == StepResult(worlds[0].table, plan[k], c)
  {
    if plan != [] {
      var n := |plan| - 1;
      RunWithoutCreation(instruction, plan[..n], worlds[..n + 1], chunks[..n], c, writable, reachable);
      assert chunks[..n] == chunks[..|chunks| - 1];
      forall k | 0 <= k < n ensures Flatten(chunks)[k] == StepResult(worlds[0].table, plan[k], c) {
        assert plan[..n][k] == plan[k];
      }
    }
  }

  /** Every step contributes at least its own result, so there are never fewer results than steps. */
  lemma {:induction false} AtLeastOneResultPerStep(instruction: string, plan: seq<Step>, worlds: seq<World>, chunks: seq<seq<Value>>,
                                                   c: Collaborators, writable: bool, reachable: bool)
    requires RunSpec(instruction, plan, worlds, chunks, c, writable, reachable)
    ensures |Flatten(chunks)| >= |plan|
  {
    if plan != [] {
      var n := |plan| - 1;
      AtLeastOneResultPerStep(instruction, plan[..n], worlds[..n + 1], chunks[..n], c, writable, reachable);
      assert chunks[..n] == chunks[..|chunks| - 1];
    }
  }

  /**
   * The bus log only grows: a run appends to it, one event per successful creation, and
   * never rewrites an earlier event. With the bus out of reach it is left as it was.
   */
  lemma {:induction false} RunOnlyAppends(instruction: string, plan: seq<Step>, worlds: seq<World>, chunks: seq<seq<Value>>,
                                          c: Collaborators, writable: bool, reachable: bool)
    requires RunSpec(instruction, plan, worlds, chunks, c, writable, reachable)
    ensures worlds[0].log <= worlds[|plan|].log
    ensures worlds[|plan|].nextId - worlds[0].nextId == |worlds[|plan|].log| - |worlds[0].log|
    ensures !reachable ==> worlds[|plan|].log == worlds[0].log
  {
    if plan != [] {
      var n := |plan| - 1;
      RunOnlyAppends(instruction, plan[..n], worlds[..n + 1], chunks[..n], c, writable, reachable);
    }
  }

  /**
   * `intelligent_plan_and_execute`: analyse, plan, then execute each step in order,
   * appending its result; after a creation that succeeded, re-analyse and run the
   * `use_tool` steps of the new plan when the tools are now sufficient.
   */
  method IntelligentPlanAndExecute(reg: ToolRegistry, bus: ReplicationBus, instruction: string, c: Collaborators,
                                   writable: bool, reachable: bool)
    returns (results: seq<Value>, ghost worlds: seq<World>, ghost chunks: seq<seq<Value>>)
    requires reg.Valid() && bus.Valid()
    modifies reg, bus
    ensures reg.Valid() && bus.Valid()
    ensures PlanFor(instruction, old(reg.Contents()), c) == [] ==> results == [] && unchanged(reg, bus)
    ensures RunSpec(instruction, PlanFor(instruction, old(reg.Contents()), c), worlds, chunks, c, writable, reachable)
    ensures worlds[0] == old(Observe(reg, bus)) && worlds[|worlds| - 1] == Observe(reg, bus)
    ensures bus.cursors == old(bus.cursors)
    ensures results == Flatten(chunks)
  {
    var analysis := AnalyzeRegistry(reg, instruction, c);
    var plan := CreateExecutionPlan(instruction, analysis, reg);
    if plan == [] {
      return [], [Observe(reg, bus)], [];
    }
    results, worlds, chunks := RunPlan(reg, bus, instruction, plan, c, writable, reachable);
  }

  /** The loop of `intelligent_plan_and_execute` over the steps of a plan, in order. */
  method RunPlan(reg: ToolRegistry, bus: ReplicationBus, instruction: string, plan: seq<Step>, c: Collaborators,
                 writable: bool, reachable: bool)
    returns (results: seq<Value>, ghost worlds: seq<World>, ghost chunks: seq<seq<Value>>)
    requires reg.Valid() && bus.Valid()
    modifies reg, bus
    ensures reg.Valid() && bus.Valid()
    ensures RunSpec(instruction, plan, worlds, chunks, c, writable, reachable)
    ensures worlds[0] == old(Observe(reg, bus)) && worlds[|worlds| - 1] == Observe(reg, bus)
    ensures bus.cursors == old(bus.cursors)
    ensures results == Flatten(chunks)
  {
    ghost var start := Observe(reg, bus);
    results, worlds, chunks := [], [start], [];
    for i := 0 to |plan|
      invariant reg.Valid() && bus.Valid()
      invariant RunSpec(instruction, plan[..i], worlds, chunks, c, writable, reachable)
      invariant worlds[0] == start && worlds[i] == Observe(reg, bus)
      invariant bus.cursors == old(bus.cursors)
      invariant results == Flatten(chunks)
    {
      var chunk := RunStep(reg, bus, instruction, plan[i], c, writable, reachable);
      RunSpecExtend(instruction, plan, i, worlds, chunks, Observe(reg, bus), chunk, c, writable, reachable);
      worlds, chunks := worlds + [Observe(reg, bus)], chunks + [chunk];
      results := results + chunk;
      assert chunks[..|chunks| - 1] == chunks[..i];
    }
    assert plan[..|plan|] == plan;
  }

  /** One iteration of the loop: the step's result, then the re-analysis after a successful creation. */
  method RunStep(reg: ToolRegistry, bus: ReplicationBus, instruction: string, step: Step, c: Collaborators,
                 writable: bool, reachable: bool) returns (chunk: seq<Value>)
    requires reg.Valid() && bus.Valid()
    modifies reg, bus
    ensures reg.Valid() && bus.Valid()
    ensures StepSpec(instruction, step, old(Observe(reg, bus)), Observe(reg, bus), chunk, c, writable, reachable)
    ensures bus.cursors == old(bus.cursors)
  {
    var result := ExecutePlanStep(reg, bus, step, c, writable, reachable);
    chunk := [result];
    if step.CreateNewTool? && result == Flag(true) {
      var extra := Reanalyse(reg, instruction, c);
      chunk := chunk + extra;
    }
  }

  /** The re-analysis after a successful creation, with its inner loop over the new plan. */
  method Reanalyse(reg: ToolRegistry, instruction: string, c: Collaborators) returns (extra: seq<Value>)
    requires reg.Valid()
    ensures extra == Reanalysis(instruction, reg.Contents(), c)
  {
    var again := AnalyzeRegistry(reg, instruction, c);
    extra := [];
    if again.existingToolsSufficient {
      var more := CreateExecutionPlan(instruction, again, reg);
      extra := RunUseToolSteps(reg, more, c);
    }
  }

  /** The inner loop: each `use_tool` step of the new plan is executed, the others skipped. */
  method RunUseToolSteps(reg: ToolRegistry, more: seq<Step>, c: Collaborators) returns (extra: seq<Value>)
    requires reg.Valid()
    ensures extra == UseToolResults(reg.Contents(), more, c)
  {
    extra := [];
    for j := 0 to |more|
      invariant extra == UseToolResults(reg.Contents(), more[..j], c)
    {
      assert more[..j + 1][..j] == more[..j];
      if more[j].UseTool? {
        extra := extra + [StepResult(reg.Contents(), more[j], c)];
      }
    }
    assert more[..|more|] == more;
  }

  /** `analyze_user_request` against the current registry: the tools text, then the model. */
  method AnalyzeRegistry(reg: ToolRegistry, instruction: string, c: Collaborators) returns (a: Analysis)
    requires reg.Valid()
    ensures a == Analyze(instruction, reg.Contents(), c)
  {
    var info := GetAvailableToolsDescription(reg);
    a := AnalyzeUserRequest(instruction, info, c.ask, c.parse);
  }
}
