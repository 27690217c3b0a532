/** The executor agent (neura/agents/executor.py): it walks the plan's steps
    in order, checks each step's dependencies against a result cache it owns,
    lets the language model pick a tool and its parameters, calls the tool,
    and turns the first failure into one error message.

    The behaviour of one `process` call is the function `Execute`, built
    from `RunSteps` (the step loop) and `RunStep` (one iteration); the class
    `ExecutorAgent` does the same work in place and is proved equal to it. */
module Executor {
  import opened Values
  import opened Base

  /** The exceptions the step loop can raise, all caught by `process`. */
  datatype ExecError =
    | PromptField(name: string)            // `format` met a field of the prompt template it cannot fill
    | PlanNotText                          // json.loads given a plan that is not a string
    | PlanNotJson(detail: string)          // json.loads raised on the plan text
    | PlanNotObject                        // the decoded plan has no `.get`
    | StepsNotIterable                     // "steps" is not something a for loop can walk
    | StepWithoutId                        // step["id"] raised KeyError
    | MalformedStep                        // a step that is not a dict with a string id and a list of dependencies
    | MalformedDependency                  // a dependency that is not a string, hence never a cache key
    | DependencyNotSatisfied(dep: string)
    | DecisionCallFailed(detail: string)   // the model call for the step raised
    | DecisionNotJson(detail: string)      // json.loads raised on the decision text
    | MalformedDecision                    // the decision is not a dict, or its tool name is not a string
    | DecisionWithoutTool                  // execution_plan["tool"] raised KeyError
    | ToolNotFound(name: string)
    | ToolFailed(stepId: string, detail: string)

  /** `str(e)` for each error. */
  function ErrorText(e: ExecError): string {
    match e
    case PromptField(name) => KeyErrorText(name)
    case PlanNotText => "the JSON object must be str, bytes or bytearray"
    case PlanNotJson(d) => d
    case PlanNotObject => "object has no attribute 'get'"
    case StepsNotIterable => "object is not iterable"
    case StepWithoutId => "'id'"
    case MalformedStep => "step is not a dict with a string id and iterable dependencies"
    case MalformedDependency => "dependency is not a string step id"
    case DependencyNotSatisfied(d) => "Dependency " + d + " not satisfied"
    case DecisionCallFailed(d) => d
    case DecisionNotJson(d) => d
    case MalformedDecision => "decision is not a dict with a string tool name"
    case DecisionWithoutTool => "'tool'"
    case ToolNotFound(n) => "Tool " + n + " not found"
    case ToolFailed(id, d) => "Error executing step " + id + ": " + d
  }

  /** The single message a failed `process` call appends. */
  function ErrorMessage(e: ExecError): Message {
    AssistantMessage("Error during execution: " + ErrorText(e))
  }

  /** The message appended for each step that succeeds. */
  function SuccessMessage(json: Json, id: string, result: Value): Message {
    AssistantMessage("Executed step " + id + ":\n" + json.dumps(result))
  }

  /** What the per-step prompt carries: the registered tools' descriptions,
      the cached results so far, the step as decoded and the context. */
  datatype ExecutionRequest = ExecutionRequest(
    tools: map<string, string>,
    previous: map<string, Value>,
    step: Value,
    context: map<string, Value>)

  /** The language model behind `llm.invoke`: a reply text or the text of
      the exception it raised. */
  type DecisionOracle = ExecutionRequest -> Result<string, string>

  /** What the executor consults besides its cache: its tool registry, its
      language model, the JSON codec and its prompt template. */
  datatype Oracles = Oracles(tools: map<string, Tool>, llm: DecisionOracle, json: Json, template: Template)

  /** The keyword arguments the execution prompt passes to `format`. */
  const ExecutionKeys: set<string> := {"tools", "previous_results"}

  /** The field name `format` reads from the decision example of the
      execution prompt: a newline, twelve spaces and the quoted key `tool`. */
  const ToolField: string := "\n            \"tool\""

  /** The execution prompt as written: `{tools}`, `{previous_results}`,
      then the decision example whose braces are not doubled. */
  const ExecutionTemplate: Template := Template(["tools", "previous_results", ToolField])

  /** The execution prompt with the example's braces doubled. */
  const EscapedExecutionTemplate: Template := Template(["tools", "previous_results"])

  function Descriptions(tools: map<string, Tool>): map<string, string> {
    map name | name in tools :: tools[name].description
  }

  /** `json.loads(plan)` followed by `plan_data.get("steps", [])`, yielding
      the elements the step loop walks. A non-empty string or dict under
      "steps" yields string elements, so the loop fails at its first element
      before any step runs; that failure is reported here directly. */
  function PlanSteps(plan: Value, json: Json): (r: Result<seq<Value>, ExecError>)
    ensures !plan.Str? ==> r == Failure(PlanNotText)
    ensures r.Success? ==> plan.Str? && json.loads(plan.s).Success? && json.loads(plan.s).value.Dict?
    ensures r.Success? && r.value != [] ==>
      var m := json.loads(plan.s).value.entries;
      "steps" in m && m["steps"] == List(r.value)
  {
    match plan
    case Str(text) =>
      (match json.loads(text)
       case Failure(d) => Failure(PlanNotJson(d))
       case Success(data) =>
        (match data
         case Dict(m) =>
           if "steps" !in m then Success([])
           else
             (match m["steps"]
              case List(items) => Success(items)
              case Str(s) => if s == "" then Success([]) else Failure(MalformedStep)
              case Dict(e) => if e == map[] then Success([]) else Failure(MalformedStep)
              case _ => Failure(StepsNotIterable))
         case _ => Failure(PlanNotObject)))
    case _ => Failure(PlanNotText)
  }

  /** A step as the loop reads it: `step["id"]` and `step.get("dependencies", [])`. */
  datatype Step = Step(id: string, dependencies: seq<Value>)

  /** The elements `for dep in v` visits: a list's items, a string's characters. */
  function DependencyItems(v: Value): Option<seq<Value>> {
    match v
    case List(items) => Some(items)
    case Str(s) => Some(seq(|s|, i requires 0 <= i < |s| => Str([s[i]])))
    case Dict(e) => if e == map[] then Some([]) else None
    case _ => None
  }

  /** `step["id"]` must be a string and the dependencies, when given, must
      be something the loop can walk; a missing "dependencies" key means none. */
  function DecodeStep(v: Value): (r: Result<Step, ExecError>)
    ensures v.Dict? && "id" !in v.entries ==> r == Failure(StepWithoutId)
    ensures r.Success? ==> v.Dict? && "id" in v.entries && v.entries["id"] == Str(r.value.id)
    ensures r.Success? && "dependencies" !in v.entries ==> r.value.dependencies == []
    ensures r.Success? && "dependencies" in v.entries && v.entries["dependencies"].List? ==>
      r.value.dependencies == v.entries["dependencies"].items
  {
    match v
    case Dict(m) =>
      if "id" !in m then Failure(StepWithoutId)
      else if !m["id"].Str? then Failure(MalformedStep)
      else
        (match DependencyItems(if "dependencies" in m then m["dependencies"] else List([]))
         case None => Failure(MalformedStep)
         case Some(deps) => Success(Step(m["id"].s, deps)))
    case _ => Failure(MalformedStep)
  }

  /** `dep in self._step_results`: only a string can be a key of the cache. */
  predicate Satisfied(dep: Value, cache: map<string, Value>) {
    dep.Str? && dep.s in cache
  }

  /** The position of the first dependency that is not a cache key, if any. */
  function FirstMissing(deps: seq<Value>, cache: map<string, Value>): (r: Option<nat>)
    ensures r.None? <==> forall i :: 0 <= i < |deps| ==> Satisfied(deps[i], cache)
    ensures r.Some? ==>
      r.value < |deps| && !Satisfied(deps[r.value], cache) &&
      forall i :: 0 <= i < r.value ==> Satisfied(deps[i], cache)
  {
    if deps == [] then None
    else if !Satisfied(deps[0], cache) then Some(0)
    else
      match FirstMissing(deps[1..], cache)
      case None => None
      case Some(k) => Some(k + 1)
  }

  /** The error raised for the first missing dependency. */
  function DependencyError(dep: Value): ExecError {
    if dep.Str? then DependencyNotSatisfied(dep.s) else MalformedDependency
  }

  /** `_execute_step`: build the prompt, ask the model for a decision,
      decode it, look up the tool the DECISION names (not the step's own
      "tool" field) and call it with the decision's parameters. Building the
      prompt raises when `format` meets a field it cannot fill, before the
      model is asked. Everything after the lookup is inside the source's
      inner `try`, so a missing or non-mapping "parameters" entry and any
      exception from the tool are rewrapped with the step id. */
  function ExecuteStep(o: Oracles, previous: map<string, Value>, step: Value, id: string, context: map<string, Value>)
    : (r: Result<Value, ExecError>)
    ensures var missing := FirstUnfilled(o.template.fields, ExecutionKeys);
      missing.Some? ==> r == Failure(PromptField(o.template.fields[missing.value]))
    ensures r.Success? ==>
      Fills(o.template, ExecutionKeys) && o.llm(ExecutionRequest(Descriptions(o.tools), previous, step, context)).Success?
    ensures r.Failure? && r.error.ToolFailed? ==> r.error.stepId == id
  {
    match FirstUnfilled(o.template.fields, ExecutionKeys)
    case Some(i) => Failure(PromptField(o.template.fields[i]))
    case None =>
    match o.llm(ExecutionRequest(Descriptions(o.tools), previous, step, context))
    case Failure(d) => Failure(DecisionCallFailed(d))
    case Success(text) =>
      match o.json.loads(text)
      case Failure(d) => Failure(DecisionNotJson(d))
      case Success(decision) =>
        if !decision.Dict? then Failure(MalformedDecision)
        else if "tool" !in decision.entries then Failure(DecisionWithoutTool)
        else if !decision.entries["tool"].Str? then Failure(MalformedDecision)
        else
          var name := decision.entries["tool"].s;
          if name !in o.tools then Failure(ToolNotFound(name))
          else if "parameters" !in decision.entries then Failure(ToolFailed(id, "'parameters'"))
          else if !decision.entries["parameters"].Dict? then
            Failure(ToolFailed(id, "argument after ** must be a mapping"))
          else
            match o.tools[name].invoke(decision.entries["parameters"].entries)
            case Failure(d) => Failure(ToolFailed(id, d))
            case Success(result) => Success(result)
  }

  /** One iteration of the step loop: decode the step, check its
      dependencies in order, execute it. */
  function RunStep(o: Oracles, step: Value, cache: map<string, Value>, context: map<string, Value>)
    : (r: Result<(string, Value), ExecError>)
    ensures r.Success? ==>
      DecodeStep(step).Success? && r.value.0 == DecodeStep(step).value.id &&
      FirstMissing(DecodeStep(step).value.dependencies, cache).None?
    ensures DecodeStep(step).Success? ==>
      var deps := DecodeStep(step).value.dependencies;
      FirstMissing(deps, cache).Some? ==> r == Failure(DependencyError(deps[FirstMissing(deps, cache).value]))
  {
    match DecodeStep(step)
    case Failure(e) => Failure(e)
    case Success(s) =>
      match FirstMissing(s.dependencies, cache)
      case Some(k) => Failure(DependencyError(s.dependencies[k]))
      case None =>
        match ExecuteStep(o, cache, step, s.id, context)
        case Failure(e) => Failure(e)
        case Success(result) => Success((s.id, result))
  }

  /** How one step runs against a cache: its id and result, or the error it raised. */
  type StepRunner = (Value, map<string, Value>) -> Result<(string, Value), ExecError>

  /** `RunStep` with the instance's oracles and the call's context fixed. */
  function Runner(o: Oracles, context: map<string, Value>): StepRunner {
    (step, cache) => RunStep(o, step, cache, context)
  }

  /** `run` agrees with `RunStep` for these oracles and this context. The
      agreement is only used where a `RunStep` term already appears, which
      keeps the step loop's proof from unfolding a step at every turn. */
  ghost predicate RunsAs(run: StepRunner, o: Oracles, context: map<string, Value>) {
    forall step, cache {:trigger RunStep(o, step, cache, context)} :: run(step, cache) == RunStep(o, step, cache, context)
  }

  lemma RunnerRunsAs(o: Oracles, context: map<string, Value>)
    ensures RunsAs(Runner(o, context), o, context)
  {
  }

  /** Where the step loop ends: the cache, the success messages appended and
      the error that stopped it, if one did. */
  datatype Progress = Progress(cache: map<string, Value>, log: seq<Message>, error: Option<ExecError>)

  /** The step loop, in list order, stopping at the first failure. */
  function RunSteps(json: Json, run: StepRunner, steps: seq<Value>, cache: map<string, Value>): (p: Progress)
    ensures |p.log| <= |steps|
    ensures cache.Keys <= p.cache.Keys
    decreases |steps|
  {
    if steps == [] then Progress(cache, [], None)
    else
      match run(steps[0], cache)
      case Failure(e) => Progress(cache, [], Some(e))
      case Success((id, result)) =>
        var rest := RunSteps(json, run, steps[1..], cache[id := result]);
        Progress(rest.cache, [SuccessMessage(json, id, result)] + rest.log, rest.error)
  }

  /** The state one `process` call leaves: messages, context and cache. */
  datatype Execution = Execution(messages: seq<Message>, context: map<string, Value>, cache: map<string, Value>)

  /** One `process` call. `execution_results` is written only when the loop
      finishes without error, since that write is inside the `try`. The
      source stores the cache object itself there, so later writes to the
      cache show through it; this model stores the snapshot, which is what
      a sequential run observes at the time. */
  function Execute(o: Oracles, messages: seq<Message>, context: map<string, Value>, cache: map<string, Value>): (out: Execution)
    ensures out.context == context || out.context == context["execution_results" := Dict(out.cache)]
    ensures forall k :: k != "execution_results" ==>
      (k in out.context <==> k in context) && (k in context ==> out.context[k] == context[k])
  {
    if !TruthyAt(context, "plan") then Execution(messages, context, cache)
    else
      match PlanSteps(context["plan"], o.json)
      case Failure(e) => Execution(messages + [ErrorMessage(e)], context, cache)
      case Success(steps) =>
        var p := RunSteps(o.json, Runner(o, context), steps, cache);
        match p.error
        case None => Execution(messages + p.log, context["execution_results" := Dict(p.cache)], p.cache)
        case Some(e) => Execution(messages + p.log + [ErrorMessage(e)], context, p.cache)
  }

  class ExecutorAgent {
    const base: BaseAgent
    const llm: DecisionOracle
    const json: Json
    const template: Template
    var tools: map<string, Tool>
    var stepResults: map<string, Value>

    function Env(): Oracles
      reads this
    {
      Oracles(tools, llm, json, template)
    }

    /** A new executor: named "executor", not initialized, with an empty
        registry and an empty cache, created here once and never reset, and
        with the execution prompt as written. */
    constructor (llm: DecisionOracle, json: Json)
      ensures fresh(base) && !base.initialized
      ensures base.name == "executor" && base.description == Some("Task execution agent")
      ensures this.llm == llm && this.json == json && template == ExecutionTemplate
      ensures tools == map[] && stepResults == map[]
    {
      base := new BaseAgent("executor", Some("Task execution agent"));
      this.llm := llm;
      this.json := json;
      template := ExecutionTemplate;
      tools := map[];
      stepResults := map[];
    }

    /** Registers under the tool's name; a tool already registered under
        that name is replaced, every other name keeps its tool. */
    method AddTool(t: Tool)
      modifies this`tools
      ensures t.name in tools && tools[t.name] == t
      ensures forall n :: n != t.name ==> (n in tools <==> n in old(tools))
      ensures forall n :: n != t.name && n in old(tools) ==> tools[n] == old(tools)[n]
    {
      tools := tools[t.name := t];
    }

    /** The inner dependency loop: the first dependency that is not a key of
        the cache, or `None` when all of them are. */
    method CheckDependencies(deps: seq<Value>) returns (missing: Option<nat>)
      ensures missing == FirstMissing(deps, stepResults)
    {
      var j := 0;
      while j < |deps|
        invariant 0 <= j <= |deps|
        invariant forall i :: 0 <= i < j ==> Satisfied(deps[i], stepResults)
      {
        if !(deps[j].Str? && deps[j].s in stepResults) {
          return Some(j);
        }
        j := j + 1;
      }
      missing := None;
    }

    /** One pass of the step loop's body: read the step's id and
        dependencies, check the dependencies against the cache, execute. */
    method RunOneStep(step: Value, context: map<string, Value>, ghost run: StepRunner) returns (r: Result<(string, Value), ExecError>)
      requires RunsAs(run, Env(), context)
      ensures r == run(step, stepResults)
    {
      var decoded := DecodeStep(step);
      if decoded.Failure? {
        r := Failure(decoded.error);
      } else {
        var missing := CheckDependencies(decoded.value.dependencies);
        if missing.Some? {
          r := Failure(DependencyError(decoded.value.dependencies[missing.value]));
        } else {
          var result := ExecuteStep(Env(), stepResults, step, decoded.value.id, context);
          if result.Failure? {
            r := Failure(result.error);
          } else {
            r := Success((decoded.value.id, result.value));
          }
        }
      }
      assert r == RunStep(Env(), step, stepResults, context);
    }

    /** The body of the `try` up to the `execution_results` write: the step
        loop, appending one message per successful step and updating the
        cache in place; the first failure is returned, as the source raises it. */
    method ExecuteSteps(steps: seq<Value>, state: AgentState, ghost run: StepRunner) returns (error: Option<ExecError>)
      requires RunsAs(run, Env(), state.context)
      modifies this`stepResults, state`messages
      ensures var p := RunSteps(json, run, steps, old(stepResults));
        stepResults == p.cache && state.messages == old(state.messages) + p.log && error == p.error
    {
      var context := state.context;
      ghost var whole := RunSteps(json, run, steps, stepResults);
      ghost var done: seq<Message> := [];
      var i := 0;
      while i < |steps|
        invariant 0 <= i <= |steps|
        invariant state.messages == old(state.messages) + done
        invariant var rest := RunSteps(json, run, steps[i..], stepResults);
          whole == Progress(rest.cache, done + rest.log, rest.error)
      {
        RunStepsAt(json, run, steps, i, stepResults);
        var outcome := RunOneStep(steps[i], context, run);
        if outcome.Failure? {
          return Some(outcome.error);
        }
        var (id, result) := outcome.value;
        ghost var rest := RunSteps(json, run, steps[i + 1..], stepResults[id := result]);
        AppendAssoc(done, [SuccessMessage(json, id, result)], rest.log);
        stepResults := stepResults[id := result];
        state.messages := state.messages + [SuccessMessage(json, id, result)];
        done := done + [SuccessMessage(json, id, result)];
        i := i + 1;
      }
      error := None;
    }

    /** `process`: updates `state` and the cache in place exactly as
        `Execute` describes, and always returns normally. */
    method Process(state: AgentState) returns (r: AgentState)
      modifies this`stepResults, base, state
      ensures r == state && base.initialized
      ensures state.memory == old(state.memory)
      ensures var out := Execute(Env(), old(state.messages), old(state.context), old(stepResults));
        state.messages == out.messages && state.context == out.context && stepResults == out.cache
    {
      if !base.initialized {
        base.Initialize();
      }
      r := state;
      if !TruthyAt(state.context, "plan") {
        return;
      }
      var planned := PlanSteps(state.context["plan"], json);
      if planned.Failure? {
        state.messages := state.messages + [ErrorMessage(planned.error)];
        return;
      }
      ghost var run := Runner(Env(), state.context);
      RunnerRunsAs(Env(), state.context);
      var error := ExecuteSteps(planned.value, state, run);
      match error
      case None =>
        state.context := state.context["execution_results" := Dict(stepResults)];
      case Some(e) =>
        state.messages := state.messages + [ErrorMessage(e)];
    }
  }

  /** `RunSteps` on the suffix from position `i`, one step unfolded. */
  lemma RunStepsAt(json: Json, run: StepRunner, steps: seq<Value>, i: nat, cache: map<string, Value>)
    requires i < |steps|
    ensures var r := run(steps[i], cache);
      r.Failure? ==> RunSteps(json, run, steps[i..], cache) == Progress(cache, [], Some(r.error))
    ensures var r := run(steps[i], cache);
      r.Success? ==>
        var rest := RunSteps(json, run, steps[i + 1..], cache[r.value.0 := r.value.1]);
        RunSteps(json, run, steps[i..], cache) ==
          Progress(rest.cache, [SuccessMessage(json, r.value.0, r.value.1)] + rest.log, rest.error)
  {
    assert steps[i..][0] == steps[i] && steps[i..][1..] == steps[i + 1..];
  }
}
