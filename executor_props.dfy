/** What the executor promises, proved about the functions of module
    `Executor`: list order and stop-on-first-failure of the step loop, the
    cache that only grows (also across calls), and the messages and context
    writes of one `process` call. */
module ExecutorProperties {
  import opened Values
  import opened Executor

  /** An assistant message announcing a step result. */
  predicate IsStepReport(m: Message) {
    "role" in m && m["role"] == Str("assistant") &&
    "content" in m && m["content"].Str? && StartsWith(m["content"].s, "Executed step ")
  }

  /** An assistant message announcing that execution stopped. */
  predicate IsErrorReport(m: Message) {
    "role" in m && m["role"] == Str("assistant") &&
    "content" in m && m["content"].Str? && StartsWith(m["content"].s, "Error during execution: ")
  }

  /** A step report is never an error report: the two prefixes differ at
      their second character. */
  lemma ReportsDisjoint(m: Message)
    requires IsStepReport(m)
    ensures !IsErrorReport(m)
  {
    assert m["content"].s[1] == "Executed step "[1];
  }

  lemma SuccessMessageIsReport(json: Json, id: string, result: Value)
    ensures IsStepReport(SuccessMessage(json, id, result))
    ensures !IsErrorReport(SuccessMessage(json, id, result))
  {
    var head := "Executed step ";
    AppendParts(head, id);
    PrefixOfAppend(head, head + id, ":\n");
    PrefixOfAppend(head, head + id + ":\n", json.dumps(result));
    ReportsDisjoint(SuccessMessage(json, id, result));
  }

  /** Any text after the error prefix makes an error report. */
  lemma ErrorTextIsReport(text: string)
    ensures IsErrorReport(AssistantMessage("Error during execution: " + text))
    ensures !IsStepReport(AssistantMessage("Error during execution: " + text))
  {
    AppendParts("Error during execution: ", text);
    assert ("Error during execution: " + text)[1] == 'r';
  }

  lemma ErrorMessageIsReport(e: ExecError)
    ensures IsErrorReport(ErrorMessage(e)) && !IsStepReport(ErrorMessage(e))
  {
    ErrorTextIsReport(ErrorText(e));
  }

  /** The shape of the message list after a failed call: the old messages,
      step reports, and one error report at the end. */
  lemma FailureShape(messages: seq<Message>, log: seq<Message>, err: Message)
    requires forall j :: 0 <= j < |log| ==> IsStepReport(log[j])
    requires IsErrorReport(err)
    ensures var out := messages + log + [err];
      |out| > |messages| && out[..|messages|] == messages &&
      IsErrorReport(out[|out| - 1]) &&
      forall j :: |messages| <= j < |out| - 1 ==> IsStepReport(out[j]) && !IsErrorReport(out[j])
  {
    var out := messages + log + [err];
    AppendAssoc(messages, log, [err]);
    AppendParts(messages, log + [err]);
    forall j | |messages| <= j < |out| - 1
      ensures IsStepReport(out[j]) && !IsErrorReport(out[j])
    {
      assert out[j] == log[j - |messages|];
      ReportsDisjoint(out[j]);
    }
  }

  /** The shape of the message list after a successful call: the old
      messages followed by step reports only. */
  lemma SuccessShape(messages: seq<Message>, log: seq<Message>)
    requires forall j :: 0 <= j < |log| ==> IsStepReport(log[j])
    ensures var out := messages + log;
      out[..|messages|] == messages &&
      forall j :: |messages| <= j < |out| ==> IsStepReport(out[j])
  {
    AppendParts(messages, log);
    forall j | |messages| <= j < |messages + log|
      ensures IsStepReport((messages + log)[j])
    {
      assert (messages + log)[j] == log[j - |messages|];
    }
  }

  /** The loop's outcome: all its messages are step reports, and it ends
      without error exactly when every step appended one. */
  lemma {:induction false} RunStepsShape(json: Json, run: StepRunner, steps: seq<Value>, cache: map<string, Value>)
    ensures var p := RunSteps(json, run, steps, cache);
      (p.error.None? <==> |p.log| == |steps|) &&
      forall j :: 0 <= j < |p.log| ==> IsStepReport(p.log[j])
    decreases |steps|
  {
    if steps != [] && run(steps[0], cache).Success? {
      var (id, result) := run(steps[0], cache).value;
      RunStepsShape(json, run, steps[1..], cache[id := result]);
      SuccessMessageIsReport(json, id, result);
      var rest := RunSteps(json, run, steps[1..], cache[id := result]);
      var p := RunSteps(json, run, steps, cache);
      assert p.log == [SuccessMessage(json, id, result)] + rest.log;
      forall j | 0 <= j < |p.log|
        ensures IsStepReport(p.log[j])
      {
        if j > 0 { assert p.log[j] == rest.log[j - 1]; }
      }
    }
  }

  /** Running `xs + ys` after `xs` ran without error is running `ys` from
      the cache `xs` left, with the reports of `xs` first. */
  lemma {:induction false} RunStepsAppend(json: Json, run: StepRunner, xs: seq<Value>, ys: seq<Value>, cache: map<string, Value>)
    requires RunSteps(json, run, xs, cache).error.None?
    ensures var a := RunSteps(json, run, xs, cache);
      var b := RunSteps(json, run, ys, a.cache);
      RunSteps(json, run, xs + ys, cache) == Progress(b.cache, a.log + b.log, b.error)
    decreases |xs|
  {
    if xs == [] {
      assert xs + ys == ys;
    } else {
      var (id, result) := run(xs[0], cache).value;
      var m := SuccessMessage(json, id, result);
      var c := cache[id := result];
      assert (xs + ys)[0] == xs[0];
      assert (xs + ys)[1..] == xs[1..] + ys;
      RunStepsAppend(json, run, xs[1..], ys, c);
      var a' := RunSteps(json, run, xs[1..], c);
      var b := RunSteps(json, run, ys, a'.cache);
      AppendAssoc([m], a'.log, b.log);
    }
  }

  /** Running a plan is running a prefix that succeeds and then the rest
      from the cache the prefix left: steps run strictly in list order. */
  lemma RunStepsPrefix(json: Json, run: StepRunner, steps: seq<Value>, cache: map<string, Value>, k: nat)
    requires k <= |steps|
    requires RunSteps(json, run, steps[..k], cache).error.None?
    ensures var a := RunSteps(json, run, steps[..k], cache);
      var b := RunSteps(json, run, steps[k..], a.cache);
      RunSteps(json, run, steps, cache) == Progress(b.cache, a.log + b.log, b.error)
  {
    RunStepsAppend(json, run, steps[..k], steps[k..], cache);
    assert steps[..k] + steps[k..] == steps;
  }

  /** Extending a successful prefix by one step: on success the step's
      result is cached under its id and exactly one report is appended; on
      failure the cache and the reports stay as the prefix left them. */
  lemma RunStepsSnoc(json: Json, run: StepRunner, steps: seq<Value>, cache: map<string, Value>, k: nat)
    requires k < |steps|
    requires RunSteps(json, run, steps[..k], cache).error.None?
    ensures var a := RunSteps(json, run, steps[..k], cache);
      var r := run(steps[k], a.cache);
      RunSteps(json, run, steps[..k + 1], cache) ==
        if r.Failure? then Progress(a.cache, a.log, Some(r.error))
        else Progress(a.cache[r.value.0 := r.value.1], a.log + [SuccessMessage(json, r.value.0, r.value.1)], None)
  {
    var prefix := steps[..k + 1];
    assert prefix[..k] == steps[..k];
    RunStepsPrefix(json, run, prefix, cache, k);
    assert prefix[k..] == [steps[k]];
    assert [steps[k]][1..] == [];
  }

  /** At the first step that fails, the loop stops: no later step runs, the
      cache keeps only what the earlier steps stored and one report per
      earlier step has been appended. */
  lemma StopsAtFirstFailure(json: Json, run: StepRunner, steps: seq<Value>, cache: map<string, Value>, k: nat)
    requires k < |steps|
    requires RunSteps(json, run, steps[..k], cache).error.None?
    requires run(steps[k], RunSteps(json, run, steps[..k], cache).cache).Failure?
    ensures var a := RunSteps(json, run, steps[..k], cache);
      RunSteps(json, run, steps, cache) == Progress(a.cache, a.log, Some(run(steps[k], a.cache).error)) &&
      |a.log| == k
  {
    RunStepsPrefix(json, run, steps, cache, k);
    assert steps[k..][0] == steps[k];
    RunStepsShape(json, run, steps[..k], cache);
  }

  /** The dependency check of the step at position `k`: when one of its
      dependencies is not a key of the cache the earlier steps left, the
      loop stops there with a dependency error naming the first such
      dependency, and that step's tool never runs. */
  lemma MissingDependencyStops(o: Oracles, context: map<string, Value>, steps: seq<Value>, cache: map<string, Value>, k: nat, d: nat)
    requires k < |steps|
    requires RunSteps(o.json, Runner(o, context), steps[..k], cache).error.None?
    requires DecodeStep(steps[k]).Success?
    requires d < |DecodeStep(steps[k]).value.dependencies|
    requires !Satisfied(DecodeStep(steps[k]).value.dependencies[d], RunSteps(o.json, Runner(o, context), steps[..k], cache).cache)
    ensures var a := RunSteps(o.json, Runner(o, context), steps[..k], cache);
      var deps := DecodeStep(steps[k]).value.dependencies;
      var first := FirstMissing(deps, a.cache);
      first.Some? && first.value <= d &&
      RunSteps(o.json, Runner(o, context), steps, cache) == Progress(a.cache, a.log, Some(DependencyError(deps[first.value]))) &&
      |a.log| == k
  {
    var a := RunSteps(o.json, Runner(o, context), steps[..k], cache);
    assert Runner(o, context)(steps[k], a.cache) == RunStep(o, steps[k], a.cache, context);
    StopsAtFirstFailure(o.json, Runner(o, context), steps, cache, k);
  }

  /** A dependency error for a string id reads `Dependency <id> not satisfied`. */
  lemma DependencyErrorText(dep: string)
    ensures ErrorMessage(DependencyError(Str(dep))) ==
      AssistantMessage("Error during execution: Dependency " + dep + " not satisfied")
  {
    assert "Error during execution: " + ("Dependency " + dep + " not satisfied") ==
      "Error during execution: Dependency " + dep + " not satisfied";
  }

  /** The decision names a tool that is not registered: the step fails with
      `Tool <name> not found`, whatever tool the step itself names. */
  lemma UnknownToolFails(o: Oracles, previous: map<string, Value>, step: Value, id: string, context: map<string, Value>,
                         text: string, decision: map<string, Value>, name: string)
    requires Fills(o.template, ExecutionKeys)
    requires o.llm(ExecutionRequest(Descriptions(o.tools), previous, step, context)) == Success(text)
    requires o.json.loads(text) == Success(Dict(decision))
    requires "tool" in decision && decision["tool"] == Str(name) && name !in o.tools
    ensures ExecuteStep(o, previous, step, id, context) == Failure(ToolNotFound(name))
    ensures ErrorText(ToolNotFound(name)) == "Tool " + name + " not found"
  {
  }

  /** The decision names a registered tool: that tool, looked up by the
      decision's name, is called with the decision's parameters; a result
      is passed through and an exception is rewrapped with the step id. */
  lemma DecisionSelectsTool(o: Oracles, previous: map<string, Value>, step: Value, id: string, context: map<string, Value>,
                            text: string, decision: map<string, Value>, name: string, params: map<string, Value>)
    requires Fills(o.template, ExecutionKeys)
    requires o.llm(ExecutionRequest(Descriptions(o.tools), previous, step, context)) == Success(text)
    requires o.json.loads(text) == Success(Dict(decision))
    requires "tool" in decision && decision["tool"] == Str(name) && name in o.tools
    requires "parameters" in decision && decision["parameters"] == Dict(params)
    ensures var r := ExecuteStep(o, previous, step, id, context);
      match o.tools[name].invoke(params)
      case Success(v) => r == Success(v)
      case Failure(d) =>
        r == Failure(ToolFailed(id, d)) && ErrorText(r.error) == "Error executing step " + id + ": " + d
  {
  }

  /** As written, building the execution prompt always raises, whatever
      the step, the cache and the context: no step reaches the model or a
      tool. */
  lemma ExecuteStepRaisesAsWritten(o: Oracles, previous: map<string, Value>, step: Value, id: string, context: map<string, Value>)
    requires o.template == ExecutionTemplate
    ensures ExecuteStep(o, previous, step, id, context) == Failure(PromptField(ToolField))
  {
    var fields := ExecutionTemplate.fields;
    assert fields[1..][1..] == [ToolField] && FirstUnfilled([ToolField], ExecutionKeys) == Some(0);
    assert FirstUnfilled(fields[1..], ExecutionKeys) == Some(1);
  }

  /** The text of that `KeyError`: the field name between single quotes,
      its newline written as backslash and `n`. */
  lemma ToolFieldError(rest: string)
    requires rest == "            \"tool\""
    ensures ErrorText(PromptField(ToolField)) == "'\\n" + rest + "'"
    ensures "'\\n" + rest + "'" == "'\\n            \"tool\"'"
  {
    assert "'\\n" + rest + "'" == "'\\n            \"tool\"'";
    assert ToolField == "\n" + rest;
    KeyErrorAfterNewline(rest);
  }

  /** As written, the step loop never gets past its first step: it stops
      there with that step's decoding, dependency or prompt error, appends
      no report and leaves the cache as it was. */
  lemma RunStepsAsWritten(o: Oracles, context: map<string, Value>, steps: seq<Value>, cache: map<string, Value>)
    requires o.template == ExecutionTemplate
    ensures var p := RunSteps(o.json, Runner(o, context), steps, cache);
      p.cache == cache && p.log == [] &&
      (steps == [] ==> p.error.None?) &&
      (steps != [] ==>
        RunStep(o, steps[0], cache, context).Failure? && p.error == Some(RunStep(o, steps[0], cache, context).error))
  {
    if steps != [] {
      assert Runner(o, context)(steps[0], cache) == RunStep(o, steps[0], cache, context);
      if DecodeStep(steps[0]).Success? {
        ExecuteStepRaisesAsWritten(o, cache, steps[0], DecodeStep(steps[0]).value.id, context);
      }
    }
  }

  /** As written, a `process` call never adds a result to the cache, so an
      instance's cache stays empty for its whole life. A plan with steps
      ends in exactly one error message; `execution_results` is written
      only for a plan without steps, and then holds the cache as it was. */
  lemma ExecuteAsWritten(o: Oracles, messages: seq<Message>, context: map<string, Value>, cache: map<string, Value>)
    requires o.template == ExecutionTemplate
    ensures var out := Execute(o, messages, context, cache);
      out.cache == cache &&
      (out.context == context ||
       (TruthyAt(context, "plan") && PlanSteps(context["plan"], o.json) == Success([]) &&
        out.context == context["execution_results" := Dict(cache)]))
    ensures (TruthyAt(context, "plan") && PlanSteps(context["plan"], o.json).Success? &&
             PlanSteps(context["plan"], o.json).value != []) ==>
      var first := PlanSteps(context["plan"], o.json).value[0];
      RunStep(o, first, cache, context).Failure? &&
      Execute(o, messages, context, cache) ==
        Execution(messages + [ErrorMessage(RunStep(o, first, cache, context).error)], context, cache)
  {
    if TruthyAt(context, "plan") && PlanSteps(context["plan"], o.json).Success? {
      var steps := PlanSteps(context["plan"], o.json).value;
      RunStepsAsWritten(o, context, steps, cache);
      assert messages + [] == messages;
    }
  }

  /** With the example's braces doubled, the prompt is built and the step
      goes on to the model: no step fails while its prompt is built, and a
      failing model call is what the step reports. */
  lemma EscapedStepAsksModel(o: Oracles, previous: map<string, Value>, step: Value, id: string, context: map<string, Value>)
    requires o.template == EscapedExecutionTemplate
    ensures var reply := o.llm(ExecutionRequest(Descriptions(o.tools), previous, step, context));
      var r := ExecuteStep(o, previous, step, id, context);
      Fills(o.template, ExecutionKeys) &&
      (reply.Failure? ==> r == Failure(DecisionCallFailed(reply.error))) &&
      (r.Failure? ==> !r.error.PromptField?)
  {
    assert FirstUnfilled(EscapedExecutionTemplate.fields, ExecutionKeys) == None;
  }

  /** No plan, or a falsy one: nothing changes, not even the cache. */
  lemma ExecuteWithoutPlan(o: Oracles, messages: seq<Message>, context: map<string, Value>, cache: map<string, Value>)
    requires !TruthyAt(context, "plan")
    ensures Execute(o, messages, context, cache) == Execution(messages, context, cache)
  {
  }

  /** Every step succeeded: `execution_results` holds the whole cache,
      including the entries of earlier calls, one report per step was
      appended, and no other context key changed. */
  lemma ExecuteAllSucceed(o: Oracles, messages: seq<Message>, context: map<string, Value>, cache: map<string, Value>)
    requires TruthyAt(context, "plan") && PlanSteps(context["plan"], o.json).Success?
    requires RunSteps(o.json, Runner(o, context), PlanSteps(context["plan"], o.json).value, cache).error.None?
    ensures var out := Execute(o, messages, context, cache);
      var steps := PlanSteps(context["plan"], o.json).value;
      out.context == context["execution_results" := Dict(out.cache)] &&
      cache.Keys <= out.cache.Keys &&
      |out.messages| == |messages| + |steps| && out.messages[..|messages|] == messages &&
      forall j :: |messages| <= j < |out.messages| ==> IsStepReport(out.messages[j])
  {
    var steps := PlanSteps(context["plan"], o.json).value;
    RunStepsShape(o.json, Runner(o, context), steps, cache);
    SuccessShape(messages, RunSteps(o.json, Runner(o, context), steps, cache).log);
  }

  /** Any failure (bad plan text, a malformed step or decision, a missing
      dependency, an unknown tool, a tool exception) appends the reports of
      the steps that ran and then exactly one error message, and leaves the
      context untouched: `execution_results` is not written. */
  lemma ExecuteFailure(o: Oracles, messages: seq<Message>, context: map<string, Value>, cache: map<string, Value>)
    requires TruthyAt(context, "plan")
    requires PlanSteps(context["plan"], o.json).Success? ==>
      RunSteps(o.json, Runner(o, context), PlanSteps(context["plan"], o.json).value, cache).error.Some?
    ensures var out := Execute(o, messages, context, cache);
      out.context == context &&
      |out.messages| > |messages| && out.messages[..|messages|] == messages &&
      IsErrorReport(out.messages[|out.messages| - 1]) &&
      forall j :: |messages| <= j < |out.messages| - 1 ==> IsStepReport(out.messages[j]) && !IsErrorReport(out.messages[j])
  {
    match PlanSteps(context["plan"], o.json)
    case Failure(e) =>
      ErrorMessageIsReport(e);
      FailureShape(messages, [], ErrorMessage(e));
      assert messages + [] == messages;
    case Success(steps) =>
      var p := RunSteps(o.json, Runner(o, context), steps, cache);
      RunStepsShape(o.json, Runner(o, context), steps, cache);
      ErrorMessageIsReport(p.error.value);
      FailureShape(messages, p.log, ErrorMessage(p.error.value));
  }

  /** The cache only grows across calls on one instance: every key it had
      before a call is still there after it, so a dependency satisfied by a
      result cached in an earlier call stays satisfied in later ones. */
  lemma ExecuteCacheGrows(o: Oracles, messages: seq<Message>, context: map<string, Value>, cache: map<string, Value>, deps: seq<Value>)
    ensures cache.Keys <= Execute(o, messages, context, cache).cache.Keys
    ensures FirstMissing(deps, cache).None? ==> FirstMissing(deps, Execute(o, messages, context, cache).cache).None?
  {
    if TruthyAt(context, "plan") && PlanSteps(context["plan"], o.json).Success? {
      RunStepsShape(o.json, Runner(o, context), PlanSteps(context["plan"], o.json).value, cache);
    }
  }

  /** Two steps `[s1, s2]` where `s2` depends on `s1`, on an instance whose
      cache does not know `s1`: `s1` runs first and `s2` sees its result. */
  lemma TwoDependentSteps(o: Oracles, context: map<string, Value>, cache: map<string, Value>,
                          step1: Value, step2: Value, r1: Value, r2: Value)
    requires DecodeStep(step1) == Success(Step("s1", []))
    requires DecodeStep(step2) == Success(Step("s2", [Str("s1")]))
    requires ExecuteStep(o, cache, step1, "s1", context) == Success(r1)
    requires ExecuteStep(o, cache["s1" := r1], step2, "s2", context) == Success(r2)
    ensures RunSteps(o.json, Runner(o, context), [step1, step2], cache) ==
      Progress(cache["s1" := r1]["s2" := r2],
               [SuccessMessage(o.json, "s1", r1), SuccessMessage(o.json, "s2", r2)], None)
  {
    assert [step1, step2][1..] == [step2];
    assert [step2][1..] == [];
    assert FirstMissing([], cache) == None;
    assert FirstMissing([Str("s1")], cache["s1" := r1]) == None;
    assert Runner(o, context)(step1, cache) == Success(("s1", r1));
    assert Runner(o, context)(step2, cache["s1" := r1]) == Success(("s2", r2));
    var c2 := cache["s1" := r1]["s2" := r2];
    assert RunSteps(o.json, Runner(o, context), [], c2) == Progress(c2, [], None);
    assert RunSteps(o.json, Runner(o, context), [step2], cache["s1" := r1]) ==
      Progress(c2, [SuccessMessage(o.json, "s2", r2)], None);
  }

  /** The same two steps when `s1` fails: `s2` never runs, the cache is unchanged. */
  lemma FirstStepFailsSecondSkipped(o: Oracles, context: map<string, Value>, cache: map<string, Value>,
                                    step1: Value, step2: Value, e: ExecError)
    requires DecodeStep(step1) == Success(Step("s1", []))
    requires ExecuteStep(o, cache, step1, "s1", context) == Failure(e)
    ensures RunSteps(o.json, Runner(o, context), [step1, step2], cache) == Progress(cache, [], Some(e))
  {
  }
}
