/** The workflow (neura/core/graph.py): the router that reads the context,
    the two node wrappers around the agents, the driver loop that starts at
    the planner and consults the router after every node, and the tool
    fan-out into both agents. The graph library's scheduler is replaced by
    an explicit loop with a fuel bound, the number of node runs the router
    may order after the entry node. */
module Graph {
  import opened Values
  import opened Base
  import Planner
  import Executor
  import ExecutorProperties

  /** `AgentGraphState`: the dict handed from node to node. */
  datatype GraphState = GraphState(
    messages: seq<Message>,
    memory: map<string, Value>,
    context: map<string, Value>,
    currentAgent: string)

  /** The node names the router can return; `End` is the graph's `END`. */
  datatype Node = PlannerNode | ExecutorNode | End

  /** The router's pair `(should_continue, next_agent)`. */
  datatype Decision = Decision(proceed: bool, next: Node)

  /** `should_continue`: the presence of `plan` wins over the presence of
      `execution_results`, and the workflow stops only when there are
      results and no plan. */
  function ShouldContinue(context: map<string, Value>): (d: Decision)
    ensures d.next == ExecutorNode <==> "plan" in context
    ensures d.next == End <==> "plan" !in context && "execution_results" in context
    ensures d.next == PlannerNode <==> "plan" !in context && "execution_results" !in context
    ensures d.proceed <==> d.next != End
  {
    if "plan" in context then Decision(true, ExecutorNode)
    else if "execution_results" in context then Decision(false, End)
    else Decision(true, PlannerNode)
  }

  /** The router looks only at whether the two keys are present: their
      values and every other key are irrelevant. */
  lemma RouterReadsOnlyKeyPresence(c1: map<string, Value>, c2: map<string, Value>)
    requires ("plan" in c1 <==> "plan" in c2)
    requires ("execution_results" in c1 <==> "execution_results" in c2)
    ensures ShouldContinue(c1) == ShouldContinue(c2)
  {
    if "plan" !in c1 && "execution_results" !in c1 {
      assert ShouldContinue(c1).next == PlannerNode && ShouldContinue(c2).next == PlannerNode;
    }
  }

  /** What the graph needs of the two agents: the planner's tool list,
      prompt template and model, and the executor's registry, model, codec
      and prompt template. */
  datatype Agents = Agents(plannerTools: seq<Tool>, plannerTemplate: Template, plannerLlm: Planner.PlanningOracle,
                           executor: Executor.Oracles)

  /** `run_planner`: the planner's messages and context, the memory handed
      in, and `current_agent` set to "planner"; the planner's exception
      propagates. */
  function PlannerStep(tools: seq<Tool>, template: Template, llm: Planner.PlanningOracle, gs: GraphState)
    : (r: Result<GraphState, string>)
    ensures var t := Planner.PlanTurn(template, gs.messages, gs.context, tools, llm);
      (r.Success? <==> t.Success?) && (r.Failure? ==> r.error == t.error) &&
      (r.Success? ==>
        r.value.messages == t.value.messages && r.value.context == t.value.context &&
        r.value.memory == gs.memory && r.value.currentAgent == "planner")
  {
    match Planner.PlanTurn(template, gs.messages, gs.context, tools, llm)
    case Failure(e) => Failure(e)
    case Success(t) => Success(GraphState(t.messages, gs.memory, t.context, "planner"))
  }

  /** A graph state together with the executor's cache, which outlives it. */
  datatype Stage = Stage(state: GraphState, cache: map<string, Value>)

  /** `run_executor`: the executor never raises, so this always yields a
      state, with `current_agent` set to "executor". */
  function ExecutorStep(o: Executor.Oracles, gs: GraphState, cache: map<string, Value>): (s: Stage)
    ensures var out := Executor.Execute(o, gs.messages, gs.context, cache);
      s.state.messages == out.messages && s.state.context == out.context &&
      s.state.memory == gs.memory && s.state.currentAgent == "executor" && s.cache == out.cache
  {
    var out := Executor.Execute(o, gs.messages, gs.context, cache);
    Stage(GraphState(out.messages, gs.memory, out.context, "executor"), out.cache)
  }

  /** How a run of the graph ends: at `END`, with the fuel used up (the
      graph library's recursion limit), or with the planner's exception. */
  datatype Outcome = Finished(state: GraphState) | OutOfFuel(state: GraphState) | Raised(detail: string)

  /** The outcome and the executor's cache afterwards. */
  datatype Run = Run(outcome: Outcome, cache: map<string, Value>)

  /** The edges back to the router: consult it, stop at `END`, otherwise
      run the node it names and consult it again. The loop finishes only
      in a state the router sends to `END`, and runs out of fuel only in
      one it would go on from. */
  function Loop(a: Agents, fuel: nat, gs: GraphState, cache: map<string, Value>): (r: Run)
    ensures r.outcome.Finished? ==> ShouldContinue(r.outcome.state.context).next == End
    ensures r.outcome.OutOfFuel? ==> ShouldContinue(r.outcome.state.context).proceed
    decreases fuel
  {
    var d := ShouldContinue(gs.context);
    if !d.proceed then Run(Finished(gs), cache)
    else if fuel == 0 then Run(OutOfFuel(gs), cache)
    else if d.next == PlannerNode then
      match PlannerStep(a.plannerTools, a.plannerTemplate, a.plannerLlm, gs)
      case Failure(e) => Run(Raised(e), cache)
      case Success(next) => Loop(a, fuel - 1, next, cache)
    else
      var s := ExecutorStep(a.executor, gs, cache);
      Loop(a, fuel - 1, s.state, s.cache)
  }

  /** The compiled graph: the entry node is the planner, whatever the
      context holds; then the loop. */
  function Drive(a: Agents, fuel: nat, gs: GraphState, cache: map<string, Value>): (r: Run)
    ensures var p := PlannerStep(a.plannerTools, a.plannerTemplate, a.plannerLlm, gs);
      p.Failure? ==> r == Run(Raised(p.error), cache)
    ensures r.outcome.Finished? ==> ShouldContinue(r.outcome.state.context).next == End
    ensures r.outcome.OutOfFuel? ==> ShouldContinue(r.outcome.state.context).proceed
  {
    match PlannerStep(a.plannerTools, a.plannerTemplate, a.plannerLlm, gs)
    case Failure(e) => Run(Raised(e), cache)
    case Success(next) => Loop(a, fuel, next, cache)
  }

  /** Neither agent removes `plan`: the planner only writes it and the
      executor only writes `execution_results`. */
  lemma PlanSurvivesNodes(a: Agents, gs: GraphState, cache: map<string, Value>)
    requires "plan" in gs.context
    ensures "plan" in ExecutorStep(a.executor, gs, cache).state.context
    ensures PlannerStep(a.plannerTools, a.plannerTemplate, a.plannerLlm, gs).Success? ==> "plan" in PlannerStep(a.plannerTools, a.plannerTemplate, a.plannerLlm, gs).value.context
  {
  }

  /** Once `plan` is in the context the router picks the executor every
      time, so `END` is never reached and nothing raises: a run ends only
      when the fuel is used up, with `plan` still in place. */
  lemma {:induction false} PlanNeverEnds(a: Agents, fuel: nat, gs: GraphState, cache: map<string, Value>)
    requires "plan" in gs.context
    ensures Loop(a, fuel, gs, cache).outcome.OutOfFuel?
    ensures "plan" in Loop(a, fuel, gs, cache).outcome.state.context
    decreases fuel
  {
    if fuel > 0 {
      var s := ExecutorStep(a.executor, gs, cache);
      PlanSurvivesNodes(a, gs, cache);
      PlanNeverEnds(a, fuel - 1, s.state, s.cache);
    }
  }

  /** With neither key present, the planner runs; on an empty conversation
      it changes nothing, so the router picks it again and again. */
  lemma {:induction false} EmptyConversationSpins(a: Agents, fuel: nat, gs: GraphState, cache: map<string, Value>)
    requires gs.messages == [] && "plan" !in gs.context && "execution_results" !in gs.context
    ensures Loop(a, fuel, gs, cache).outcome.OutOfFuel?
    decreases fuel
  {
    if fuel > 0 {
      EmptyConversationSpins(a, fuel - 1, PlannerStep(a.plannerTools, a.plannerTemplate, a.plannerLlm, gs).value, cache);
    }
  }

  /** The loop reaches `END` exactly when the state it starts from already
      carries `execution_results` and no `plan`; any other state either
      raises in the planner or runs until the fuel is gone. */
  lemma LoopFinishedIff(a: Agents, fuel: nat, gs: GraphState, cache: map<string, Value>)
    ensures Loop(a, fuel, gs, cache).outcome.Finished? <==>
      "plan" !in gs.context && "execution_results" in gs.context
  {
    if "plan" in gs.context {
      PlanNeverEnds(a, fuel, gs, cache);
    } else if "execution_results" !in gs.context && fuel > 0 {
      if gs.messages == [] {
        EmptyConversationSpins(a, fuel, gs, cache);
      } else {
        var r := PlannerStep(a.plannerTools, a.plannerTemplate, a.plannerLlm, gs);
        if r.Success? {
          PlanNeverEnds(a, fuel - 1, r.value, cache);
        }
      }
    }
  }

  /** A run of the whole graph reaches `END` only when the conversation is
      empty and the caller's context already has `execution_results` and no
      `plan`; on any real task the run raises or uses up its fuel. */
  lemma DriveFinishedIff(a: Agents, fuel: nat, gs: GraphState, cache: map<string, Value>)
    ensures Drive(a, fuel, gs, cache).outcome.Finished? <==>
      gs.messages == [] && "plan" !in gs.context && "execution_results" in gs.context
  {
    var r := PlannerStep(a.plannerTools, a.plannerTemplate, a.plannerLlm, gs);
    if r.Success? {
      LoopFinishedIff(a, fuel, r.value, cache);
      if gs.messages != [] {
        Planner.PlanTurnKeeps(a.plannerTemplate, gs.messages, gs.context, a.plannerTools, a.plannerLlm);
      }
    }
  }

  /** As written, the planner's prompt raises on every non-empty
      conversation, so a run on a real task raises at the entry node with
      the `KeyError` of the plan example, and the cache is untouched. */
  lemma DriveRaisesAsWritten(a: Agents, fuel: nat, gs: GraphState, cache: map<string, Value>)
    requires a.plannerTemplate == Planner.PlanningTemplate && gs.messages != []
    ensures Drive(a, fuel, gs, cache) == Run(Raised(KeyErrorText(Planner.StepsField)), cache)
  {
    Planner.PlanTurnRaisesAsWritten(gs.messages, gs.context, a.plannerTools, a.plannerLlm);
  }

  /** A fresh task (a non-empty conversation, no plan yet) takes the path
      planner, router, executor: after the entry node the first node the
      router runs is the executor, on the planner's output. */
  lemma PlannerThenExecutor(a: Agents, fuel: nat, gs: GraphState, cache: map<string, Value>)
    requires gs.messages != [] && fuel > 0
    requires PlannerStep(a.plannerTools, a.plannerTemplate, a.plannerLlm, gs).Success?
    ensures var p := PlannerStep(a.plannerTools, a.plannerTemplate, a.plannerLlm, gs).value;
      var s := ExecutorStep(a.executor, p, cache);
      "plan" in p.context && p.currentAgent == "planner" &&
      Drive(a, fuel, gs, cache) == Loop(a, fuel - 1, s.state, s.cache)
  {
    Planner.PlanTurnKeeps(a.plannerTemplate, gs.messages, gs.context, a.plannerTools, a.plannerLlm);
  }

  /** The executor's registry after registering `ts` in order, one `add_tool` each. */
  function Registered(reg: map<string, Tool>, ts: seq<Tool>): (r: map<string, Tool>)
    ensures r.Keys == reg.Keys + set t | t in ts :: t.name
    decreases |ts|
  {
    if ts == [] then reg
    else
      var init := ts[..|ts| - 1];
      assert ts == init + [ts[|ts| - 1]];
      Registered(reg, init)[ts[|ts| - 1].name := ts[|ts| - 1]]
  }

  /** The position of the last tool in `ts` with the given name. */
  function LastNamed(ts: seq<Tool>, name: string): (r: Option<nat>)
    ensures r.None? <==> forall i :: 0 <= i < |ts| ==> ts[i].name != name
    ensures r.Some? ==>
      r.value < |ts| && ts[r.value].name == name && forall i :: r.value < i < |ts| ==> ts[i].name != name
    decreases |ts|
  {
    if ts == [] then None
    else if ts[|ts| - 1].name == name then Some(|ts| - 1)
    else LastNamed(ts[..|ts| - 1], name)
  }

  /** Registering a list: a name is taken by the last tool of that name in
      the list (last wins), and names the list does not mention keep what
      the registry had. */
  lemma {:induction false} RegisteredLastWins(reg: map<string, Tool>, ts: seq<Tool>, name: string)
    ensures var i := LastNamed(ts, name);
      (name in Registered(reg, ts) <==> i.Some? || name in reg) &&
      (i.Some? ==> Registered(reg, ts)[name] == ts[i.value]) &&
      (i.None? && name in reg ==> Registered(reg, ts)[name] == reg[name])
    decreases |ts|
  {
    if ts != [] {
      RegisteredLastWins(reg, ts[..|ts| - 1], name);
    }
  }

  /** `run_planner` on the planner object: the state is wrapped into a
      fresh `AgentState`, processed in place, and unwrapped. */
  method RunPlanner(planner: Planner.PlannerAgent, gs: GraphState) returns (r: Result<GraphState, string>)
    modifies planner.base
    ensures planner.base.initialized
    ensures r == PlannerStep(planner.tools, planner.template, planner.llm, gs)
  {
    var agentState := new AgentState.Of(gs.messages, gs.memory, gs.context);
    var updated := planner.Process(agentState);
    match updated
    case Failure(e) =>
      r := Failure(e);
    case Success(s) =>
      r := Success(GraphState(s.messages, s.memory, s.context, "planner"));
  }

  /** `run_executor` on the executor object; its cache is updated in place. */
  method RunExecutor(executor: Executor.ExecutorAgent, gs: GraphState) returns (r: GraphState)
    modifies executor`stepResults, executor.base
    ensures executor.base.initialized
    ensures var s := ExecutorStep(executor.Env(), gs, old(executor.stepResults));
      r == s.state && executor.stepResults == s.cache
  {
    var agentState := new AgentState.Of(gs.messages, gs.memory, gs.context);
    var updated := executor.Process(agentState);
    r := GraphState(updated.messages, updated.memory, updated.context, "executor");
  }

  /** `graph.invoke(initial)`: the planner, then the router after every
      node, for at most `fuel` router-directed node runs. */
  method Invoke(planner: Planner.PlannerAgent, executor: Executor.ExecutorAgent, initial: GraphState, fuel: nat)
    returns (out: Outcome)
    modifies planner.base, executor`stepResults, executor.base
    ensures planner.base.initialized
    ensures var run := Drive(Agents(planner.tools, planner.template, planner.llm, executor.Env()), fuel, initial, old(executor.stepResults));
      out == run.outcome && executor.stepResults == run.cache
  {
    ghost var a := Agents(planner.tools, planner.template, planner.llm, executor.Env());
    ghost var c0 := executor.stepResults;
    var first := RunPlanner(planner, initial);
    if first.Failure? {
      return Raised(first.error);
    }
    var gs := first.value;
    var left := fuel;
    while true
      invariant a == Agents(planner.tools, planner.template, planner.llm, executor.Env())
      invariant Drive(a, fuel, initial, c0) == Loop(a, left, gs, executor.stepResults)
      invariant planner.base.initialized
      decreases left
    {
      var d := ShouldContinue(gs.context);
      if !d.proceed {
        return Finished(gs);
      }
      if left == 0 {
        return OutOfFuel(gs);
      }
      if d.next == PlannerNode {
        var next := RunPlanner(planner, gs);
        if next.Failure? {
          return Raised(next.error);
        }
        gs := next.value;
      } else {
        gs := RunExecutor(executor, gs);
      }
      left := left - 1;
    }
  }

  /** `create_agent_graph_with_tools`: every tool, in list order, is added
      to the planner's list and registered in the executor's registry. */
  method CreateAgentGraphWithTools(planner: Planner.PlannerAgent, executor: Executor.ExecutorAgent, tools: seq<Tool>)
    modifies planner`tools, executor`tools
    ensures planner.tools == old(planner.tools) + tools
    ensures executor.tools == Registered(old(executor.tools), tools)
  {
    var i := 0;
    while i < |tools|
      invariant 0 <= i <= |tools|
      invariant planner.tools == old(planner.tools) + tools[..i]
      invariant executor.tools == Registered(old(executor.tools), tools[..i])
    {
      planner.AddTool(tools[i]);
      ghost var before := executor.tools;
      executor.AddTool(tools[i]);
      assert executor.tools == before[tools[i].name := tools[i]];
      assert tools[..i + 1][..i] == tools[..i];
      i := i + 1;
    }
    assert tools[..|tools|] == tools;
  }
}
