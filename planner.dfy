/** The planner agent (neura/agents/planner.py): it asks the language model
    to decompose the latest message into a plan and stores the reply,
    unvalidated, in the context. */
module Planner {
  import opened Values
  import opened Base

  /** What the planning prompt carries: the tool listing and the task. */
  datatype PlanningRequest = PlanningRequest(tools: string, task: Value)

  /** The language model behind `llm.invoke`: a reply text, or the text of
      the exception the call raised. */
  type PlanningOracle = PlanningRequest -> Result<string, string>

  /** One line of the tool listing: `- name: description`. */
  function Line(t: Tool): string {
    "- " + t.name + ": " + t.description
  }

  /** The lines of all registered tools, in registration order, joined by
      newlines: empty exactly when no tool is registered, and starting
      with the first tool's line. */
  function Listing(tools: seq<Tool>): (r: string)
    ensures tools == [] <==> r == ""
    ensures tools != [] ==> StartsWith(r, Line(tools[0]))
  {
    if tools == [] then ""
    else if |tools| == 1 then Line(tools[0])
    else
      var l := Line(tools[0]);
      AppendParts(l, "\n" + Listing(tools[1..]));
      AppendAssoc(l, "\n", Listing(tools[1..]));
      l + "\n" + Listing(tools[1..])
  }

  /** Registering one more tool adds exactly one line at the end of the
      listing, after a newline unless the listing was empty. */
  lemma {:induction false} ListingAppend(tools: seq<Tool>, t: Tool)
    ensures Listing(tools + [t]) == if tools == [] then Line(t) else Listing(tools) + "\n" + Line(t)
  {
    if |tools| > 1 {
      assert (tools + [t])[1..] == tools[1..] + [t];
      ListingAppend(tools[1..], t);
    } else if |tools| == 1 {
      assert (tools + [t])[1..] == [t];
    }
  }

  /** The task: the "content" of the last message, or "" when that key is missing. */
  function Task(messages: seq<Message>): Value
    requires messages != []
  {
    var last := messages[|messages| - 1];
    if "content" in last then last["content"] else Str("")
  }

  /** The task is read from the last message alone: the messages before it
      play no part, and a message without "content" gives the empty task. */
  lemma TaskOfLastMessage(earlier: seq<Message>, last: Message)
    ensures Task(earlier + [last]) == Task([last])
    ensures Task([last]) == if "content" in last then last["content"] else Str("")
  {
  }

  /** The keyword arguments the planning prompt passes to `format`. */
  const PlanningKeys: set<string> := {"tools"}

  /** The field name `format` reads from the plan example of the planning
      prompt: a newline, twelve spaces and the quoted key `steps`. */
  const StepsField: string := "\n            \"steps\""

  /** The planning prompt as written: `{tools}`, then the plan example
      whose braces are not doubled. */
  const PlanningTemplate: Template := Template(["tools", StepsField])

  /** The planning prompt with the example's braces doubled. */
  const EscapedPlanningTemplate: Template := Template(["tools"])

  /** Messages and context, the part of the state an agent changes. */
  datatype Turn = Turn(messages: seq<Message>, context: map<string, Value>)

  /** What one planner run does to the messages and the context: with no
      messages nothing happens; otherwise the prompt is built, which raises
      when `format` meets a field it cannot fill, and the model is asked.
      Either exception propagates as `Failure`. */
  function PlanTurn(template: Template, messages: seq<Message>, context: map<string, Value>, tools: seq<Tool>, llm: PlanningOracle)
    : (r: Result<Turn, string>)
    ensures messages == [] ==> r == Success(Turn(messages, context))
  {
    if messages == [] then Success(Turn(messages, context))
    else
      match FirstUnfilled(template.fields, PlanningKeys)
      case Some(i) => Failure(KeyErrorText(template.fields[i]))
      case None =>
        match llm(PlanningRequest(Listing(tools), Task(messages)))
        case Failure(e) => Failure(e)
        case Success(reply) =>
          Success(Turn(messages + [AssistantMessage("Created execution plan:\n" + reply)],
                       context["plan" := Str(reply)]))
  }

  /** On a non-empty conversation the run fails exactly when building the
      prompt raises (with the `KeyError` of the first unfilled field) or,
      once it is built, the model call raises (with that call's text). */
  lemma PlanTurnFailsWithModel(template: Template, messages: seq<Message>, context: map<string, Value>, tools: seq<Tool>, llm: PlanningOracle)
    requires messages != []
    ensures var t := PlanTurn(template, messages, context, tools, llm);
      var missing := FirstUnfilled(template.fields, PlanningKeys);
      var reply := llm(PlanningRequest(Listing(tools), Task(messages)));
      (t.Failure? <==> missing.Some? || reply.Failure?) &&
      (missing.Some? ==> t.error == KeyErrorText(template.fields[missing.value])) &&
      (missing.None? && reply.Failure? ==> t.error == reply.error)
  {
  }

  /** The text of the `KeyError` the plan example causes: the field name
      between single quotes, its newline written as backslash and `n`. */
  lemma StepsFieldError(rest: string)
    requires rest == "            \"steps\""
    ensures KeyErrorText(StepsField) == "'\\n" + rest + "'"
    ensures "'\\n" + rest + "'" == "'\\n            \"steps\"'"
  {
    assert "'\\n" + rest + "'" == "'\\n            \"steps\"'";
    assert StepsField == "\n" + rest;
    KeyErrorAfterNewline(rest);
  }

  /** As written, every non-empty conversation fails while the prompt is
      built, whatever the model would have answered: `format` raises
      `KeyError` for the example's `steps` key. */
  lemma PlanTurnRaisesAsWritten(messages: seq<Message>, context: map<string, Value>, tools: seq<Tool>, llm: PlanningOracle)
    requires messages != []
    ensures PlanTurn(PlanningTemplate, messages, context, tools, llm) == Failure(KeyErrorText(StepsField))
  {
    assert FirstUnfilled(PlanningTemplate.fields, PlanningKeys) == Some(1);
  }

  /** With the example's braces doubled, the prompt is built and the model
      is asked: the run fails exactly when the model call raises, and
      otherwise the reply becomes the plan. */
  lemma PlanTurnEscaped(messages: seq<Message>, context: map<string, Value>, tools: seq<Tool>, llm: PlanningOracle)
    requires messages != []
    ensures var t := PlanTurn(EscapedPlanningTemplate, messages, context, tools, llm);
      var reply := llm(PlanningRequest(Listing(tools), Task(messages)));
      (t.Success? <==> reply.Success?) &&
      (reply.Failure? ==> t.error == reply.error) &&
      (reply.Success? ==> t.value.context["plan"] == Str(reply.value))
  {
    assert FirstUnfilled(EscapedPlanningTemplate.fields, PlanningKeys) == None;
  }

  /** A successful run on a non-empty conversation filled the prompt's
      fields, stores the reply verbatim under `plan`, keeps every other
      key, keeps the earlier messages as a prefix and appends exactly one
      assistant message announcing the plan. */
  lemma PlanTurnKeeps(template: Template, messages: seq<Message>, context: map<string, Value>, tools: seq<Tool>, llm: PlanningOracle)
    requires messages != []
    requires PlanTurn(template, messages, context, tools, llm).Success?
    ensures var reply := llm(PlanningRequest(Listing(tools), Task(messages)));
      var t := PlanTurn(template, messages, context, tools, llm).value;
      Fills(template, PlanningKeys) &&
      reply.Success? && t.context["plan"] == Str(reply.value) &&
      t.context.Keys == context.Keys + {"plan"} &&
      (forall k :: k in context && k != "plan" ==> t.context[k] == context[k]) &&
      |t.messages| == |messages| + 1 && t.messages[..|messages|] == messages &&
      t.messages[|messages|] == AssistantMessage("Created execution plan:\n" + reply.value) &&
      StartsWith(t.messages[|messages|]["content"].s, "Created execution plan:\n")
  {
    var reply := llm(PlanningRequest(Listing(tools), Task(messages))).value;
    var m := AssistantMessage("Created execution plan:\n" + reply);
    AppendParts(messages, [m]);
    AppendParts("Created execution plan:\n", reply);
  }

  class PlannerAgent {
    const base: BaseAgent
    const llm: PlanningOracle
    const template: Template
    var tools: seq<Tool>

    /** A new planner: named "planner", not initialized, no tools, with the
        planning prompt as written. */
    constructor (llm: PlanningOracle)
      ensures fresh(base) && !base.initialized
      ensures base.name == "planner" && base.description == Some("Task decomposition and planning agent")
      ensures this.llm == llm && template == PlanningTemplate && tools == []
    {
      base := new BaseAgent("planner", Some("Task decomposition and planning agent"));
      this.llm := llm;
      template := PlanningTemplate;
      tools := [];
    }

    /** Appends; registration order is kept and duplicates are not removed. */
    method AddTool(t: Tool)
      modifies this`tools
      ensures tools == old(tools) + [t]
    {
      tools := tools + [t];
    }

    /** Plans in place on `state`; when building the prompt or the model
        call raises, nothing in `state` has changed and the exception text
        is returned. */
    method Process(state: AgentState) returns (r: Result<AgentState, string>)
      modifies base, state
      ensures base.initialized
      ensures state.memory == old(state.memory)
      ensures match PlanTurn(template, old(state.messages), old(state.context), tools, llm)
        case Success(t) => r == Success(state) && state.messages == t.messages && state.context == t.context
        case Failure(e) => r == Failure(e) && state.messages == old(state.messages) && state.context == old(state.context)
    {
      if !base.initialized {
        base.Initialize();
      }
      if state.messages == [] {
        return Success(state);
      }
      var task := Task(state.messages);
      var missing := FirstUnfilled(template.fields, PlanningKeys);
      if missing.Some? {
        return Failure(KeyErrorText(template.fields[missing.value]));
      }
      var reply := llm(PlanningRequest(Listing(tools), task));
      if reply.Failure? {
        return Failure(reply.error);
      }
      state.context := state.context["plan" := Str(reply.value)];
      state.messages := state.messages + [AssistantMessage("Created execution plan:\n" + reply.value)];
      r := Success(state);
    }
  }
}
