# neura-agent workflow core in Dafny

This project models the plan-then-execute workflow of the neura-agent
framework and proves properties of it:

- **Planner** (`Planner`), `neura/agents/planner.py`. It is meant to ask a
  language model to turn the last message into a plan. It would then store
  the reply, unvalidated, as `context["plan"]` and announce it with one
  assistant message. As written, building the prompt raises first (see
  "Prompt templates" below).
- **Executor** (`Executor`, `ExecutorProperties`), `neura/agents/executor.py`.
  It decodes the plan and walks its steps in list order. It checks every
  dependency against a step-result cache that the instance owns and never
  clears. For each step it is meant to let the model choose a tool and its
  parameters, call that tool, cache the result and report it. The first
  failure stops the loop and becomes a single error message. As written,
  every step that passes its dependency check fails while its prompt is
  built.
- **Router and driver** (`Graph`), `neura/core/graph.py`. The router
  `should_continue` reads whether `plan` and `execution_results` are present.
  The node wrappers run the agents. The graph enters at the planner and
  returns to the router after every node. The tool fan-out registers a tool
  list in both agents.
- **Agent lifecycle** (`Base`), `neura/agents/base.py`. This covers the
  `AgentState` record and the initialized flag of `BaseAgent`.

The Python classes become Dafny classes whose methods update fields in
place. This covers the executor's registry and cache, the planner's tool
list, the agent state's messages and context, and the initialized flag.
Inheritance from `BaseAgent` becomes composition: each agent owns a
`BaseAgent` in its `base` field.

Every imperative operation is proved equal to a pure function, as follows.

| method | function |
|---|---|
| `ExecutorAgent.Process` | `Execute` |
| its loop `ExecuteSteps` | `RunSteps` |
| the loop body `RunOneStep` | `RunStep` |
| the inner dependency loop `CheckDependencies` | `FirstMissing` |
| `PlannerAgent.Process` | `PlanTurn` |
| `Graph.Invoke` | neura/core/graph.py:104-118 | running the two agent objects through the graph yields the outcome and the cache that `Drive` gives, and leaves the planner initialized |

The properties are lemmas about those functions.

The language models, `json.loads`/`json.dumps` and the tools are external.
Each is a function value:

- an oracle returns `Success` or `Failure` with the exception's text;
- every exception the Python code raises becomes a `Failure` value;
- `ExecError` lists the executor's exceptions.

The graph library's scheduler is replaced by an explicit driver with a fuel
bound. The bound counts the node runs the router may order after the entry
node. Running out of fuel stands for the library's recursion limit.

Prompt templates. Both prompts are built with `str.format` on a template
that contains a JSON example with single braces. `format` reads such an
example as a replacement field, named by the newline, the indentation and the
first quoted key. No keyword argument has that name, so `format` raises
`KeyError`. The model represents a template by the names of its fields
(`Values.Template`):

- the planner's template as written has the fields `tools` and the
  example's `steps` key; the executor's has `tools`, `previous_results` and
  the example's `tool` key;
- the agent classes carry the templates as written, so the methods do what
  the source does;
- the functions take the template as a parameter; the lemmas about what the
  agents are evidently meant to do hold for a template whose fields are all
  filled, such as the one with the example's braces doubled.

The consequences as written are under "## Findings".

The main workflow result, about `Graph.Drive`:

- Once `plan` is in the context, the router picks the executor forever.
  Neither agent removes `plan`.
- A run therefore reaches `END` only if the conversation is empty and the
  caller's context already holds `execution_results` and no `plan`.
- On a real task the run raises in the planner or uses up its fuel.
- As written, a run on any non-empty conversation raises at the entry node
  with the planner's `KeyError` (`Graph.DriveRaisesAsWritten`).

## Model

| member | source | states |
|---|---|---|
| `Base.BaseAgent.constructor` | neura/agents/base.py:36-45 | a new agent carries its name and description and is not initialized |
| `Base.BaseAgent.Initialize` | neura/agents/base.py:47-50 | afterwards the agent is initialized, whether or not it was before |
| `Base.BaseAgent.Process` | neura/agents/base.py:52-63 | hands back the same state object and leaves the agent initialized |
| `Base.BaseAgent.Finalize` | neura/agents/base.py:65-67 | clears the flag, so a later `Initialize` takes effect again |
| `Base.AgentState.constructor` | neura/agents/base.py:8-13 | a default state has empty messages, memory and context |
| `Base.AgentState.Of` | neura/agents/base.py:8-13 | the state holds exactly the three given fields |
| `Planner.PlannerAgent.constructor` | neura/agents/planner.py:16-38 | named "planner" with its description, not initialized, no tools, and the planning template as written |
| `Planner.PlannerAgent.AddTool` | neura/agents/planner.py:40-46 | appends: order kept, duplicates kept |
| `Planner.ListingAppend` | neura/agents/planner.py:85 | registering one more tool adds exactly its `- name: description` line at the end, after a newline unless the listing was empty |
| `Planner.Listing` | neura/agents/planner.py:85 | the listing is empty exactly when no tool is registered, and starts with the first tool's `- name: description` line |
| `Planner.TaskOfLastMessage` | neura/agents/planner.py:106-107 | the task is the last message's "content", or "" without that key; earlier messages play no part |
| `Values.FirstUnfilled` | neura/agents/planner.py:84-86 | the first template field that is not a keyword argument, where `format` raises, or none exactly when every field is filled |
| `Planner.PlanTurn` | neura/agents/planner.py:99-120 | with no messages, messages and context are returned unchanged and nothing else happens |
| `Planner.PlanTurnFailsWithModel` | neura/agents/planner.py:106-111 | on a non-empty conversation the run fails exactly when the prompt has an unfilled field (with that field's `KeyError`) or the model call raises (with its text) |
| `Planner.PlanTurnRaisesAsWritten` | neura/agents/planner.py:70-86 | with the template as written, every non-empty conversation fails with the `KeyError` of the `steps` key, whatever the model would answer |
| `Planner.StepsFieldError` | neura/agents/planner.py:71-72 | that error's text is the field name in single quotes, a backslash and `n`, twelve spaces and `"steps"` |
| `Planner.PlanTurnEscaped` | neura/agents/planner.py:106-118 | with the example's braces doubled, the model is asked; the run fails exactly when it raises and otherwise stores the reply as `plan` |
| `Planner.PlanTurnKeeps` | neura/agents/planner.py:106-118 | on success the prompt's fields were filled, `plan` is the raw reply, every other key is kept, earlier messages are a prefix and exactly one `Created execution plan:\n` + reply message is appended |
| `Planner.PlannerAgent.Process` | neura/agents/planner.py:90-120 | updates the state in place as `PlanTurn` with the agent's template says, so as written it raises on every non-empty conversation; on any exception nothing in the state changes; memory untouched, agent initialized |
| `Executor.ExecutorAgent.constructor` | neura/agents/executor.py:16-39 | named "executor", not initialized, empty registry, empty cache and the execution template as written |
| `Executor.ExecutorAgent.AddTool` | neura/agents/executor.py:41-47 | the tool is registered under its name, replacing an earlier one of that name; every other name keeps its tool |
| `Executor.PlanSteps` | neura/agents/executor.py:141-143 | a plan that is not text fails; steps come only from text that decodes to an object, and a non-empty list only from a list under `"steps"` |
| `Executor.DecodeStep` | neura/agents/executor.py:147-150 | a dict without `id` fails with `KeyError`; a decoded step has the dict's string id, no dependencies when the key is missing, and a given list's items otherwise |
| `Executor.FirstMissing` | neura/agents/executor.py:150-153 | no result exactly when every dependency is a cache key; otherwise the first position that is not |
| `Executor.ExecutorAgent.CheckDependencies` | neura/agents/executor.py:150-153 | the inner loop finds the same first missing dependency as `FirstMissing` |
| `Executor.ExecuteStep` | neura/agents/executor.py:96-122 | an unfilled prompt field fails the step before the model is asked; a success needs a filled template and a model reply; a wrapped tool failure carries the step's id |
| `Executor.RunStep` | neura/agents/executor.py:146-157 | a step succeeds only decoded and with every dependency in the cache, under its own id; a missing dependency fails it with the first missing one's error |
| `Executor.ExecutorAgent.RunOneStep` | neura/agents/executor.py:146-156 | one pass of the loop body computes `RunStep` for the current cache with the agent's template, so as written a step that passes its dependency check fails with the prompt's `KeyError` |
| `Executor.RunSteps` | neura/agents/executor.py:146-163 | at most one report per step, and every cache key survives the loop |
| `Executor.ExecutorAgent.ExecuteSteps` | neura/agents/executor.py:146-163 | the step loop leaves the cache, the appended messages and the stopping error that `RunSteps` gives |
| `Executor.ExecutorAgent.Process` | neura/agents/executor.py:124-174 | the call updates messages, context and cache exactly as `Execute` with the agent's template says, returns the same state object and leaves memory alone |
| `Executor.Execute` | neura/agents/executor.py:124-174 | a call writes at most `execution_results`; every other key, `plan` included, keeps its value |
| `Executor.RunStepsAt` | neura/agents/executor.py:146-163 | the loop from position i is step i and then the loop from i + 1, or just step i's error |
| `ExecutorProperties.SuccessMessageIsReport` | neura/agents/executor.py:160-163 | each success message is an assistant message starting `Executed step ` |
| `ExecutorProperties.ErrorMessageIsReport` | neura/agents/executor.py:168-172 | each failure message is an assistant message starting `Error during execution: ` |
| `ExecutorProperties.RunStepsShape` | neura/agents/executor.py:146-163 | all appended messages are success reports, and the loop ends without error exactly when every step appended one |
| `ExecutorProperties.RunStepsAppend` | neura/agents/executor.py:146 | the loop over `xs + ys` is the loop over `xs` followed by the loop over `ys` on the cache it left |
| `ExecutorProperties.RunStepsPrefix` | neura/agents/executor.py:146 | steps run strictly in list order: a succeeding prefix, then the rest from its cache |
| `ExecutorProperties.RunStepsSnoc` | neura/agents/executor.py:156-163 | one more step either caches its result under its id and appends exactly one report, or leaves cache and reports as they were |
| `ExecutorProperties.StopsAtFirstFailure` | neura/agents/executor.py:146-163 | at the first failing step the loop stops with that error, no later step runs and one report per earlier step was appended |
| `ExecutorProperties.MissingDependencyStops` | neura/agents/executor.py:150-153 | a dependency missing from the cache left by the earlier steps stops the loop at that step with the first missing dependency's error; the step's tool does not run |
| `ExecutorProperties.DependencyErrorText` | neura/agents/executor.py:153 | a missing dependency reads `Error during execution: Dependency <id> not satisfied` |
| `ExecutorProperties.UnknownToolFails` | neura/agents/executor.py:105-114 | with the prompt's fields filled, a decision naming an unregistered tool fails with `Tool <name> not found` |
| `ExecutorProperties.DecisionSelectsTool` | neura/agents/executor.py:105-122 | with the prompt's fields filled, the tool called is the decision's, with the decision's parameters; its exception is rewrapped as `Error executing step <id>: <text>` |
| `ExecutorProperties.ExecuteStepRaisesAsWritten` | neura/agents/executor.py:78-92 | with the template as written, every step fails with the `KeyError` of the `tool` key, whatever the oracles return |
| `ExecutorProperties.ToolFieldError` | neura/agents/executor.py:79-80 | that error's text is the field name in single quotes, a backslash and `n`, twelve spaces and `"tool"` |
| `ExecutorProperties.RunStepsAsWritten` | neura/agents/executor.py:146-163 | as written, the loop stops at its first step with that step's error, appends no report and leaves the cache unchanged |
| `ExecutorProperties.ExecuteAsWritten` | neura/agents/executor.py:124-174 | as written, a call never adds to the cache; a plan with steps gives exactly one error message; `execution_results` is written only for a plan without steps |
| `ExecutorProperties.EscapedStepAsksModel` | neura/agents/executor.py:105-108 | with the example's braces doubled, the prompt is built, no step fails with a prompt error, and a failing model call is what the step reports |
| `ExecutorProperties.ExecuteWithoutPlan` | neura/agents/executor.py:137-139 | with `plan` absent or falsy, messages, context and cache are unchanged |
| `ExecutorProperties.ExecuteAllSucceed` | neura/agents/executor.py:141-166 | when every step succeeds, `execution_results` is the whole cache, including earlier calls' entries, and exactly one report per step follows the old messages |
| `ExecutorProperties.ExecuteFailure` | neura/agents/executor.py:141-174 | any failure leaves the context untouched and appends the earlier steps' reports followed by exactly one error message |
| `ExecutorProperties.ExecuteCacheGrows` | neura/agents/executor.py:150-157 | the cache only grows across calls, so dependencies satisfied before a call stay satisfied after it |
| `ExecutorProperties.TwoDependentSteps` | neura/agents/executor.py:146-163 | `[s1, s2]` with `s2` depending on `s1`: `s1` runs first and `s2` sees its result |
| `ExecutorProperties.FirstStepFailsSecondSkipped` | neura/agents/executor.py:146-163 | when `s1` fails, `s2` never runs and the cache is unchanged |
| `Graph.ShouldContinue` | neura/core/graph.py:36-54 | executor exactly when `plan` is present; `END` exactly when only `execution_results` is; planner when neither; proceed exactly when the next node is not `END` |
| `Graph.RouterReadsOnlyKeyPresence` | neura/core/graph.py:36-54 | contexts that agree on the presence of the two keys get the same decision |
| `Graph.PlannerStep` | neura/core/graph.py:65-78 | the planner agent's messages, context and exception, the memory handed in, and `current_agent` "planner" |
| `Graph.ExecutorStep` | neura/core/graph.py:89-102 | the executor's messages, context and cache, the memory handed in, and `current_agent` "executor" |
| `Graph.RunPlanner` | neura/core/graph.py:65-78 | wrapping the planner object into a fresh agent state computes `PlannerStep` |
| `Graph.RunExecutor` | neura/core/graph.py:89-102 | wrapping the executor object computes `ExecutorStep` and leaves its cache updated |
| `Graph.PlanSurvivesNodes` | neura/core/graph.py:46-47 | neither node removes `plan` from the context |
| `Graph.Loop` | neura/core/graph.py:111-113 | the loop finishes only in a state the router sends to `END`, and runs out of fuel only in one the router would go on from |
| `Graph.Drive` | neura/core/graph.py:104-118 | a planner exception at the entry node is the run's outcome with the cache untouched; otherwise it ends as the loop does |
| `Graph.PlanNeverEnds` | neura/core/graph.py:46-47 | once `plan` is present the loop never reaches `END` or raises; it only runs out of fuel, with `plan` still present |
| `Graph.EmptyConversationSpins` | neura/core/graph.py:50-54 | with no messages and neither key, the planner changes nothing and is chosen again until the fuel is gone |
| `Graph.LoopFinishedIff` | neura/core/graph.py:104-113 | the router loop reaches `END` exactly when its starting context has `execution_results` and no `plan` |
| `Graph.DriveFinishedIff` | neura/core/graph.py:104-118 | a graph run reaches `END` exactly when the conversation is empty and the context already has `execution_results` and no `plan` |
| `Graph.DriveRaisesAsWritten` | neura/core/graph.py:104-118 | with the planner template as written, a run on any non-empty conversation raises the `KeyError` of the `steps` key at the entry node |
| `Graph.PlannerThenExecutor` | neura/core/graph.py:112-116 | on a non-empty conversation the planner runs first, and the first node the router then orders is the executor on the planner's output |
| `Graph.Invoke` | neura/core/graph.py:104-118 | running the two agent objects through the graph yields the outcome and the cache that `Drive` gives |
| `Graph.LastNamed` | neura/core/graph.py:137-139 | the position of the last tool of a name in the list, or none if no tool has it |
| `Graph.Registered` | neura/core/graph.py:137-139 | after the fan-out the registry's names are the old names and the names of the listed tools |
| `Graph.RegisteredLastWins` | neura/core/graph.py:137-139 | after the fan-out a name maps to the last tool of that name in the list; names the list does not mention keep their tool |
| `Graph.CreateAgentGraphWithTools` | neura/core/graph.py:121-141 | every tool is appended to the planner's list in order and registered in the executor in order |

## Left out

- The language models are oracles on a request value. The request carries
  what the prompt is built from.
- `json.loads` and `json.dumps` are oracles. The model does not parse or
  print JSON, and `dumps` is total on the values modelled.
- Tools are records with a name, a description and a total callable. Web
  search, scraping, memory, the CLI and the examples are not part of this
  model.
- The graph library, `compile`, `invoke`/`ainvoke` and async execution are
  not modelled. `Graph.Invoke` drives the two nodes itself, with fuel
  standing for the recursion limit. The source registers `should_continue`
  with `add_edge`; the model reads its pair as the conditional routing the
  code intends.
- Step ids and decision tool names must be strings. A non-string id and a
  non-string tool name both fail as malformed. Python would use an integer
  id as a cache key and would look up an integer tool name and report it
  "not found".
- A dependency that is not a string fails as malformed. Python would look a
  hashable value such as an integer up in the cache and report it with
  `Dependency ... not satisfied`.
- A non-empty dict used as a step's dependencies fails as malformed, because
  the model has no key order for it to iterate in. Python iterates the
  dict's keys.
- The wording of Python's built-in `TypeError`, `KeyError` and
  `AttributeError` messages is paraphrased in `ErrorText`. The texts the code
  builds itself are exact.
- A non-empty string or dict under `"steps"` fails before any step runs. In
  Python the loop fails at the first element, which has the same effect.
- Executor.ExecutorAgent.Process: holds only for a snapshot of the cache.
  Aliasing is not modelled. The source stores the cache object itself
  under `execution_results` (neura/agents/executor.py:166). The graph calls `process`
  again while `plan` stays in the context. From the second call on, results
  written by later steps show through `execution_results` at once: in the
  later prompts' `json.dumps(context)` and after a failing call, which leaves
  its partial results there. The model keeps the earlier snapshot instead.
  As written no result is ever cached, so the two agree on the code as it
  stands.
- ExecutorProperties.ExecuteFailure: says the context is unchanged, which
  holds for the snapshot only, for the reason above.
- The agent state shares its list and dict objects with the graph's state
  dict. The model copies values between them.
- The prompt builders are reduced to the fields `format` meets and the
  request value the prompt is built from. The prompt wording, model names,
  temperature and token limits are not modelled.
- `KeyErrorText` renders `repr` of a key by quoting it and escaping
  newlines only. That covers the two keys that arise here, which contain
  only a newline, spaces, letters and double quotes.
- `Value` has no float case. JSON numbers such as `0.5` from `json.loads`
  and float tool results are not represented.
- The executor's registry is a map. The order in which `_create_execution_prompt`
  lists it (insertion order) is lost; no property here depends on it.

## Findings

| source | as written | input that shows it | evidently intended | confidence | as-written member | corrected member |
|---|---|---|---|---|---|---|
| neura/agents/planner.py:70-86 | the plan example's braces are single, so `format` reads a field named newline, twelve spaces, `"steps"` and raises `KeyError` before the model is asked | any conversation with one message, e.g. `[{"role": "user", "content": "x"}]` | doubled braces, so the model is asked and its reply stored as `plan` | high; not executed | `Planner.PlanTurnRaisesAsWritten` | `Planner.PlanTurnEscaped` |
| neura/agents/executor.py:78-92 | the decision example's braces are single, so `format` raises `KeyError` for the field newline, twelve spaces, `"tool"`; no step reaches a tool and the cache never grows | a plan `{"steps": [{"id": "a"}]}` | doubled braces, so the model picks the tool and the step's result is cached | high; not executed | `ExecutorProperties.ExecuteAsWritten` | `ExecutorProperties.EscapedStepAsksModel` |
