/** The agent state record and the initialize/process/finalize lifecycle
    every agent shares (neura/agents/base.py). */
module Base {
  import opened Values

  /** The unit of data handed between the workflow's nodes. Agents update
      its message list and context in place. */
  class AgentState {
    var messages: seq<Message>
    var memory: map<string, Value>
    var context: map<string, Value>

    /** `AgentState()`: every field starts out empty. */
    constructor ()
      ensures messages == [] && memory == map[] && context == map[]
    {
      messages := [];
      memory := map[];
      context := map[];
    }

    /** `AgentState(messages=..., memory=..., context=...)`. */
    constructor Of(messages: seq<Message>, memory: map<string, Value>, context: map<string, Value>)
      ensures this.messages == messages && this.memory == memory && this.context == context
    {
      this.messages := messages;
      this.memory := memory;
      this.context := context;
    }
  }

  /** The part of an agent that `BaseAgent` implements: its name,
      description and whether it has been initialized. The planner and the
      executor each own one. */
  class BaseAgent {
    const name: string
    const description: Option<string>
    var initialized: bool

    /** A new agent is not initialized. */
    constructor (name: string, description: Option<string>)
      ensures this.name == name && this.description == description
      ensures !initialized
    {
      this.name := name;
      this.description := description;
      initialized := false;
    }

    /** Sets the flag; calling it on an initialized agent changes nothing. */
    method Initialize()
      modifies this
      ensures initialized
    {
      if !initialized {
        initialized := true;
      }
    }

    /** The default behaviour: initialize if needed, hand the state back untouched. */
    method Process(state: AgentState) returns (r: AgentState)
      modifies this
      ensures r == state && initialized
    {
      if !initialized {
        Initialize();
      }
      r := state;
    }

    /** Clears the flag, so that a later `Initialize` takes effect again. */
    method Finalize()
      modifies this
      ensures !initialized
    {
      initialized := false;
    }
  }
}
