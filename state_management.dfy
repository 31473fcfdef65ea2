/** The agent/action state updates of the two `05-langgraph_state_management`
    scripts, which share their node logic: an agent node that counts its
    calls and records the model's message, an evaluator verdict that routes,
    and an action node that runs the first tool call. Model replies and tool
    behaviour are parameters. */
module StateManagement {
  import opened Common
  import opened Text
  import opened Tools
  import opened AgentActionGraph

  /** The model's message: its content (possibly `None`) and tool calls. */
  datatype AIMessage = AIMessage(content: Option<string>, toolCalls: seq<ToolCall>)

  /** The `tool_response` slot: the initial empty list, or a text. */
  datatype ToolResponse = NoResponse | Response(text: string)

  /** What `tool.invoke(args)` does: return an output (maybe `None`) or raise. */
  datatype Invocation = Produced(output: Option<string>) | Failed(error: string)

  /** The evaluator's reply: an `Evaluation` with its boolean, or anything else. */
  datatype Verdict = Evaluation(result: bool) | NotEvaluation

  /** The exception that escapes `call_tool` for an unknown tool name. */
  datatype KeyError = KeyError(key: string)

  /** The keys of `tool_mapping`. */
  const ToolNames: set<string> := {"get_current_weather", "get_system_time"}

  /** `should_continue`: a True verdict ends, a False one continues, and a
      reply that is not an `Evaluation` ends. */
  function ShouldContinue(v: Verdict): (r: Route)
    ensures r == Continue <==> v == Evaluation(false)
  {
    match v
    case Evaluation(b) => if b then Finish else Continue
    case NotEvaluation => Finish
  }

  class AgentState {
    var researchQuestion: string
    var toolResponse: ToolResponse
    /** `None` while it holds the initial empty list, which has no tool calls. */
    var agentResponse: Option<AIMessage>
    var agentCallCount: int
    var toolCallCount: int

    /** The state the script starts from. */
    constructor (question: string)
      ensures researchQuestion == question
      ensures toolResponse == NoResponse && agentResponse == None
      ensures agentCallCount == 0 && toolCallCount == 0
    {
      researchQuestion := question;
      toolResponse := NoResponse;
      agentResponse := None;
      agentCallCount := 0;
      toolCallCount := 0;
    }

    /** `agent`: counts the call; a non-None message is stored, and its content
        replaces `tool_response` only when it is present and non-empty. */
    method Agent(reply: Option<AIMessage>)
      modifies this
      ensures agentCallCount == old(agentCallCount) + 1
      ensures agentResponse == if reply.Some? then reply else old(agentResponse)
      ensures toolResponse ==
        if reply.Some? && reply.value.content.Some? && reply.value.content.value != ""
        then Response(reply.value.content.value) else old(toolResponse)
      ensures researchQuestion == old(researchQuestion) && toolCallCount == old(toolCallCount)
      ensures Counts() == AfterAgent(old(Counts()))
    {
      agentCallCount := agentCallCount + 1;
      if reply.Some? {
        agentResponse := reply;
        var content := reply.value.content;
        if content.Some? && content.value != "" {
          toolResponse := Response(content.value);
        }
      }
    }

    /** `call_tool`: only the first tool call of the stored message runs, under
        its lowercased name. With no tool calls nothing changes. An unknown
        name raises `KeyError`, outside the `try`, and nothing changes. A
        raising tool changes nothing; a tool that returns adds one to
        `tool_call_count` and, when its output is not None, replaces
        `tool_response`. */
    method CallTool(invoke: (string, Args) -> Invocation) returns (r: Result<(), KeyError>)
      modifies this
      ensures (agentResponse.None? || agentResponse.value.toolCalls == []) ==> r.Ok? && Unchanged()
      ensures agentResponse.Some? && agentResponse.value.toolCalls != [] ==>
        var c := agentResponse.value.toolCalls[0];
        var name := Lower(c.name);
        (r.Err? <==> name !in ToolNames) && (r.Err? ==> r == Err(KeyError(name))) &&
        (name !in ToolNames ==> Unchanged()) &&
        (name in ToolNames ==>
          match invoke(name, c.arguments)
          case Failed(_) => Unchanged()
          case Produced(out) =>
            toolCallCount == old(toolCallCount) + 1 &&
            toolResponse == (if out.Some? then Response(out.value) else old(toolResponse)) &&
            researchQuestion == old(researchQuestion) && agentResponse == old(agentResponse) &&
            agentCallCount == old(agentCallCount))
      ensures Counts() == AfterAction(old(Counts()), old(ToolReturns(invoke)))
    {
      r := Ok(());
      if agentResponse.Some? && |agentResponse.value.toolCalls| > 0 {
        var c := agentResponse.value.toolCalls[0];
        var name := Lower(c.name);
        if name !in ToolNames {
          return Err(KeyError(name));
        }
        var outcome := invoke(name, c.arguments);
        match outcome {
          case Produced(out) =>
            toolCallCount := toolCallCount + 1;
            if out.Some? {
              toolResponse := Response(out.value);
            }
          case Failed(_) =>
        }
      }
    }

    /** The two counters of the state. */
    function Counts(): Counters
      reads this
    {
      Counters(agentCallCount, toolCallCount)
    }

    /** `call_tool` reaches a tool and that tool returns: the stored message
        has a tool call, its lowercased name is known and the tool does not
        raise. */
    predicate ToolReturns(invoke: (string, Args) -> Invocation)
      reads this
    {
      && agentResponse.Some? && agentResponse.value.toolCalls != []
      && var c := agentResponse.value.toolCalls[0];
      && Lower(c.name) in ToolNames && invoke(Lower(c.name), c.arguments).Produced?
    }

    /** No field differs from the state before the call. */
    twostate predicate Unchanged()
      reads this
    {
      researchQuestion == old(researchQuestion) && toolResponse == old(toolResponse) &&
      agentResponse == old(agentResponse) && agentCallCount == old(agentCallCount) &&
      toolCallCount == old(toolCallCount)
    }
  }

  /** The two counters of the state: `agent_call_count` and `tool_call_count`. */
  datatype Counters = Counters(agentCalls: int, toolCalls: int)

  /** The counters after the agent node (`AgentState.Agent` ensures it). */
  function AfterAgent(c: Counters): Counters {
    Counters(c.agentCalls + 1, c.toolCalls)
  }

  /** The counters after the action node, given whether a tool returned
      (`AgentState.CallTool` ensures it). */
  function AfterAction(c: Counters, toolReturned: bool): Counters {
    Counters(c.agentCalls, if toolReturned then c.toolCalls + 1 else c.toolCalls)
  }

  /** Counters along a run, each step being the effect that `AgentState.Agent`
      or `AgentState.CallTool` ensures: the agent count is the number of agent
      visits, and the tool count never exceeds the number of action visits. */
  function CountersAlong(nodes: seq<Node>, returned: seq<bool>): (c: Counters)
    requires |returned| == |nodes|
    ensures c.agentCalls == Visits(nodes, Agent)
    ensures 0 <= c.toolCalls <= Visits(nodes, Action)
  {
    if nodes == [] then Counters(0, 0)
    else
      var prev := CountersAlong(nodes[..|nodes| - 1], returned[..|returned| - 1]);
      match nodes[|nodes| - 1]
      case Agent => AfterAgent(prev)
      case Action => AfterAction(prev, returned[|returned| - 1])
      case End => prev
  }

  /** How often `n` occurs in `nodes`. */
  function Visits(nodes: seq<Node>, n: Node): nat {
    if nodes == [] then 0
    else Visits(nodes[..|nodes| - 1], n) + (if nodes[|nodes| - 1] == n then 1 else 0)
  }
}
