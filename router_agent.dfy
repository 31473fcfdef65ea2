/** The router agent: a routing decision (two enums) selects a basic agent,
    which answers directly, or a specialized agent, which offers the model the
    tool for the task type and appends the results of the tool calls, falling
    back to the basic agent when there is no tool for the task type. Model
    replies are parameters; the two decorated tool functions are inputs. */
module RouterAgent {
  import opened Common
  import opened Text
  import opened OrderedDict
  import opened Tools
  import opened ToolDecorator
  import opened ToolLoops

  datatype AgentType = Basic | Specialized

  datatype TaskType = Weather | SystemTime | Generic

  datatype RouterDecision = RouterDecision(agentType: AgentType, taskType: TaskType)

  /** The string value of each agent type. */
  function AgentTypeValue(a: AgentType): string {
    match a
    case Basic => "basic"
    case Specialized => "specialized"
  }

  /** The string value of each task type. */
  function TaskTypeValue(t: TaskType): string {
    match t
    case Weather => "weather"
    case SystemTime => "get_system_time"
    case Generic => "generic"
  }

  /** Validating a string against the agent-type enum. */
  function ParseAgentType(s: string): (r: Option<AgentType>)
    ensures r.Some? ==> AgentTypeValue(r.value) == s
    ensures forall a :: AgentTypeValue(a) == s ==> r == Some(a)
  {
    if s == "basic" then Some(Basic)
    else if s == "specialized" then Some(Specialized)
    else None
  }

  /** Validating a string against the task-type enum. */
  function ParseTaskType(s: string): (r: Option<TaskType>)
    ensures r.Some? ==> TaskTypeValue(r.value) == s
    ensures forall t :: TaskTypeValue(t) == s ==> r == Some(t)
  {
    if s == "weather" then Some(Weather)
    else if s == "get_system_time" then Some(SystemTime)
    else if s == "generic" then Some(Generic)
    else None
  }

  /** Validating the two fields of a decision: it exists exactly when both
      strings are values of their enums, so a decision never holds anything
      else. */
  function ParseDecision(agentType: string, taskType: string): (r: Option<RouterDecision>)
    ensures r.Some? <==> agentType in {"basic", "specialized"} && taskType in {"weather", "get_system_time", "generic"}
    ensures r.Some? ==> AgentTypeValue(r.value.agentType) == agentType && TaskTypeValue(r.value.taskType) == taskType
  {
    match (ParseAgentType(agentType), ParseTaskType(taskType))
    case (Some(a), Some(t)) => Some(RouterDecision(a, t))
    case _ => None
  }

  /** Every decision is recovered from its serialized fields. */
  lemma DecisionRoundTrip(d: RouterDecision)
    ensures ParseDecision(AgentTypeValue(d.agentType), TaskTypeValue(d.taskType)) == Some(d)
  {
  }

  /** `TOOLS`: the definitions of the two decorated tools under their task keys. */
  function ToolTable(weather: Wrapper, systemTime: Wrapper): (table: Dict<ToolDefinition>)
    ensures Keys(table) == TaskKeys
  {
    [("weather", weather.toolDefinition), ("get_system_time", systemTime.toolDefinition)]
  }

  /** `tool_functions`: the two decorated tools under their function names. */
  function ToolFunctions(weather: Wrapper, systemTime: Wrapper): Registry {
    map["get_current_weather" := weather.call, "get_system_time" := systemTime.call]
  }

  /** The keys of `TOOLS`, in order. */
  const TaskKeys: seq<string> := ["weather", "get_system_time"]

  /** `TOOLS.get(task_type.value)`: only the generic task type has no tool. */
  lemma ToolLookup(table: Dict<ToolDefinition>, t: TaskType)
    requires Keys(table) == TaskKeys
    ensures Get(table, TaskTypeValue(t)).None? <==> t == Generic
  {
  }

  /** Each key quoted, then 'generic', joined by ", ". */
  function AvailableTaskTypes(table: Dict<ToolDefinition>): (s: string) {
    Join(", ", QuotedKeys(Keys(table)) + ["'generic'"])
  }

  /** Every key wrapped in single quotes, in order. */
  function QuotedKeys(keys: seq<string>): (qs: seq<string>)
    ensures |qs| == |keys|
    ensures forall i :: 0 <= i < |keys| ==> qs[i] == "'" + keys[i] + "'"
  {
    seq(|keys|, i requires 0 <= i < |keys| => "'" + keys[i] + "'")
  }

  /** The task types listed to the routing model are exactly the enum values,
      in declaration order. */
  lemma AvailableTaskTypesText(weather: Wrapper, systemTime: Wrapper)
    ensures AvailableTaskTypes(ToolTable(weather, systemTime)) == "'weather', 'get_system_time', 'generic'"
  {
    QuotedTaskKeys();
    var parts := QuotedKeys(TaskKeys) + ["'generic'"];
    assert parts == ["'weather'", "'get_system_time'", "'generic'"];
    JoinThree(", ", "'weather'", "'get_system_time'", "'generic'");
    TaskTypesLine();
  }

  /** The two tool keys, quoted. */
  lemma QuotedTaskKeys()
    ensures QuotedKeys(TaskKeys) == ["'weather'", "'get_system_time'"]
  {
    var quoted := QuotedKeys(TaskKeys);
    assert quoted[0] == "'" + "weather" + "'" == "'weather'";
    assert quoted[1] == "'" + "get_system_time" + "'" == "'get_system_time'";
  }

  /** The three quoted task types joined by ", ". */
  lemma TaskTypesLine()
    ensures "'weather'" + ", " + "'get_system_time'" + ", " + "'generic'"
         == "'weather', 'get_system_time', 'generic'"
  {
  }

  /** The basic agent answers with the model's reply. */
  class BasicAgent {
    constructor ()
    {
    }

    method HandleQuery(query: string, reply: string) returns (answer: string)
      ensures answer == reply
    {
      answer := reply;
    }
  }

  /** The specialized agent, reading the module's tool table and callables. */
  class SpecializedAgent {
    var tools: Dict<ToolDefinition>
    var toolFunctions: Registry

    constructor (weather: Wrapper, systemTime: Wrapper)
      ensures tools == ToolTable(weather, systemTime)
      ensures toolFunctions == ToolFunctions(weather, systemTime)
    {
      tools := ToolTable(weather, systemTime);
      toolFunctions := ToolFunctions(weather, systemTime);
    }

    /** `handle_query`: with no tool for the task type the basic agent answers
        (`basicReply`); otherwise the one tool is offered to the model and the
        reply's text gets a labelled line per successful call, in call order. */
    method HandleQuery(query: string, t: TaskType, basicReply: string, reply: AssistantText)
      returns (offered: seq<ToolDefinition>, answer: string)
      ensures Get(tools, TaskTypeValue(t)).None? ==> offered == [] && answer == basicReply
      ensures Get(tools, TaskTypeValue(t)).Some? ==>
        offered == [Get(tools, TaskTypeValue(t)).value] &&
        answer == reply.content + Labelled(toolFunctions, reply.toolCalls)
    {
      var tool := Get(tools, TaskTypeValue(t));
      if tool.None? {
        var basic := new BasicAgent();
        offered := [];
        answer := basic.HandleQuery(query, basicReply);
        return;
      }
      offered := [tool.value];
      answer := AppendToolResults(toolFunctions, reply.content, reply.toolCalls);
    }
  }

  /** What the model returned to the specialized agent: text and tool calls. */
  datatype AssistantText = AssistantText(content: string, toolCalls: seq<ToolCall>)

  class Router {
    var basicAgent: BasicAgent
    var specializedAgent: SpecializedAgent

    /** The specialized agent reads a tool table with the two task keys. */
    predicate Valid()
      reads this, specializedAgent
    {
      Keys(specializedAgent.tools) == TaskKeys
    }

    constructor (weather: Wrapper, systemTime: Wrapper)
      ensures Valid()
      ensures fresh(basicAgent) && fresh(specializedAgent)
      ensures specializedAgent.tools == ToolTable(weather, systemTime)
      ensures specializedAgent.toolFunctions == ToolFunctions(weather, systemTime)
    {
      basicAgent := new BasicAgent();
      specializedAgent := new SpecializedAgent(weather, systemTime);
    }

    /** `route`: the basic agent for BASIC, the specialized agent with the
        decision's task type for SPECIALIZED. The specialized agent's answer
        comes from the tools exactly when the task type is not generic. */
    method Route(query: string, decision: RouterDecision, basicReply: string, reply: AssistantText)
      returns (answer: string)
      requires Valid()
      ensures decision.agentType == Basic ==> answer == basicReply
      ensures decision.agentType == Specialized && decision.taskType == Generic ==> answer == basicReply
      ensures decision.agentType == Specialized && decision.taskType != Generic ==>
        answer == reply.content + Labelled(specializedAgent.toolFunctions, reply.toolCalls)
    {
      match decision.agentType
      case Basic =>
        answer := basicAgent.HandleQuery(query, basicReply);
      case Specialized =>
        ToolLookup(specializedAgent.tools, decision.taskType);
        var offered;
        offered, answer := specializedAgent.HandleQuery(query, decision.taskType, basicReply, reply);
    }
  }
}
