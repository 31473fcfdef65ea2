/** The message-history variant of the agent/action graph: node outputs are
    update dictionaries whose `messages` are appended to the history
    (`operator.add`) and whose `api_call_count` replaces the old count. The
    two tools are stubs whose outputs depend on two `randint(0, 2)` draws,
    which are parameters here. */
module ConditionalState {
  import opened Common
  import opened Text
  import opened Tools
  import opened AgentActionGraph

  /** A tool call of an AI message: name, arguments and call id. */
  datatype CallRecord = CallRecord(name: string, args: Args, id: string)

  /** The messages of the history. Only AI messages have `tool_calls`. */
  datatype Message =
    | SystemMessage(content: string)
    | HumanMessage(content: string)
    | AIMessage(content: string, toolCalls: seq<CallRecord>)
    | ToolMessage(content: string, toolCallId: string)

  /** The exceptions the nodes and the router can raise. */
  datatype Error =
    | IndexError            // `messages[-1]` of an empty history, or `tool_calls[0]` of none
    | AttributeError        // `tool_calls` of a message that is not an AI message
    | KeyError(key: string) // a tool name missing from `tool_mapping`
    | ValidationError       // the tool's arguments lack `location`

  /** What a node returns: the messages to append and the new count. */
  datatype Update = Update(messages: seq<Message>, apiCallCount: int)

  /** `random.randint(0, 2)`. */
  type Draw = d: int | 0 <= d <= 2

  /** The weather stub: a first draw of 0 gives "Sunny, 78F"; otherwise a
      second, independent draw of 1 gives "Cold, 22F", else "Rainy, 60F". */
  function CurrentWeather(d1: Draw, d2: Draw): (s: string)
    ensures s in {"Sunny, 78F", "Cold, 22F", "Rainy, 60F"}
    ensures s == "Sunny, 78F" <==> d1 == 0
  {
    if d1 == 0 then "Sunny, 78F" else if d2 == 1 then "Cold, 22F" else "Rainy, 60F"
  }

  /** The time stub, shaped like the weather stub. */
  function SystemTime(d1: Draw, d2: Draw): (s: string)
    ensures s in {"2:00 AM", "3:00 PM", "6:15 PM"}
    ensures s == "2:00 AM" <==> d1 == 0
  {
    if d1 == 0 then "2:00 AM" else if d2 == 1 then "3:00 PM" else "6:15 PM"
  }

  /** Every output of either stub is produced by some pair of draws. */
  lemma StubOutputsReachable(s: string)
    ensures s in {"Sunny, 78F", "Cold, 22F", "Rainy, 60F"} ==> exists d1: Draw, d2: Draw :: CurrentWeather(d1, d2) == s
    ensures s in {"2:00 AM", "3:00 PM", "6:15 PM"} ==> exists d1: Draw, d2: Draw :: SystemTime(d1, d2) == s
  {
    var zero: Draw, one: Draw, two: Draw := 0, 1, 2;
    assert CurrentWeather(zero, zero) == "Sunny, 78F" && SystemTime(zero, zero) == "2:00 AM";
    assert CurrentWeather(one, one) == "Cold, 22F" && SystemTime(one, one) == "3:00 PM";
    assert CurrentWeather(one, two) == "Rainy, 60F" && SystemTime(one, two) == "6:15 PM";
  }

  /** `tool.invoke(args)` for the two entries of `tool_mapping`; the argument
      schema needs `location`. */
  function Invoke(name: string, args: Args, d1: Draw, d2: Draw): (r: Result<string, Error>)
    ensures name !in {"get_current_weather", "get_system_time"} ==> r == Err(KeyError(name))
    ensures name in {"get_current_weather", "get_system_time"} ==> (r.Err? <==> "location" !in args)
    ensures r.Ok? ==> r.value in {"Sunny, 78F", "Cold, 22F", "Rainy, 60F", "2:00 AM", "3:00 PM", "6:15 PM"}
  {
    if name == "get_current_weather" then
      if "location" in args then Ok(CurrentWeather(d1, d2)) else Err(ValidationError)
    else if name == "get_system_time" then
      if "location" in args then Ok(SystemTime(d1, d2)) else Err(ValidationError)
    else Err(KeyError(name))
  }

  /** `should_continue`: "end" exactly when the last message has no tool calls. */
  function ShouldContinue(messages: seq<Message>): (r: Result<Route, Error>)
    ensures messages == [] <==> r == Err(IndexError)
    ensures messages != [] && !messages[|messages| - 1].AIMessage? <==> r == Err(AttributeError)
    ensures r == Ok(Finish) <==> messages != [] && messages[|messages| - 1].AIMessage? && messages[|messages| - 1].toolCalls == []
    ensures r == Ok(Continue) <==> messages != [] && messages[|messages| - 1].AIMessage? && messages[|messages| - 1].toolCalls != []
  {
    if messages == [] then Err(IndexError)
    else
      match messages[|messages| - 1]
      case AIMessage(_, calls) => Ok(if calls == [] then Finish else Continue)
      case _ => Err(AttributeError)
  }

  /** `call_model`: the model's response as the only new message, and the
      count passed through. */
  function CallModel(count: int, response: Message): (u: Update)
    ensures u.messages == [response] && u.apiCallCount == count
  {
    Update([response], count)
  }

  /** The graph state: the message history and the call count. */
  class GraphState {
    var messages: seq<Message>
    var apiCallCount: int

    constructor (initial: seq<Message>, count: int)
      ensures messages == initial && apiCallCount == count
    {
      messages := initial;
      apiCallCount := count;
    }

    /** `call_tool`: runs the first tool call of the last message under its
        lowercased name, with no error handling: any exception leaves the
        state as it was. On success it adds one to the count in place and
        returns a tool message carrying the output and the call's id. */
    method CallTool(d1: Draw, d2: Draw) returns (r: Result<Update, Error>)
      modifies this
      ensures messages == old(messages)
      ensures r.Ok? ==> apiCallCount == old(apiCallCount) + 1 && r.value.apiCallCount == apiCallCount
      ensures r.Err? ==> apiCallCount == old(apiCallCount)
      ensures r == CallToolSpec(old(messages), old(apiCallCount), d1, d2)
    {
      if messages == [] {
        return Err(IndexError);
      }
      var last := messages[|messages| - 1];
      if !last.AIMessage? {
        return Err(AttributeError);
      }
      if last.toolCalls == [] {
        return Err(IndexError);
      }
      var call := last.toolCalls[0];
      var output := Invoke(Lower(call.name), call.args, d1, d2);
      if output.Err? {
        return Err(output.error);
      }
      apiCallCount := apiCallCount + 1;
      r := Ok(Update([ToolMessage(output.value, call.id)], apiCallCount));
    }

    /** Applying a node's update: its messages are appended, its count replaces
        the old one. */
    method Apply(u: Update)
      modifies this
      ensures messages == old(messages) + u.messages
      ensures apiCallCount == u.apiCallCount
    {
      messages := messages + u.messages;
      apiCallCount := u.apiCallCount;
    }
  }

  /** What `call_tool` returns for a history and count. */
  function CallToolSpec(messages: seq<Message>, count: int, d1: Draw, d2: Draw): Result<Update, Error> {
    if messages == [] then Err(IndexError)
    else
      var last := messages[|messages| - 1];
      if !last.AIMessage? then Err(AttributeError)
      else if last.toolCalls == [] then Err(IndexError)
      else
        var call := last.toolCalls[0];
        match Invoke(Lower(call.name), call.args, d1, d2)
        case Err(e) => Err(e)
        case Ok(out) => Ok(Update([ToolMessage(out, call.id)], count + 1))
  }

  /** Only the first tool call of the last message matters: on success the
      new message answers that call's id with one of the stub outputs, and
      the count rises by exactly one. A call whose lowercased name is not a
      tool raises `KeyError`. */
  lemma CallToolUsesFirstCall(messages: seq<Message>, count: int, d1: Draw, d2: Draw)
    requires messages != [] && messages[|messages| - 1].AIMessage?
    requires messages[|messages| - 1].toolCalls != []
    ensures var call := messages[|messages| - 1].toolCalls[0];
      var r := CallToolSpec(messages, count, d1, d2);
      (Lower(call.name) !in {"get_current_weather", "get_system_time"} ==> r == Err(KeyError(Lower(call.name)))) &&
      (r.Ok? ==>
         r.value.apiCallCount == count + 1 && |r.value.messages| == 1 &&
         r.value.messages[0].ToolMessage? && r.value.messages[0].toolCallId == call.id &&
         r.value.messages[0].content in {"Sunny, 78F", "Cold, 22F", "Rainy, 60F", "2:00 AM", "3:00 PM", "6:15 PM"})
  {
  }

  /** After the agent node's update is appended, the route depends only on
      the model's response: "continue" exactly when it is an AI message with
      tool calls, whatever the history before it. */
  lemma RouteAfterModel(history: seq<Message>, count: int, response: Message)
    ensures var h := history + CallModel(count, response).messages;
      ShouldContinue(h) == ShouldContinue([response]) &&
      (ShouldContinue(h) == Ok(Continue) <==> response.AIMessage? && response.toolCalls != [])
  {
    var h := history + [response];
    assert h[|h| - 1] == response;
  }
}
