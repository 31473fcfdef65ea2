/** Python callables that the agents call as tools. The only parts of a call
    that the model sees are the tool-call record produced by the model reply
    and what running the callable produced. */
module Tools {
  /** Keyword arguments as parsed from the model's tool call. */
  type Args = map<string, string>

  /** A call either returns a value (shown through `str`) or raises an
      exception (shown through `str(e)`). */
  datatype Outcome = Returned(value: string) | Raised(error: string)

  /** One entry of a reply's `tool_calls`: the function name and arguments. */
  datatype ToolCall = ToolCall(name: string, arguments: Args)

  /** The names of a sequence of tool calls, in order. */
  function Names(calls: seq<ToolCall>): (ns: seq<string>)
    ensures |ns| == |calls|
    ensures forall i :: 0 <= i < |calls| ==> ns[i] == calls[i].name
  {
    seq(|calls|, i requires 0 <= i < |calls| => calls[i].name)
  }
}
