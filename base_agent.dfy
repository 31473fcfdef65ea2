/** The reusable agents: message assembly shared by both agents, and the
    tool-calling agent's registry, tool-call executor and reply assembly.
    The model call itself is a parameter: the reply it produced. */
module BaseAgent {
  import opened Common
  import opened OrderedDict
  import opened Tools
  import opened ToolDecorator
  import ToolLoops

  /** One chat message as sent to the model. */
  datatype ChatMessage = ChatMessage(role: string, content: string)

  /** The assistant message the model returned: its text and tool calls
      (an absent `tool_calls` is the empty sequence). */
  datatype AssistantReply = AssistantReply(content: string, toolCalls: seq<ToolCall>)

  const ToolNotFound := "Tool not found."

  /** The messages both `run` methods send: the system prompt first, then the
      caller's messages unchanged and in order. */
  function FullMessages(systemPrompt: string, messages: seq<ChatMessage>): (sent: seq<ChatMessage>)
    ensures |sent| == |messages| + 1
    ensures sent[0] == ChatMessage("system", systemPrompt)
    ensures forall i :: 0 <= i < |messages| ==> sent[i + 1] == messages[i]
  {
    [ChatMessage("system", systemPrompt)] + messages
  }

  /** The value `execute_tool_calls` records for one call. */
  function CallResult(registry: map<string, Wrapper>, c: ToolCall): string {
    if c.name in registry then
      match registry[c.name].call(c.arguments)
      case Returned(v) => v
      case Raised(e) => e
    else ToolNotFound
  }

  /** The assignments `results[name] = ...` the executor makes, one per call. */
  function ResultPairs(registry: map<string, Wrapper>, calls: seq<ToolCall>): (ps: seq<(string, string)>)
    ensures |ps| == |calls|
    ensures forall i :: 0 <= i < |calls| ==> ps[i] == (calls[i].name, CallResult(registry, calls[i]))
  {
    seq(|calls|, i requires 0 <= i < |calls| => (calls[i].name, CallResult(registry, calls[i])))
  }

  /** The dictionary `execute_tool_calls` returns. */
  function ExecuteSpec(registry: map<string, Wrapper>, calls: seq<ToolCall>): Dict<string> {
    FromPairs(ResultPairs(registry, calls))
  }

  /** `i` is the last call with its name. */
  ghost predicate IsLastCall(calls: seq<ToolCall>, i: int) {
    0 <= i < |calls| && forall j :: i < j < |calls| ==> calls[j].name != calls[i].name
  }

  /** The results hold one entry per distinct called name, in order of first
      call; each holds what the last call with that name produced: the tool's
      value, the text of its exception, or "Tool not found." for a name that
      is not registered. Names never called have no entry. */
  lemma ExecuteResultContents(registry: map<string, Wrapper>, calls: seq<ToolCall>)
    ensures Keys(ExecuteSpec(registry, calls)) == Dedup(Names(calls))
    ensures forall k :: k !in Names(calls) ==> Get(ExecuteSpec(registry, calls), k) == None
    ensures forall i :: IsLastCall(calls, i) ==> Get(ExecuteSpec(registry, calls), calls[i].name) == Some(CallResult(registry, calls[i]))
    ensures forall i :: IsLastCall(calls, i) && calls[i].name !in registry ==>
      Get(ExecuteSpec(registry, calls), calls[i].name) == Some(ToolNotFound)
  {
    var pairs := ResultPairs(registry, calls);
    assert Keys(pairs) == Names(calls);
    FromPairsContents(pairs);
    forall k | k !in Names(calls) ensures Get(FromPairs(pairs), k) == None {
      LastValueAbsent(pairs, k);
    }
    forall i | IsLastCall(calls, i)
      ensures Get(FromPairs(pairs), calls[i].name) == Some(CallResult(registry, calls[i]))
    {
      assert IsLastOf(pairs, i);
      LastValueOfLast(pairs, i);
    }
  }

  /** The line `run` appends for one result entry. */
  function ResultLine(entry: (string, string)): string {
    ToolLoops.LabelledLine(entry.0, entry.1)
  }

  /** The text appended for all result entries, in insertion order. */
  function ResultsText(results: Dict<string>): string {
    if |results| == 0 then ""
    else ResultsText(results[..|results| - 1]) + ResultLine(results[|results| - 1])
  }

  /** The text `run` returns for a reply. */
  function RunContent(registry: map<string, Wrapper>, reply: AssistantReply): string {
    if reply.toolCalls == [] then reply.content
    else reply.content + ResultsText(ExecuteSpec(registry, reply.toolCalls))
  }

  /** The reply's text is returned unchanged exactly when it has no tool
      calls; otherwise it is extended, and the reply's text stays a prefix. */
  lemma RunContentUnchangedIff(registry: map<string, Wrapper>, reply: AssistantReply)
    ensures RunContent(registry, reply) == reply.content <==> reply.toolCalls == []
    ensures reply.content <= RunContent(registry, reply)
  {
    if reply.toolCalls != [] {
      var results := ExecuteSpec(registry, reply.toolCalls);
      ExecuteResultContents(registry, reply.toolCalls);
      assert reply.toolCalls[0].name in Names(reply.toolCalls);
      assert results != [];
      ResultsTextNonEmpty(results);
    }
  }

  /** Each result entry contributes a non-empty line. */
  lemma ResultsTextNonEmpty(results: Dict<string>)
    requires results != []
    ensures |ResultsText(results)| > 0
  {
    assert |ResultLine(results[|results| - 1])| > 0;
  }

  /** `ResultsText` of one more entry appends that entry's line. */
  lemma ResultsTextSnoc(results: Dict<string>, i: nat)
    requires i < |results|
    ensures ResultsText(results[..i + 1]) == ResultsText(results[..i]) + ResultLine(results[i])
  {
    assert results[..i + 1][..i] == results[..i];
  }

  /** Appending the next entry's line to a text that ends with the lines of
      the first `i` entries gives one that ends with the lines of `i + 1`. */
  lemma AppendResultLine(prefix: string, results: Dict<string>, i: nat)
    requires i < |results|
    ensures prefix + ResultsText(results[..i]) + ResultLine(results[i]) == prefix + ResultsText(results[..i + 1])
  {
    ResultsTextSnoc(results, i);
    var x, y := ResultsText(results[..i]), ResultLine(results[i]);
    assert prefix + x + y == prefix + (x + y);
  }

  /** A structured-response agent: the reply text is parsed by the schema's
      validator, a parameter here, whose failure is re-raised. */
  class StructuredResponseAgent {
    var systemPrompt: string
    var modelName: string
    var debug: bool

    constructor (systemPrompt: string, modelName: string, debug: bool)
      ensures this.systemPrompt == systemPrompt && this.modelName == modelName && this.debug == debug
    {
      this.systemPrompt := systemPrompt;
      this.modelName := modelName;
      this.debug := debug;
    }

    /** `run`: the messages sent, and the parse of the model's reply text. */
    method Run<M>(messages: seq<ChatMessage>, replyText: string, parse: string -> Result<M, string>)
      returns (sent: seq<ChatMessage>, parsed: Result<M, string>)
      ensures sent == FullMessages(systemPrompt, messages)
      ensures parsed == parse(replyText)
    {
      sent := [ChatMessage("system", systemPrompt)] + messages;
      parsed := parse(replyText);
    }
  }

  /** A tool-calling agent: the definitions it advertises and the callables
      it can run, by name. */
  class ToolCallingAgent {
    var systemPrompt: string
    var modelName: string
    var debug: bool
    var tools: seq<ToolDefinition>
    var toolFunctions: map<string, Wrapper>

    constructor (systemPrompt: string, modelName: string, debug: bool)
      ensures this.systemPrompt == systemPrompt && this.modelName == modelName && this.debug == debug
      ensures tools == [] && toolFunctions == map[]
    {
      this.systemPrompt := systemPrompt;
      this.modelName := modelName;
      this.debug := debug;
      tools := [];
      toolFunctions := map[];
    }

    /** The agent's own copy of `custom_tool`: it builds the same definition as
        the standalone decorator and passes every call through. */
    function CustomTool(f: PyFunction): (w: Wrapper)
      ensures w.toolDefinition == Definition(f)
      ensures forall args :: w.call(args) == f.body(args)
    {
      ToolDecorator.CustomTool(f)
    }

    /** `register_tool`: appends one definition (earlier ones with the same
        name stay) and binds the function's name to the wrapper, replacing
        any earlier binding of that name only. */
    method RegisterTool(f: PyFunction) returns (w: Wrapper)
      modifies this
      ensures w.toolDefinition == Definition(f)
      ensures forall args :: w.call(args) == f.body(args)
      ensures tools == old(tools) + [Definition(f)]
      ensures f.name in toolFunctions && toolFunctions[f.name] == w
      ensures toolFunctions.Keys == old(toolFunctions).Keys + {f.name}
      ensures forall n :: n in old(toolFunctions) && n != f.name ==> toolFunctions[n] == old(toolFunctions)[n]
      ensures systemPrompt == old(systemPrompt) && modelName == old(modelName) && debug == old(debug)
    {
      w := CustomTool(f);
      var definition := w.toolDefinition;
      var bound := toolFunctions[f.name := w];
      assert bound.Keys == toolFunctions.Keys + {f.name};
      tools := tools + [definition];
      toolFunctions := bound;
    }

    /** `execute_tool_calls`: runs every call in order and records its value
        under the call's name. */
    method ExecuteToolCalls(calls: seq<ToolCall>) returns (results: Dict<string>)
      ensures results == ExecuteSpec(toolFunctions, calls)
    {
      ghost var pairs := ResultPairs(toolFunctions, calls);
      results := [];
      for i := 0 to |calls|
        invariant results == FromPairs(pairs[..i])
      {
        var c := calls[i];
        var value: string;
        if c.name in toolFunctions {
          var outcome := toolFunctions[c.name].call(c.arguments);
          match outcome {
            case Returned(v) => value := v;
            case Raised(e) => value := e;
          }
        } else {
          value := ToolNotFound;
        }
        assert pairs[..i + 1][..i] == pairs[..i];
        results := Put(results, c.name, value);
      }
      assert pairs[..|calls|] == pairs;
    }

    /** `run`: sends the system prompt, the messages and the tool definitions;
        when the reply has tool calls, runs them and appends one result line
        per entry of the results, in insertion order. */
    method Run(messages: seq<ChatMessage>, reply: AssistantReply)
      returns (sent: seq<ChatMessage>, sentTools: seq<ToolDefinition>, content: string)
      ensures sent == FullMessages(systemPrompt, messages)
      ensures sentTools == tools
      ensures content == RunContent(toolFunctions, reply)
    {
      sent := [ChatMessage("system", systemPrompt)] + messages;
      sentTools := tools;
      content := reply.content;
      if reply.toolCalls != [] {
        var results := ExecuteToolCalls(reply.toolCalls);
        for i := 0 to |results|
          invariant content == reply.content + ResultsText(results[..i])
        {
          AppendResultLine(reply.content, results, i);
          content := content + ResultLine(results[i]);
        }
        assert results[..|results|] == results;
      }
    }
  }
}
