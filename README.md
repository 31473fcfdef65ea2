# langgraph-learning, deterministic core in Dafny

This project models the deterministic parts of the langgraph-learning tutorials. Every call to a language model is treated as an input: the reply it returned. What remains is a set of small string parsers, state updates and transition tables:

- **Code-generation agent.** It has a code-fence extractor that takes code out of a model reply. It also has the generate / extract / review / execute state machine. Its steps write `continue`/`regenerate` statuses into a shared state dictionary, and two routing functions read them. Modules `CodeExtraction`, `DynamicAgent` and `CodeWorkflow`.
- **`custom_tool` decorator.** It turns a function's name, docstring and ordered, optionally annotated parameters into a nested tool definition, and wraps the function in a pass-through callable. Module `ToolDecorator`.
- **Reusable agents.** The tool-calling agent's registry, its tool-call executor and its reply assembly, plus the message list both agents send. Module `BaseAgent`.
- **Tool-result folding loops** of the ollama scripts. There are two failure disciplines:
  - a `try` per call, which skips failures;
  - one `try` around the loop, which aborts at the first failure.

  Module `ToolLoops`.
- **Router agent.** Enum decision, dispatch, and a fallback to the basic agent when the task type has no tool. Module `RouterAgent`.
- **Agent/action graphs** of the `05-*` scripts:
  - counters;
  - conditional overwrites;
  - first-tool-call selection;
  - verdict-to-edge mapping;
  - the stub tools' output sets;
  - the shared two-node transition table.

  Modules `StateManagement`, `ConditionalState` and `AgentActionGraph`.
- **Two demo graphs.** A counter-bounded joke loop, which provably tells exactly ten jokes, and a graph of string-suffix nodes. Modules `JokeLoop` and `ConditionalEdges`.

Shared helper modules:

| module | provides |
|---|---|
| `Common` | `Option`, `Result` |
| `Text` | Python `str.strip`, ASCII `str.lower`, `str.join` |
| `OrderedDict` | Python's insertion-ordered dict, as a sequence of pairs |
| `Tools` | Tool calls, and a callable's outcome (a return or a raise) |

Python exceptions are modelled as `Result`/`Option` values or outcome datatypes. A state dictionary that a node updates in place is modelled as a class with one field per key.

## Model

| member | source | states |
|---|---|---|
| `Text.Strip` | langgrapgh_dynamic_agent/agents.py:87 | The result is a slice of the input. Everything before and after it is whitespace under Python's `isspace` set. It neither starts nor ends with whitespace. |
| `Text.StripUnique` | langgrapgh_dynamic_agent/agents.py:87 | Any slice with those properties is `Strip`'s result, so `Strip` is exactly Python's `str.strip()`. |
| `Text.StrippedSliceIsSubstring` | langgrapgh_dynamic_agent/agents.py:87-113 | Stripping a slice of a text gives a substring of that text. |
| `Text.Lower` | tutorials/langchain/05-langgraph_state_management.py:171 | Same length as the input, and every character is mapped through ASCII lower-casing. |
| `CodeExtraction.Search` | langgrapgh_dynamic_agent/agents.py:81-83 | `re.search` of an open/lazy-group/close pattern. It finds a match iff one exists. When it does, the match starts at the leftmost opening where a close follows, and its group ends at the first close after the opening. The untagged fence refuses an opening followed by "python". |
| `CodeExtraction.Extract` | langgrapgh_dynamic_agent/agents.py:81-118 | Extraction succeeds exactly when the reply is non-empty. |
| `CodeExtraction.ExtractPriority` | langgrapgh_dynamic_agent/agents.py:81-116 | The branch taken is the first of these that matches anywhere in the reply: untagged fence, then `python` fence, then single backtick, then the whole text. |
| `CodeExtraction.LocateLeftmostLazy` | langgrapgh_dynamic_agent/agents.py:87-104 | In a fence branch, the text that `Extract` strips runs from the end of the leftmost matching opening to the first close after it. |
| `CodeExtraction.ExtractTrimmedSubstring` | langgrapgh_dynamic_agent/agents.py:87-113 | In every branch, the extracted code is a substring of the reply with no leading or trailing whitespace. |
| `CodeExtraction.NoBacktickTakesWholeText` | langgrapgh_dynamic_agent/agents.py:111-113 | A non-empty reply without a backtick is extracted whole, stripped. |
| `DynamicAgent.AgentState.constructor` | langgrapgh_dynamic_agent/workflow_langgrapgh_dynamic_agent.py:98-105 | The initial state holds the request and five empty texts. Neither status key is set. |
| `DynamicAgent.AgentState.Preprocess` | langgrapgh_dynamic_agent/agents.py:38-45 | Stores the preprocessor's reply; no other key changes. |
| `DynamicAgent.AgentState.Clear` | langgrapgh_dynamic_agent/agents.py:60-61 | `state[key] = ""` changes that one key only. |
| `DynamicAgent.AgentState.CodeGeneration` | langgrapgh_dynamic_agent/agents.py:51-68 | The four reset keys are cleared exactly when the generated code or the review result is "regenerate", and no other key changes. The generator's reply then replaces the generated code. |
| `DynamicAgent.AgentState.StoreExtraction` | langgrapgh_dynamic_agent/agents.py:86-118 | A found extraction stores its code and writes "continue". A missing one writes "regenerate" and keeps the old code. No other key changes. |
| `DynamicAgent.AgentState.ExtractCode` | langgrapgh_dynamic_agent/agents.py:75-123 | The status becomes "continue" iff the generated code is non-empty, and "regenerate" otherwise. On success the extracted code is `Extract`'s code. On failure it is left untouched. |
| `DynamicAgent.AgentState.CodeReview` | langgrapgh_dynamic_agent/agents.py:132-166 | The reply is stored only when it is a `CodeReviewResult`. The status becomes "continue" iff the reply's `result` is "correct"; a missing attribute gives "regenerate". |
| `DynamicAgent.ShouldContinueAfterExtraction` | langgrapgh_dynamic_agent/agents.py:125-130 | "continue" iff the status is "continue", "regenerate" for any other status, and `KeyError` when none was written. |
| `DynamicAgent.ShouldContinueAfterCodeReview` | langgrapgh_dynamic_agent/agents.py:168-173 | The same mapping for the review status. |
| `CodeWorkflow.Next` | langgrapgh_dynamic_agent/workflow_langgrapgh_dynamic_agent.py:20-45 | Only END has no successor. No edge leads back to the preprocessor. |
| `CodeWorkflow.Predecessor` | langgrapgh_dynamic_agent/workflow_langgrapgh_dynamic_agent.py:23-45 | END is entered only from execution. Execution is entered only after a "continue" review, and review only after a "continue" extraction. |
| `CodeWorkflow.PreprocessorRunsOnce` | langgrapgh_dynamic_agent/workflow_langgrapgh_dynamic_agent.py:20-45 | In any run the preprocessor appears exactly at position 0. |
| `CodeWorkflow.EndOnlyAfterPassingReview` | langgrapgh_dynamic_agent/workflow_langgrapgh_dynamic_agent.py:27-45 | Every run reaching END ends with: generation, extraction ("continue"), review ("continue"), execution, END. |
| `CodeWorkflow.EndIsLast` | langgrapgh_dynamic_agent/workflow_langgrapgh_dynamic_agent.py:45 | END can only be the last node of a run. |
| `ToolDecorator.Description` | tutorials/ollama_native/tool_decorator.py:11 | The stripped docstring when the docstring is a non-empty string, else "No description provided.". |
| `ToolDecorator.PropertyOf` | tutorials/ollama_native/tool_decorator.py:16-20 | The type is the annotation's class name or "unknown". The description is "The <name> parameter". |
| `ToolDecorator.Definition` | tutorials/ollama_native/tool_decorator.py:23-34 | Type "function", the function's name, its description, parameters of type "object", and every parameter name required in signature order. |
| `ToolDecorator.CustomTool` | tutorials/ollama_native/tool_decorator.py:5-37 | The wrapper returns or raises exactly what the function does for the same arguments, and carries the definition. |
| `ToolDecorator.PropertiesMatchSignature` | tutorials/ollama_native/tool_decorator.py:14-31 | `properties` has one entry per parameter, in order, keyed by its name. Its keys equal the `required` list. |
| `OrderedDict.Put` | tutorials/ollama_native/base_agent.py:132 | `d[k] = v`: `k` now maps to `v` and other keys keep their values. A new key is appended, and an existing key keeps its position. |
| `OrderedDict.FromPairsContents` | tutorials/ollama_native/base_agent.py:123-141 | Folding assignments gives each key once, in order of first assignment, holding its last assigned value. |
| `OrderedDict.LastValueAbsent` | tutorials/ollama_native/base_agent.py:123-141 | The last assigned value of a key is missing exactly when the key was never assigned. |
| `OrderedDict.LastValueOfLast` | tutorials/ollama_native/base_agent.py:123-141 | The last assigned value of a key is the value of its last assignment. |
| `OrderedDict.FromPairsOfDistinct` | tutorials/ollama_native/tool_decorator.py:14-20 | Assignments with distinct keys give exactly those pairs. |
| `BaseAgent.FullMessages` | tutorials/ollama_native/base_agent.py:65-68 | The system prompt comes first, then the caller's messages unchanged and in order. The same list is built at lines 145-148. |
| `BaseAgent.ExecuteResultContents` | tutorials/ollama_native/base_agent.py:121-141 | Result keys are the distinct called names, in first-call order. Each value comes from the last call with that name: the tool's value, `str(e)`, or "Tool not found.". Names never called are absent. |
| `BaseAgent.RunContentUnchangedIff` | tutorials/ollama_native/base_agent.py:151-157 | The reply text is returned unchanged iff there are no tool calls. It is always a prefix of the result. |
| `BaseAgent.StructuredResponseAgent.Run` | tutorials/ollama_native/base_agent.py:63-71 | Sends the system prompt and the messages, and returns the schema validator's verdict on the reply text. |
| `BaseAgent.ToolCallingAgent.constructor` | tutorials/ollama_native/base_agent.py:74-77 | A fresh agent has no tool definitions and no callables. |
| `BaseAgent.ToolCallingAgent.CustomTool` | tutorials/ollama_native/base_agent.py:79-112 | Builds the same definition as the standalone decorator, and passes every call through. |
| `BaseAgent.ToolCallingAgent.RegisterTool` | tutorials/ollama_native/base_agent.py:114-119 | Appends one definition, keeping earlier ones with the same name. Binds the function's name to the wrapper; other bindings are unchanged. |
| `BaseAgent.ToolCallingAgent.ExecuteToolCalls` | tutorials/ollama_native/base_agent.py:121-141 | The loop builds exactly the ordered dict characterised by `ExecuteResultContents`. |
| `BaseAgent.ToolCallingAgent.Run` | tutorials/ollama_native/base_agent.py:143-157 | Sends the full messages and the agent's tools. Returns the reply text followed by "\nTool Result (<name>): <result>" per result entry, in insertion order, only when there are tool calls. |
| `ToolLoops.Attempt` | tutorials/ollama_native/03-ollama-function-calling-basic.py:65-75 | A call yields a value iff its name is registered and the callable returns. |
| `ToolLoops.LabelledAppend` | tutorials/ollama_native/03-ollama-function-calling-basic.py:62-73 | The per-call fold distributes over concatenated call lists. |
| `ToolLoops.LabelledSuccess` | tutorials/ollama_native/03-ollama-function-calling-basic.py:67-73 | A successful call appends "\nTool Result (<name>): <result>". |
| `ToolLoops.LabelledSkipsFailure` | tutorials/ollama_native/03-ollama-function-calling-basic.py:65-75 | A failing call, unknown names included, appends nothing, and the later calls still contribute. |
| `ToolLoops.AppendToolResults` | tutorials/ollama_native/03-ollama-function-calling-basic.py:60-77 | The result is the reply text followed by the per-call fold, so the text is a prefix. With no tool calls the text is unchanged. The same loop is at 09-ollama-structured-response-function-calling.py:60-77 and in the router's specialized agent. |
| `ToolLoops.UnlabelledCompletesIff` | tutorials/ollama_native/01-ollama-structured-response-function-calling.py:60-69 | The whole-loop `try` runs to completion iff every call returns. |
| `ToolLoops.UnlabelledStopsAtFailure` | tutorials/ollama_native/01-ollama-structured-response-function-calling.py:60-69 | The first failure discards itself and all later calls, and keeps what was appended before it. |
| `ToolLoops.UnlabelledSuccess` | tutorials/ollama_native/01-ollama-structured-response-function-calling.py:62-67 | After successes, a successful call appends "\n<result>" with no label. |
| `ToolLoops.AppendResultsUntilFailure` | tutorials/ollama_native/01-ollama-structured-response-function-calling.py:60-72 | The result is the reply text followed by the aborting fold. Exceptions never escape, and with no tool calls the text is unchanged. |
| `RouterAgent.ParseAgentType` | tutorials/ollama_native/05-router-agent-function-calling.py:25-27 | Accepts exactly the enum values, and inverts `AgentTypeValue`. |
| `RouterAgent.ParseTaskType` | tutorials/ollama_native/05-router-agent-function-calling.py:29-32 | Accepts exactly the enum values, and inverts `TaskTypeValue`. |
| `RouterAgent.ParseDecision` | tutorials/ollama_native/05-router-agent-function-calling.py:35-37 | A decision exists iff the agent type is basic/specialized and the task type is weather/get_system_time/generic. |
| `RouterAgent.DecisionRoundTrip` | tutorials/ollama_native/05-router-agent-function-calling.py:35-37 | Every decision is recovered from its serialized fields. |
| `RouterAgent.ToolTable` | tutorials/ollama_native/05-router-agent-function-calling.py:11-14 | `TOOLS` has exactly the keys "weather" and "get_system_time", in that order. |
| `RouterAgent.ToolLookup` | tutorials/ollama_native/05-router-agent-function-calling.py:55-58 | `TOOLS.get(task_type.value)` is missing iff the task type is generic. |
| `Text.JoinThree` | tutorials/ollama_native/05-router-agent-function-calling.py:100 | `sep.join([a, b, c])` puts the separator between each neighbouring pair and nowhere else. |
| `RouterAgent.AvailableTaskTypesText` | tutorials/ollama_native/05-router-agent-function-calling.py:100 | The list is "'weather', 'get_system_time', 'generic'". |
| `RouterAgent.BasicAgent.HandleQuery` | tutorials/ollama_native/05-router-agent-function-calling.py:41-50 | Answers with the model's reply. |
| `RouterAgent.SpecializedAgent.constructor` | tutorials/ollama_native/05-router-agent-function-calling.py:11-19 | The agent reads the two module tables: definitions by task key, and callables by function name. |
| `RouterAgent.SpecializedAgent.HandleQuery` | tutorials/ollama_native/05-router-agent-function-calling.py:54-90 | With no tool for the task type, the basic agent answers. Otherwise that one tool is offered, and the reply gets a labelled line per successful call, in call order. |
| `RouterAgent.Router.constructor` | tutorials/ollama_native/05-router-agent-function-calling.py:94-96 | Creates both agents. |
| `RouterAgent.Router.Route` | tutorials/ollama_native/05-router-agent-function-calling.py:153-165 | BASIC gives the basic answer. SPECIALIZED with a generic task falls back to the basic answer. SPECIALIZED otherwise gives the tool-augmented reply. |
| `AgentActionGraph.Next` | tutorials/langchain/05-langgraph_state_management.py:189-202 | From `agent`, "continue" leads to `action` and "end" to END. `action` always leads back to `agent`. The same table is at tutorials/05-langgraph_state_management.py:164-177 and 05-conditional_state_management.py:90-106. |
| `AgentActionGraph.Alternates` | tutorials/langchain/05-langgraph_state_management.py:189-202 | Along any run, `agent` sits at even positions. `action` sits at odd positions after a "continue". END is last, after an "end". |
| `StateManagement.ShouldContinue` | tutorials/langchain/05-langgraph_state_management.py:142-162 | "continue" iff the verdict is an `Evaluation` whose result is False. True and non-`Evaluation` replies end. Same at tutorials/05-langgraph_state_management.py:117-137. |
| `StateManagement.AgentState.constructor` | tutorials/langchain/05-langgraph_state_management.py:222-227 | Both counters start at 0, and both responses hold the initial empty list. |
| `StateManagement.AgentState.Agent` | tutorials/langchain/05-langgraph_state_management.py:127-139 | `agent_call_count` rises by one. A non-None message is stored. Its content replaces `tool_response` only when present and non-empty. The counters move as `AfterAgent` says. Same at tutorials/05-langgraph_state_management.py:102-114. |
| `StateManagement.AgentState.CallTool` | tutorials/langchain/05-langgraph_state_management.py:164-185 | Only the first tool call runs, under its lowercased name, and no calls means no change. The call raises exactly when that name is unknown: `KeyError` with no change. A raising tool's exception is swallowed, so it returns and changes nothing. The counters move as `AfterAction` says, with "a tool returned" as its flag. A returning tool adds one to `tool_call_count`, and replaces `tool_response` when its output is not None. Same at tutorials/05-langgraph_state_management.py:139-160. |
| `StateManagement.CountersAlong` | tutorials/langchain/05-langgraph_state_management.py:131-174 | Each step applies the counter effect that `AgentState.Agent` or `AgentState.CallTool` ensures. Along a node sequence, `agent_call_count` equals the number of agent visits. `tool_call_count` stays between 0 and the number of action visits. |
| `ConditionalState.CurrentWeather` | 05-conditional_state_management.py:21-30 | The output is one of "Sunny, 78F", "Cold, 22F", "Rainy, 60F". It is "Sunny, 78F" iff the first draw is 0. |
| `ConditionalState.SystemTime` | 05-conditional_state_management.py:32-42 | The output is one of "2:00 AM", "3:00 PM", "6:15 PM". It is "2:00 AM" iff the first draw is 0. |
| `ConditionalState.StubOutputsReachable` | 05-conditional_state_management.py:21-42 | Every listed output is produced by some pair of draws. |
| `ConditionalState.Invoke` | 05-conditional_state_management.py:50-53 | Unknown names raise `KeyError`. Known tools raise only without `location`, and otherwise return a stub output. |
| `ConditionalState.ShouldContinue` | 05-conditional_state_management.py:59-67 | "end" iff the last message is an AI message without tool calls, and "continue" iff it has some. An empty history raises `IndexError`, and a non-AI last message raises `AttributeError`. |
| `ConditionalState.CallModel` | 05-conditional_state_management.py:70-74 | The update holds just the response, and passes the count through. |
| `ConditionalState.RouteAfterModel` | 05-conditional_state_management.py:56-74 | After the agent's update is appended, the route depends only on the model's response. |
| `ConditionalState.GraphState.constructor` | 05-conditional_state_management.py:125 | The graph starts from the given messages and count. |
| `ConditionalState.GraphState.CallTool` | 05-conditional_state_management.py:77-88 | Runs the first tool call of the last message, with no error handling. On success, the count rises by one in place and in the update. Any exception leaves the state unchanged. |
| `ConditionalState.GraphState.Apply` | 05-conditional_state_management.py:56 | Update messages are appended to the history (`operator.add`); the count is replaced. |
| `ConditionalState.CallToolUsesFirstCall` | 05-conditional_state_management.py:80-88 | A tool message answers the first call's id with a stub output, and the count rises by exactly one. An unknown lowercased name raises `KeyError`. |
| `JokeLoop.Next` | tutorials/03-conditional_edges_with_logic.py:42-52 | From `agent`, "tell_joke_condition" leads to `tell_joke` and "end_condition" to END. `tell_joke` returns to `agent`. |
| `JokeLoop.JokeGraph.constructor` | tutorials/03-conditional_edges_with_logic.py:12 | The counter starts at 0. |
| `JokeLoop.JokeGraph.Agent` | tutorials/03-conditional_edges_with_logic.py:17-18 | Returns its input unchanged. |
| `JokeLoop.JokeGraph.TellJoke` | tutorials/03-conditional_edges_with_logic.py:20-25 | Adds exactly one to the counter, and returns its input unchanged. |
| `JokeLoop.JokeGraph.Router` | tutorials/03-conditional_edges_with_logic.py:28-33 | "tell_joke_condition" iff the counter is below 10. |
| `JokeLoop.JokeGraph.Invoke` | tutorials/03-conditional_edges_with_logic.py:42-67 | From any counter, the run tells exactly `max(0, 10 - count)` jokes. It ends with the counter at `max(count, 10)` after `2 * jokes + 1` steps, never decreasing the counter. From 0 it tells 10 jokes in 21 steps. |
| `ConditionalEdges.Next` | 02-conditional-edges.py:42-50 | `entry` branches to `human` or `ai`. Both lead to `finish`, and `finish` leads to END. |
| `ConditionalEdges.Router` | 02-conditional-edges.py:27-31 | "human_node" iff the first message reads "human". |
| `ConditionalEdges.Entry` | 02-conditional-edges.py:12-13 | Returns its input unchanged. |
| `ConditionalEdges.Human` | 02-conditional-edges.py:15-17 | Appends " is not Amazing" to the first message only. |
| `ConditionalEdges.Ai` | 02-conditional-edges.py:19-21 | Appends " is Amazing" to the first message only. |
| `ConditionalEdges.Finish` | 02-conditional-edges.py:23-25 | Appends " always!" to the first message only. |
| `ConditionalEdges.FinalContent` | 02-conditional-edges.py:67 | "human" ends as "human is not Amazing always!". Any other text `t` ends as `t + " is Amazing always!"`. |
| `ConditionalEdges.Invoke` | 02-conditional-edges.py:36-53 | A run visits entry, the routed branch and finish. The message ends as original + branch suffix + " always!". |

## Left out

- Model calls are inputs, not behaviour. This covers `client.chat`, `ChatOllama`/`OllamaFunctions`, chain `.invoke`, `with_structured_output`, `BaseLLMAgent.generate_response`, and `Router.query_ollama_for_decision`. Each is replaced by the reply it produced. An exception raised by a model call is not modelled. An example is the reviewer call at langgrapgh_dynamic_agent/agents.py:135, which sits outside the `try`.
- `agent_execute_code_in_docker` (container and temporary-file I/O) is not modelled. It appears only as a node of the transition table.
- Not modelled (I/O, foreign-library behaviour or static text):
  - console output (`print`, `colored`), `input()` pauses, and `debug_message`;
  - graph PNG rendering and the state pretty-printer;
  - prompt templates and system prompt texts;
  - the request loop of the workflow script.
- langgraph execution is not modelled: reducers other than the declared `operator.add`, and the recursion limit. Only the declared transition tables are modelled. The runs in `JokeLoop.JokeGraph.Invoke` and `ConditionalEdges.Invoke` drive those tables directly.
- Pydantic parsing and validation are a parameter, e.g. the schema validator in `StructuredResponseAgent.Run`. Router decisions are modelled only as enum-value parsing. `ConditionalState.Invoke` models the tool-argument schema only as "needs `location`".
- Text.Lower: lowercases ASCII letters only; Python's full Unicode case mapping is not modelled.
- BaseAgent.ToolCallingAgent.ExecuteToolCalls: a tool is a function of its arguments. Two calls with equal arguments in one reply therefore get equal outcomes, and tools that draw random numbers per call are not captured beyond that.
- Tool values and exceptions are their string forms (`str(result)`, `str(e)`).
- StateManagement: the tools of `tutorials/langchain/tools.py` are a parameter `invoke`. tutorials/langchain/tools.py is not part of this model.
- RouterAgent.Router.Route: the `ValueError` branch of `route` is not modelled. With a two-valued enum it cannot be reached.
- The random draws of the tool stubs are parameters. The docstrings' "1/3 each" probability claims are not modelled.
- ConditionalEdges.Human, ConditionalEdges.Ai, ConditionalEdges.Finish and ConditionalEdges.Router require a non-empty message list. The node functions index `input[0]`, and the graph always passes the one invoked message.
- Scripts whose only logic is a model call or a print are not part of this model, and neither are the test-suite harnesses. `langgrapgh_dynamic_agent/models.py` is mirrored only as datatypes.
