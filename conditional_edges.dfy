/** The suffix graph: `entry` routes on the first message's content to
    `human` or `ai`, each of which appends its suffix to that content in
    place, and both lead to `finish`, which appends " always!". */
module ConditionalEdges {
  datatype Node = EntryNode | HumanNode | AiNode | FinishNode | EndNode

  /** The router's labels. */
  datatype Branch = ToHuman | ToAi

  const HumanSuffix := " is not Amazing"
  const AiSuffix := " is Amazing"
  const FinishSuffix := " always!"

  /** The declared edges; only `entry` has a conditional edge. */
  function Next(n: Node, b: Branch): (r: Node)
    requires n != EndNode
    ensures r == HumanNode <==> n == EntryNode && b == ToHuman
    ensures r == AiNode <==> n == EntryNode && b == ToAi
    ensures r == FinishNode <==> n == HumanNode || n == AiNode
    ensures r == EndNode <==> n == FinishNode
  {
    match n
    case EntryNode => if b.ToHuman? then HumanNode else AiNode
    case HumanNode => FinishNode
    case AiNode => FinishNode
    case FinishNode => EndNode
  }

  /** A chat message whose content the nodes extend in place. */
  class HumanMessage {
    var content: string

    constructor (content: string)
      ensures this.content == content
    {
      this.content := content;
    }
  }

  /** `router_node1_node_2_or_node_3`: the human branch exactly when the first
      message reads "human". */
  function Router(input: seq<HumanMessage>): (b: Branch)
    requires |input| > 0
    reads input[0]
    ensures b == ToHuman <==> input[0].content == "human"
  {
    if input[0].content == "human" then ToHuman else ToAi
  }

  /** `entry`: returns its input untouched. */
  method Entry(input: seq<HumanMessage>) returns (output: seq<HumanMessage>)
    ensures output == input
  {
    output := input;
  }

  /** Appends `suffix` to the first message's content; nothing else changes. */
  method AppendToFirst(input: seq<HumanMessage>, suffix: string) returns (output: seq<HumanMessage>)
    requires |input| > 0
    modifies input[0]
    ensures input[0].content == old(input[0].content) + suffix
    ensures output == input
  {
    input[0].content := input[0].content + suffix;
    output := input;
  }

  /** `human`. */
  method Human(input: seq<HumanMessage>) returns (output: seq<HumanMessage>)
    requires |input| > 0
    modifies input[0]
    ensures input[0].content == old(input[0].content) + HumanSuffix
    ensures output == input
  {
    output := AppendToFirst(input, HumanSuffix);
  }

  /** `ai`. */
  method Ai(input: seq<HumanMessage>) returns (output: seq<HumanMessage>)
    requires |input| > 0
    modifies input[0]
    ensures input[0].content == old(input[0].content) + AiSuffix
    ensures output == input
  {
    output := AppendToFirst(input, AiSuffix);
  }

  /** `finish`. */
  method Finish(input: seq<HumanMessage>) returns (output: seq<HumanMessage>)
    requires |input| > 0
    modifies input[0]
    ensures input[0].content == old(input[0].content) + FinishSuffix
    ensures output == input
  {
    output := AppendToFirst(input, FinishSuffix);
  }

  /** What the first message reads after a run from `text`. */
  function FinalContent(text: string): (s: string)
    ensures text == "human" ==> s == "human is not Amazing always!"
    ensures text != "human" ==> s == text + " is Amazing always!"
  {
    text + (if text == "human" then HumanSuffix else AiSuffix) + FinishSuffix
  }

  /** Running the graph on a one-message input: it visits `entry`, the branch
      the router picks and `finish`, and the first message ends as the
      original text, the branch's suffix and " always!". */
  method Invoke(text: string) returns (result: seq<HumanMessage>, visited: seq<Node>)
    ensures |result| == 1 && result[0].content == FinalContent(text)
    ensures visited == [EntryNode, if text == "human" then HumanNode else AiNode, FinishNode]
  {
    var msg := new HumanMessage(text);
    result := [msg];
    var node := EntryNode;
    visited := [];
    while node != EndNode
      invariant result == [msg]
      invariant node == EntryNode ==> visited == [] && msg.content == text
      invariant node in {HumanNode, AiNode} ==>
        (visited == [EntryNode] && msg.content == text && (node == HumanNode <==> text == "human"))
      invariant node in {FinishNode, EndNode} ==>
        (visited == [EntryNode, if text == "human" then HumanNode else AiNode] + (if node == EndNode then [FinishNode] else []) &&
         msg.content == text + (if text == "human" then HumanSuffix else AiSuffix) + (if node == EndNode then FinishSuffix else ""))
      decreases match node
        case EntryNode => 3 case HumanNode => 2 case AiNode => 2 case FinishNode => 1 case EndNode => 0
    {
      visited := visited + [node];
      match node {
        case EntryNode =>
          result := Entry(result);
          node := Next(EntryNode, Router(result));
        case HumanNode =>
          result := Human(result);
          node := Next(HumanNode, ToHuman);
        case AiNode =>
          result := Ai(result);
          node := Next(AiNode, ToAi);
        case FinishNode =>
          result := Finish(result);
          node := Next(FinishNode, ToAi);
      }
    }
  }
}
