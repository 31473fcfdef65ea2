/** The transition table of the code-generation graph: five nodes, two plain
    edges, two conditional edges keyed by the routing labels, and one edge to END. */
module CodeWorkflow {
  import opened Common
  import opened DynamicAgent

  datatype Node =
    | Preprocessor
    | CodeGeneration
    | ExtractCode
    | CodeReview
    | ExecuteInDocker
    | End

  /** The entry point of the graph. */
  const Entry: Node := Preprocessor

  /** The node taken after `n` when its routing function (if it has one)
      returned `route`; END has no successor. Nodes with a plain edge ignore
      the route. */
  function Next(n: Node, route: Label): (r: Option<Node>)
    ensures r.None? <==> n == End
    ensures r != Some(Preprocessor)
  {
    match n
    case Preprocessor => Some(CodeGeneration)
    case CodeGeneration => Some(ExtractCode)
    case ExtractCode => Some(if route == Continue then CodeReview else CodeGeneration)
    case CodeReview => Some(if route == Continue then ExecuteInDocker else CodeGeneration)
    case ExecuteInDocker => Some(End)
    case End => None
  }

  /** `nodes` is a path through the graph from the entry, where `labels[i]` is
      the route the routing function of `nodes[i]` returned. */
  ghost predicate IsRun(nodes: seq<Node>, labels: seq<Label>) {
    |nodes| == |labels| + 1 &&
    nodes[0] == Entry &&
    forall i :: 0 <= i < |labels| ==> Next(nodes[i], labels[i]) == Some(nodes[i + 1])
  }

  /** The `i`-th step of a run follows the table. */
  lemma StepOf(nodes: seq<Node>, labels: seq<Label>, i: nat)
    requires IsRun(nodes, labels) && i < |labels|
    ensures Next(nodes[i], labels[i]) == Some(nodes[i + 1])
  {
  }

  /** Each edge into a node, read backwards: which node and route can precede it. */
  lemma Predecessor(n: Node, route: Label, m: Node)
    requires Next(n, route) == Some(m)
    ensures m == End ==> n == ExecuteInDocker
    ensures m == ExecuteInDocker ==> n == CodeReview && route == Continue
    ensures m == CodeReview ==> n == ExtractCode && route == Continue
    ensures m == ExtractCode ==> n == CodeGeneration
    ensures m == CodeGeneration ==> n == Preprocessor || (n in {ExtractCode, CodeReview} && route == Regenerate)
  {
  }

  /** No edge returns to the preprocessor: it runs once, first. */
  lemma PreprocessorRunsOnce(nodes: seq<Node>, labels: seq<Label>, k: int)
    requires IsRun(nodes, labels)
    requires 0 <= k < |nodes|
    ensures nodes[k] == Preprocessor <==> k == 0
  {
    if k > 0 {
      assert Next(nodes[k - 1], labels[k - 1]) == Some(nodes[k]);
    }
  }

  /** Every run that reaches END got there from execution, which it entered
      right after a review whose status routed "continue"; and that review
      itself came right after an extraction that routed "continue". */
  lemma EndOnlyAfterPassingReview(nodes: seq<Node>, labels: seq<Label>, k: int)
    requires IsRun(nodes, labels)
    requires 0 <= k < |nodes| && nodes[k] == End
    ensures k >= 4
    ensures nodes[k - 1] == ExecuteInDocker
    ensures nodes[k - 2] == CodeReview && labels[k - 2] == Continue
    ensures nodes[k - 3] == ExtractCode && labels[k - 3] == Continue
    ensures nodes[k - 4] == CodeGeneration
  {
    assert Next(nodes[k - 1], labels[k - 1]) == Some(End);
    Predecessor(nodes[k - 1], labels[k - 1], End);
    assert Next(nodes[k - 2], labels[k - 2]) == Some(ExecuteInDocker);
    Predecessor(nodes[k - 2], labels[k - 2], ExecuteInDocker);
    assert Next(nodes[k - 3], labels[k - 3]) == Some(CodeReview);
    Predecessor(nodes[k - 3], labels[k - 3], CodeReview);
    assert Next(nodes[k - 4], labels[k - 4]) == Some(ExtractCode);
    Predecessor(nodes[k - 4], labels[k - 4], ExtractCode);
  }

  /** END is final: a run contains it at most as its last node. */
  lemma EndIsLast(nodes: seq<Node>, labels: seq<Label>, k: int)
    requires IsRun(nodes, labels)
    requires 0 <= k < |nodes| && nodes[k] == End
    ensures k == |nodes| - 1
  {
    if k < |labels| {
      StepOf(nodes, labels, k);
      assert false;
    }
  }
}
