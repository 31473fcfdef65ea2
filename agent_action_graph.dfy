/** The two-node graph shared by the agent/action scripts: the entry node
    `agent` routes "continue" to `action` and "end" to END, and `action`
    always returns to `agent`. */
module AgentActionGraph {
  import opened Common

  datatype Node = Agent | Action | End

  /** The labels `should_continue` returns. */
  datatype Route = Continue | Finish

  const Entry: Node := Agent

  /** The node after `n`, given the route `should_continue` chose when `n` is
      the agent (ignored otherwise); END has no successor. */
  function Next(n: Node, route: Route): (r: Option<Node>)
    ensures r.None? <==> n == End
    ensures r == Some(Action) <==> n == Agent && route == Continue
    ensures r == Some(End) <==> n == Agent && route == Finish
    ensures r == Some(Agent) <==> n == Action
  {
    match n
    case Agent => Some(if route == Continue then Action else End)
    case Action => Some(Agent)
    case End => None
  }

  /** `nodes` is a path from the entry with `routes[i]` chosen at `nodes[i]`. */
  ghost predicate IsRun(nodes: seq<Node>, routes: seq<Route>) {
    |nodes| == |routes| + 1 &&
    nodes[0] == Entry &&
    forall i :: 0 <= i < |routes| ==> Next(nodes[i], routes[i]) == Some(nodes[i + 1])
  }

  /** The `i`-th step of a run follows the table. */
  lemma StepOf(nodes: seq<Node>, routes: seq<Route>, i: nat)
    requires IsRun(nodes, routes) && i < |routes|
    ensures Next(nodes[i], routes[i]) == Some(nodes[i + 1])
  {
  }

  /** Along a run the two nodes alternate: even positions are `agent`, odd
      positions are `action`, except a final END, which follows an `agent`
      that chose "end". */
  lemma {:induction false} Alternates(nodes: seq<Node>, routes: seq<Route>, k: nat)
    requires IsRun(nodes, routes) && k < |nodes|
    ensures nodes[k] == Agent ==> k % 2 == 0
    ensures nodes[k] == Action ==> k % 2 == 1 && routes[k - 1] == Continue
    ensures nodes[k] == End ==> k % 2 == 1 && k == |nodes| - 1 && routes[k - 1] == Finish
    ensures k % 2 == 0 ==> nodes[k] == Agent
  {
    if k > 0 {
      Alternates(nodes, routes, k - 1);
      StepOf(nodes, routes, k - 1);
      if nodes[k] == End && k < |routes| {
        StepOf(nodes, routes, k);
        assert false;
      }
    }
  }
}
