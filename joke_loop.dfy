/** The counter-bounded joke loop: `agent` and `tell_joke` alternate while a
    global joke counter is below 10. The joke itself is model output and
    only printed, so it is not modelled; the counter is a field. */
module JokeLoop {
  datatype Node = AgentNode | TellJokeNode | EndNode

  /** The router's labels. */
  datatype Condition = TellJokeCondition | EndCondition

  /** The loop bound the router compares against. */
  const Limit := 10

  /** The declared edges: the router's label picks the successor of `agent`;
      `tell_joke` always returns to `agent`. */
  function Next(n: Node, c: Condition): (r: Node)
    requires n != EndNode
    ensures r == TellJokeNode <==> n == AgentNode && c == TellJokeCondition
    ensures r == EndNode <==> n == AgentNode && c == EndCondition
    ensures r == AgentNode <==> n == TellJokeNode
  {
    match n
    case AgentNode => if c.TellJokeCondition? then TellJokeNode else EndNode
    case TellJokeNode => AgentNode
  }

  /** The messages a node receives and returns. */
  type Messages = seq<string>

  class JokeGraph {
    /** `joke_call_count`. */
    var jokeCallCount: int

    constructor ()
      ensures jokeCallCount == 0
    {
      jokeCallCount := 0;
    }

    /** `agent`: returns its input. */
    method Agent(input: Messages) returns (output: Messages)
      ensures output == input
    {
      output := input;
    }

    /** `tell_joke`: counts one joke and returns its input. */
    method TellJoke(input: Messages) returns (output: Messages)
      modifies this
      ensures jokeCallCount == old(jokeCallCount) + 1
      ensures output == input
    {
      jokeCallCount := jokeCallCount + 1;
      output := input;
    }

    /** `router_node1_node_2_or_end`: another joke while fewer than ten were told. */
    function Router(): (c: Condition)
      reads this
      ensures c == TellJokeCondition <==> jokeCallCount < Limit
    {
      if jokeCallCount < Limit then TellJokeCondition else EndCondition
    }

    /** Running the graph from the entry until END. It stops after exactly
        `10 - count` jokes (none if the count already reached 10), the count
        ends at 10 or its old value, whichever is larger, and the run takes
        `2 * jokes + 1` node steps. The messages pass through unchanged. */
    method Invoke(input: Messages) returns (output: Messages, jokes: nat, steps: nat)
      modifies this
      ensures jokes == if old(jokeCallCount) < Limit then Limit - old(jokeCallCount) else 0
      ensures jokeCallCount == old(jokeCallCount) + jokes
      ensures jokeCallCount == if old(jokeCallCount) < Limit then Limit else old(jokeCallCount)
      ensures steps == 2 * jokes + 1
      ensures output == input
    {
      var node := AgentNode;
      output := input;
      jokes, steps := 0, 0;
      while node != EndNode
        invariant node == AgentNode ==> steps == 2 * jokes
        invariant node == TellJokeNode ==> steps == 2 * jokes + 1 && jokeCallCount < Limit
        invariant node == EndNode ==> steps == 2 * jokes + 1 && jokeCallCount >= Limit
        invariant jokeCallCount == old(jokeCallCount) + jokes
        invariant old(jokeCallCount) < Limit ==> jokeCallCount <= Limit
        invariant old(jokeCallCount) >= Limit ==> jokes == 0
        invariant output == input
        decreases 2 * (if jokeCallCount < Limit then Limit - jokeCallCount else 0) + (if node == AgentNode then 1 else 0)
      {
        match node {
          case AgentNode =>
            output := Agent(output);
            node := Next(AgentNode, Router());
          case TellJokeNode =>
            output := TellJoke(output);
            jokes := jokes + 1;
            node := Next(TellJokeNode, Router());
        }
        steps := steps + 1;
      }
    }
  }
}
