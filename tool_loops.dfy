/** The loops that fold a reply's tool calls into its text. Two failure
    disciplines appear: a `try` around each call, which skips a failing call
    and goes on with the next, and one `try` around the whole loop, which
    stops at the first failure and keeps what was already appended. The
    reply object is fresh from the model call, so its text is a local value. */
module ToolLoops {
  import opened Common
  import opened Tools

  /** The script's `tool_functions`: plain callables by name. */
  type Registry = map<string, Args -> Outcome>

  /** Looking a call's name up and calling it: the value it returned, or
      `None` when the call raised. A missing name raises too: indexing the map
      raises `KeyError`, and calling the `None` that `.get` returns raises
      `TypeError`. */
  function Attempt(registry: Registry, c: ToolCall): (r: Option<string>)
    ensures r.Some? <==> c.name in registry && registry[c.name](c.arguments).Returned?
    ensures r.Some? ==> registry[c.name](c.arguments) == Returned(r.value)
  {
    if c.name in registry then
      match registry[c.name](c.arguments)
      case Returned(v) => Some(v)
      case Raised(_) => None
    else None
  }

  /** The labelled line appended for a successful call. */
  function LabelledLine(name: string, value: string): string {
    "\nTool Result (" + name + "): " + value
  }

  /** What one call adds under a per-call `try`: its labelled line, or nothing. */
  function LabelledPiece(registry: Registry, c: ToolCall): string {
    match Attempt(registry, c)
    case Some(v) => LabelledLine(c.name, v)
    case None => ""
  }

  /** What a per-call-`try` loop appends for `calls`, in call order. */
  function Labelled(registry: Registry, calls: seq<ToolCall>): string {
    if calls == [] then ""
    else LabelledPiece(registry, calls[0]) + Labelled(registry, calls[1..])
  }

  /** What a whole-loop-`try` loop appends (`"\n" + result` per call) and
      whether it ran to completion rather than stopping at a raise. */
  function Unlabelled(registry: Registry, calls: seq<ToolCall>): (string, bool) {
    if calls == [] then ("", true)
    else
      match Attempt(registry, calls[0])
      case None => ("", false)
      case Some(v) =>
        var rest := Unlabelled(registry, calls[1..]);
        ("\n" + v + rest.0, rest.1)
  }

  /** Every call in `calls` returns. */
  predicate AllSucceed(registry: Registry, calls: seq<ToolCall>) {
    forall i :: 0 <= i < |calls| ==> Attempt(registry, calls[i]).Some?
  }

  /** The per-call fold distributes over concatenation of call sequences. */
  lemma {:induction false} LabelledAppend(registry: Registry, a: seq<ToolCall>, b: seq<ToolCall>)
    ensures Labelled(registry, a + b) == Labelled(registry, a) + Labelled(registry, b)
  {
    if a == [] {
      assert a + b == b;
    } else {
      TailOfConcat(a, b);
      LabelledAppend(registry, a[1..], b);
      Associative(LabelledPiece(registry, a[0]), Labelled(registry, a[1..]), Labelled(registry, b));
    }
  }

  /** The head and tail of a concatenation whose left part is not empty. */
  lemma TailOfConcat(a: seq<ToolCall>, b: seq<ToolCall>)
    requires a != []
    ensures (a + b)[0] == a[0] && (a + b)[1..] == a[1..] + b
  {
  }

  /** String concatenation is associative. */
  lemma Associative(p: string, x: string, y: string)
    ensures p + (x + y) == (p + x) + y
  {
  }

  /** One more call appends what that call adds. */
  lemma LabelledStep(registry: Registry, a: seq<ToolCall>, c: ToolCall)
    ensures Labelled(registry, a + [c]) == Labelled(registry, a) + LabelledPiece(registry, c)
  {
    LabelledAppend(registry, a, [c]);
    assert [c][1..] == [];
    assert LabelledPiece(registry, c) + "" == LabelledPiece(registry, c);
  }

  /** Appending what one call adds to the text built so far gives the text
      for one more call. */
  lemma AppendPiece(registry: Registry, content: string, a: seq<ToolCall>, c: ToolCall, piece: string)
    requires piece == LabelledPiece(registry, c)
    ensures content + Labelled(registry, a) + piece == content + Labelled(registry, a + [c])
  {
    LabelledStep(registry, a, c);
    Associative(content, Labelled(registry, a), piece);
  }

  /** Under a per-call `try`, a successful call appends its labelled line. */
  lemma LabelledSuccess(registry: Registry, a: seq<ToolCall>, c: ToolCall, v: string)
    requires Attempt(registry, c) == Some(v)
    ensures Labelled(registry, a + [c]) == Labelled(registry, a) + LabelledLine(c.name, v)
  {
    LabelledStep(registry, a, c);
  }

  /** Under a per-call `try`, a failing call, an unknown name included,
      contributes nothing and the calls after it still run. */
  lemma LabelledSkipsFailure(registry: Registry, a: seq<ToolCall>, c: ToolCall, b: seq<ToolCall>)
    requires Attempt(registry, c).None?
    ensures Labelled(registry, a + [c] + b) == Labelled(registry, a) + Labelled(registry, b)
  {
    LabelledAppend(registry, a + [c], b);
    LabelledStep(registry, a, c);
    assert Labelled(registry, a) + "" == Labelled(registry, a);
  }

  /** Under a whole-loop `try`, the loop completes exactly when every call
      returns. */
  lemma {:induction false} UnlabelledCompletesIff(registry: Registry, calls: seq<ToolCall>)
    ensures Unlabelled(registry, calls).1 <==> AllSucceed(registry, calls)
  {
    if calls != [] {
      UnlabelledCompletesIff(registry, calls[1..]);
      if Attempt(registry, calls[0]).Some? && AllSucceed(registry, calls[1..]) {
        forall i | 0 <= i < |calls| ensures Attempt(registry, calls[i]).Some? {
          if i > 0 {
            assert calls[i] == calls[1..][i - 1];
          }
        }
      }
    }
  }

  /** Under a whole-loop `try`, the first failing call discards itself and
      every later call, while the text appended before it stays. */
  lemma {:induction false} UnlabelledStopsAtFailure(registry: Registry, a: seq<ToolCall>, c: ToolCall, b: seq<ToolCall>)
    requires AllSucceed(registry, a)
    requires Attempt(registry, c).None?
    ensures Unlabelled(registry, a + [c] + b) == (Unlabelled(registry, a).0, false)
  {
    if a != [] {
      assert (a + [c] + b)[1..] == a[1..] + [c] + b;
      assert AllSucceed(registry, a[1..]) by {
        forall i | 0 <= i < |a[1..]| ensures Attempt(registry, a[1..][i]).Some? {
          assert a[1..][i] == a[i + 1];
        }
      }
      assert Attempt(registry, a[0]).Some?;
      UnlabelledStopsAtFailure(registry, a[1..], c, b);
    }
  }

  /** Under a whole-loop `try`, a successful call after successful ones
      appends `"\n" + result` with no label. */
  lemma {:induction false} UnlabelledSuccess(registry: Registry, a: seq<ToolCall>, c: ToolCall, v: string)
    requires AllSucceed(registry, a)
    requires Attempt(registry, c) == Some(v)
    ensures Unlabelled(registry, a + [c]) == (Unlabelled(registry, a).0 + "\n" + v, true)
  {
    if a == [] {
      assert a + [c] == [c];
      assert Unlabelled(registry, [c][1..]) == ("", true);
      assert "\n" + v + "" == "" + "\n" + v;
    } else {
      assert (a + [c])[1..] == a[1..] + [c];
      assert AllSucceed(registry, a[1..]) by {
        forall i | 0 <= i < |a[1..]| ensures Attempt(registry, a[1..][i]).Some? {
          assert a[1..][i] == a[i + 1];
        }
      }
      assert (a + [c])[0] == a[0];
      var w := Attempt(registry, a[0]).value;
      UnlabelledSuccess(registry, a[1..], c, v);
      var t := Unlabelled(registry, a[1..]).0;
      assert "\n" + w + (t + "\n" + v) == ("\n" + w + t) + "\n" + v;
    }
  }

  /** The loop of `process_request_with_tools` and of
      `SpecializedAgent.handle_query`: each call in its own `try`, each
      success appending a labelled line. The reply text is always a prefix,
      and with no tool calls it comes back unchanged. */
  method AppendToolResults(registry: Registry, content: string, calls: seq<ToolCall>) returns (result: string)
    ensures result == content + Labelled(registry, calls)
    ensures calls == [] ==> result == content
  {
    result := content;
    if calls != [] {
      for i := 0 to |calls|
        invariant result == content + Labelled(registry, calls[..i])
      {
        var c := calls[i];
        var piece := "";
        if c.name in registry {
          var outcome := registry[c.name](c.arguments);
          match outcome {
            case Returned(v) => piece := LabelledLine(c.name, v);
            case Raised(_) =>
          }
        }
        AppendPiece(registry, content, calls[..i], c, piece);
        assert calls[..i + 1] == calls[..i] + [c];
        result := result + piece;
      }
      assert calls[..|calls|] == calls;
    }
  }

  /** The loop of `process_request`: one `try` around the whole loop, an
      exact-name lookup, each success appending `"\n" + result`. A raise ends
      the loop; it never escapes, and the text built so far is returned. */
  method AppendResultsUntilFailure(registry: Registry, content: string, calls: seq<ToolCall>) returns (result: string)
    ensures result == content + Unlabelled(registry, calls).0
    ensures calls == [] ==> result == content
  {
    result := content;
    var i := 0;
    var raised := false;
    while i < |calls| && !raised
      invariant 0 <= i <= |calls|
      invariant AllSucceed(registry, calls[..i])
      invariant !raised ==> result == content + Unlabelled(registry, calls[..i]).0
      invariant raised ==> result == content + Unlabelled(registry, calls).0
      decreases |calls| - i, if raised then 0 else 1
    {
      var c := calls[i];
      assert calls[..i + 1] == calls[..i] + [c];
      if c.name !in registry {
        UnlabelledStopsAtFailure(registry, calls[..i], c, calls[i + 1..]);
        assert calls[..i] + [c] + calls[i + 1..] == calls;
        raised := true;
      } else {
        var outcome := registry[c.name](c.arguments);
        match outcome {
          case Returned(v) =>
            UnlabelledSuccess(registry, calls[..i], c, v);
            assert content + Unlabelled(registry, calls[..i]).0 + "\n" + v
                == content + (Unlabelled(registry, calls[..i]).0 + "\n" + v);
            result := result + "\n" + v;
            i := i + 1;
          case Raised(_) =>
            UnlabelledStopsAtFailure(registry, calls[..i], c, calls[i + 1..]);
            assert calls[..i] + [c] + calls[i + 1..] == calls;
            raised := true;
        }
      }
    }
    if !raised {
      assert calls[..i] == calls;
    }
  }
}
