/** The `custom_tool` decorator: it turns a function's name, docstring and
    ordered, optionally annotated parameters into a nested tool-definition
    record, and wraps the function in a pass-through callable that carries
    the record. */
module ToolDecorator {
  import opened Common
  import opened Text
  import opened OrderedDict
  import opened Tools

  /** One parameter of `inspect.signature(func)`: its name and the class name
      of its annotation, if it has one. */
  datatype Param = Param(name: string, annotation: Option<string>)

  /** The parts of a Python function the decorator reads, plus its behaviour. */
  datatype PyFunction = PyFunction(
    name: string,
    doc: Option<string>,
    params: seq<Param>,
    body: Args -> Outcome)

  /** `{'type': ..., 'description': ...}` for one parameter. */
  datatype Property = Property(kind: string, description: string)

  /** `{'type': 'object', 'properties': ..., 'required': ...}`. */
  datatype Parameters = Parameters(kind: string, properties: Dict<Property>, required: seq<string>)

  /** `{'name': ..., 'description': ..., 'parameters': ...}`. */
  datatype FunctionSpec = FunctionSpec(name: string, description: string, parameters: Parameters)

  /** `{'type': 'function', 'function': ...}`. */
  datatype ToolDefinition = ToolDefinition(kind: string, spec: FunctionSpec)

  /** The returned wrapper: a callable with a `tool_definition` attribute. */
  datatype Wrapper = Wrapper(call: Args -> Outcome, toolDefinition: ToolDefinition)

  const NoDescription := "No description provided."

  /** The names of the parameters, in signature order. */
  function ParamNames(params: seq<Param>): (ns: seq<string>)
    ensures |ns| == |params|
    ensures forall i :: 0 <= i < |params| ==> ns[i] == params[i].name
  {
    seq(|params|, i requires 0 <= i < |params| => params[i].name)
  }

  /** The docstring's description: stripped when it is a non-empty string. */
  function Description(doc: Option<string>): (d: string)
    ensures doc.Some? && doc.value != "" ==> d == Strip(doc.value)
    ensures doc.None? || doc == Some("") ==> d == NoDescription
  {
    if doc.Some? && doc.value != "" then Strip(doc.value) else NoDescription
  }

  /** The property entry of one parameter. */
  function PropertyOf(p: Param): (pr: Property)
    ensures pr.kind == if p.annotation.Some? then p.annotation.value else "unknown"
    ensures pr.description == "The " + p.name + " parameter"
  {
    Property(if p.annotation.Some? then p.annotation.value else "unknown",
             "The " + p.name + " parameter")
  }

  /** The loop that fills `parameters`, as the sequence of its assignments. */
  function PropertyPairs(params: seq<Param>): (ps: seq<(string, Property)>)
    ensures |ps| == |params|
    ensures forall i :: 0 <= i < |params| ==> ps[i] == (params[i].name, PropertyOf(params[i]))
  {
    seq(|params|, i requires 0 <= i < |params| => (params[i].name, PropertyOf(params[i])))
  }

  /** The tool definition built from a function. */
  function Definition(f: PyFunction): (t: ToolDefinition)
    ensures t.kind == "function" && t.spec.parameters.kind == "object"
    ensures t.spec.name == f.name
    ensures t.spec.description == Description(f.doc)
    ensures t.spec.parameters.required == ParamNames(f.params)
    ensures Valid(t.spec.parameters.properties)
  {
    ToolDefinition("function",
      FunctionSpec(f.name, Description(f.doc),
        Parameters("object", FromPairs(PropertyPairs(f.params)), ParamNames(f.params))))
  }

  /** `custom_tool(func)`: the wrapper returns exactly what `func` returns (or
      raises what it raises) for the same arguments, and carries the definition. */
  function CustomTool(f: PyFunction): (w: Wrapper)
    ensures forall args :: w.call(args) == f.body(args)
    ensures w.toolDefinition == Definition(f)
  {
    Wrapper(args => f.body(args), Definition(f))
  }

  /** Parameter names in a Python signature are pairwise distinct. */
  predicate WellFormed(f: PyFunction) {
    Distinct(ParamNames(f.params))
  }

  /** `properties` has one entry per parameter, in signature order, keyed by
      its name and holding its type and description; so its keys are exactly
      the `required` list. */
  lemma PropertiesMatchSignature(f: PyFunction)
    requires WellFormed(f)
    ensures var props := Definition(f).spec.parameters.properties;
      |props| == |f.params| &&
      Keys(props) == Definition(f).spec.parameters.required &&
      forall i :: 0 <= i < |f.params| ==> props[i] == (f.params[i].name, PropertyOf(f.params[i]))
  {
    var pairs := PropertyPairs(f.params);
    assert Keys(pairs) == ParamNames(f.params);
    FromPairsOfDistinct(pairs);
  }
}
