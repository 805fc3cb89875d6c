/** The contract every operation shares (juicer/operation.py): the fields the
    base initializer sets, output-name joining, and the decision whether a
    task is emitted. An operation is a value here: after construction no
    method of the core changes it, and the subclass initializers that
    overwrite `has_code` or `output` are datatype updates of the value the
    base initializer produced. */
module Operations {
  import opened Outcomes
  import opened PyStrings
  import opened PyValues

  // ---------------------------------------------------------------------------
  // named ports

  /** One entry of `named_inputs` or `named_outputs`: the declared port name
      and the generated-code identifier bound to it. */
  datatype Port = Port(name: string, id: string)

  predicate UniqueNames(ports: seq<Port>) {
    forall k, l :: 0 <= k < l < |ports| ==> ports[k].name != ports[l].name
  }

  /** A port dictionary; the order of the entries is the dictionary's
      iteration order. */
  type PortMap = ports: seq<Port> | UniqueNames(ports)

  /** `ports.get(name)`. */
  function Lookup(ports: seq<Port>, name: string): (r: Option<string>)
    ensures r.Some? <==> exists k :: 0 <= k < |ports| && ports[k].name == name
    ensures r.Some? ==> exists k :: 0 <= k < |ports| && ports[k] == Port(name, r.value)
  {
    if |ports| == 0 then None
    else if ports[0].name == name then Some(ports[0].id)
    else
      var r := Lookup(ports[1..], name);
      assert r.Some? ==> exists k :: 0 <= k < |ports[1..]| && ports[1..][k] == Port(name, r.value);
      r
  }

  predicate HasPort(ports: seq<Port>, name: string) {
    Lookup(ports, name).Some?
  }

  /** `ports.get(name, default)`. */
  function PortOr(ports: seq<Port>, name: string, default: string): (id: string)
    ensures HasPort(ports, name) ==> id == Lookup(ports, name).value
    ensures !HasPort(ports, name) ==> id == default
  {
    match Lookup(ports, name)
    case Some(id) => id
    case None => default
  }

  /** `ports[name]`, which raises `KeyError` for an unknown port. */
  function Subscript(ports: seq<Port>, name: string): (r: Result<string>)
    ensures r.Ok? <==> HasPort(ports, name)
    ensures r.Ok? ==> r.value == Lookup(ports, name).value
  {
    match Lookup(ports, name)
    case Some(id) => Ok(id)
    case None => Err(RuntimeFault("KeyError: '" + name + "'"))
  }

  /** `ports.values()`. */
  function Ids(ports: seq<Port>): (ids: seq<string>)
    ensures |ids| == |ports|
    ensures forall k :: 0 <= k < |ports| ==> ids[k] == ports[k].id
  {
    seq(|ports|, k requires 0 <= k < |ports| => ports[k].id)
  }

  // ---------------------------------------------------------------------------
  // the operation record

  const OutputDataPort := "output data"

  datatype Operation = Operation(
    parameters: Params,
    namedInputs: PortMap,
    namedOutputs: PortMap,
    multipleInputs: bool,
    outDegree: nat,
    order: Value,
    supportsCache: bool,
    hasCode: bool,
    expectedOutputPorts: nat,
    output: string)

  /** `Operation.__init__`. The process-wide configuration it reads is not
      part of this model. */
  function Init(parameters: Params, namedInputs: PortMap, namedOutputs: PortMap): (op: Operation)
    ensures op.parameters == parameters
    ensures op.namedInputs == namedInputs && op.namedOutputs == namedOutputs
    ensures op.outDegree == 0 && !op.multipleInputs
    ensures op.supportsCache && op.expectedOutputPorts == 1
    ensures "order" !in parameters ==> op.order == Int(1)
    ensures "order" in parameters ==> op.order == parameters["order"]
    ensures op.hasCode <==> |namedInputs| > 0 || |namedOutputs| > 0
    ensures HasPort(namedOutputs, OutputDataPort) ==> op.output == Lookup(namedOutputs, OutputDataPort).value
    ensures !HasPort(namedOutputs, OutputDataPort) ==> op.output == "out_task_" + Show(op.order)
  {
    var order := Get(parameters, "order", Int(1));
    Operation(
      parameters, namedInputs, namedOutputs,
      multipleInputs := false,
      outDegree := 0,
      order := order,
      supportsCache := true,
      hasCode := |namedInputs| > 0 || |namedOutputs| > 0,
      expectedOutputPorts := 1,
      output := PortOr(namedOutputs, OutputDataPort, "out_task_" + Show(order)))
  }

  /** `NoOp`: a task that is part of the graph but never has code of its own. */
  function NoOp(parameters: Params, namedInputs: PortMap, namedOutputs: PortMap): (op: Operation)
    ensures !op.hasCode
    ensures op.(hasCode := true) == Init(parameters, namedInputs, namedOutputs).(hasCode := true)
  {
    Init(parameters, namedInputs, namedOutputs).(hasCode := false)
  }

  /** Two tasks whose output port "output data" is not connected and whose
      integer orders differ get different synthesized output identifiers. */
  lemma DistinctOrdersDistinctOutputs(p1: Params, i1: PortMap, o1: PortMap, p2: Params, i2: PortMap, o2: PortMap)
    requires !HasPort(o1, OutputDataPort) && !HasPort(o2, OutputDataPort)
    requires "order" in p1 && p1["order"].Int? && "order" in p2 && p2["order"].Int?
    requires p1["order"] != p2["order"]
    ensures Init(p1, i1, o1).output != Init(p2, i2, o2).output
  {
    var a, b := p1["order"].i, p2["order"].i;
    IntToStringInjective(a, b);
    var prefix := "out_task_";
    assert (prefix + IntToString(a))[|prefix|..] == IntToString(a);
    assert (prefix + IntToString(b))[|prefix|..] == IntToString(b);
  }

  // ---------------------------------------------------------------------------
  // names

  /** `get_inputs_names`: the connected input identifiers separated by
      `", "`; empty when no input is connected. */
  function InputsNames(op: Operation): (r: string)
    ensures r == Join(", ", Ids(op.namedInputs))
    ensures |op.namedInputs| == 0 ==> r == ""
    ensures |op.namedInputs| == 1 ==> r == op.namedInputs[0].id
    ensures |op.namedInputs| == 2 ==> r == op.namedInputs[0].id + ", " + op.namedInputs[1].id
  {
    var ids := Ids(op.namedInputs);
    if |ids| == 2 then
      assert ids == [ids[0], ids[1]];
      JoinPair(", ", ids[0], ids[1]);
      Join(", ", ids)
    else Join(", ", ids)
  }

  /** `get_output_names(sep)`: the connected output identifiers, or the
      operation's own output identifier when no output is connected. */
  function OutputNames(op: Operation, sep: string): (r: string)
    ensures |op.namedOutputs| == 0 ==> r == op.output
    ensures |op.namedOutputs| > 0 ==> r == Join(sep, Ids(op.namedOutputs))
    ensures |op.namedOutputs| == 1 ==> r == op.namedOutputs[0].id
  {
    if |op.namedOutputs| > 0 then Join(sep, Ids(op.namedOutputs)) else op.output
  }

  /** `get_data_out_names(sep)`. */
  function DataOutNames(op: Operation, sep: string): (r: string)
    ensures r == OutputNames(op, sep)
  {
    OutputNames(op, sep)
  }

  /** Splitting the joined output names at a separator that no identifier
      contains recovers the connected identifiers, in order. */
  lemma OutputNamesRoundTrip(op: Operation, sep: char)
    requires |op.namedOutputs| > 0
    requires forall k :: 0 <= k < |op.namedOutputs| ==> sep !in op.namedOutputs[k].id
    ensures Split(OutputNames(op, [sep]), sep) == Ids(op.namedOutputs)
  {
    SplitJoin(Ids(op.namedOutputs), sep);
  }

  // ---------------------------------------------------------------------------
  // results and execution

  /** `parameters['task']['forms']`. */
  function Forms(p: Params): (r: Result<map<string, Value>>)
    ensures r.Ok? <==> "task" in p && p["task"].Dict? && "forms" in p["task"].entries
                       && p["task"].entries["forms"].Dict?
  {
    if "task" !in p then Err(RuntimeFault("KeyError: 'task'"))
    else match p["task"]
      case Dict(task) =>
        if "forms" !in task then Err(RuntimeFault("KeyError: 'forms'"))
        else (match task["forms"]
              case Dict(forms) => Ok(forms)
              case _ => Err(RuntimeFault("forms has no attribute 'get'")))
      case _ => Err(RuntimeFault("task is not a dictionary"))
  }

  /** The form field `key` is present and its `value` is 1 or '1'. */
  predicate Displays(forms: map<string, Value>, key: string) {
    key in forms && forms[key].Dict? && "value" in forms[key].entries
    && IsOne(forms[key].entries["value"])
  }

  /** The form field `key` is absent or is a dictionary (so `.get` works). */
  predicate ReadableField(forms: map<string, Value>, key: string) {
    key !in forms || forms[key].Dict?
  }

  /** `forms.get(key, {}).get('value') in (1, '1')`. */
  function FormFlag(forms: map<string, Value>, key: string): (r: Result<bool>)
    ensures r.Ok? <==> ReadableField(forms, key)
    ensures r.Ok? ==> (r.value <==> Displays(forms, key))
  {
    if key !in forms then Ok(false)
    else match forms[key]
      case Dict(field) => Ok("value" in field && IsOne(field["value"]))
      case _ => Err(RuntimeFault("form field has no attribute 'get'"))
  }

  /** `contains_results`: the task shows a sample or the schema of its data. */
  function ContainsResults(op: Operation): (r: Result<bool>)
    ensures r.Ok? ==> Forms(op.parameters).Ok?
    ensures r.Ok? ==>
      (r.value <==>
         Displays(Forms(op.parameters).value, "display_sample") || Displays(Forms(op.parameters).value, "display_schema"))
    ensures Forms(op.parameters).Ok? && Displays(Forms(op.parameters).value, "display_sample") ==> r == Ok(true)
    ensures (Forms(op.parameters).Ok? && ReadableField(Forms(op.parameters).value, "display_sample")
             && ReadableField(Forms(op.parameters).value, "display_schema")) ==> r.Ok?
  {
    var forms :- Forms(op.parameters);
    var sample :- FormFlag(forms, "display_sample");
    if sample then Ok(true) else FormFlag(forms, "display_schema")
  }

  /** `must_be_executed(is_satisfied, ignore_out_degree, ignore_has_code)`:
      a task with code (or whose code requirement is waived), whose inputs are
      satisfied and which has no consumers (or whose consumer count is
      waived) is emitted; a task that shows results is always emitted. */
  function MustBeExecuted(op: Operation, isSatisfied: bool, ignoreOutDegree: bool, ignoreHasCode: bool): (r: Result<bool>)
    ensures r.Ok? <==> ContainsResults(op).Ok?
    ensures r.Ok? ==>
      (r.value <==>
         ((op.hasCode || ignoreHasCode) && isSatisfied && (op.outDegree == 0 || ignoreOutDegree)) || ContainsResults(op).value)
  {
    var considerDegree := op.outDegree == 0 || ignoreOutDegree;
    var _ :- Forms(op.parameters);
    var infoOrData :- ContainsResults(op);
    Ok(((op.hasCode || ignoreHasCode) && isSatisfied && considerDegree) || infoOrData)
  }

  /** A task that shows results is emitted whatever the other inputs. */
  lemma ResultsForceExecution(op: Operation, isSatisfied: bool, ignoreOutDegree: bool, ignoreHasCode: bool)
    requires ContainsResults(op) == Ok(true)
    ensures MustBeExecuted(op, isSatisfied, ignoreOutDegree, ignoreHasCode) == Ok(true)
  {
  }

  /** A task with consumers is emitted only when the out-degree rule is waived
      or it shows results. */
  lemma ConsumedTaskExecution(op: Operation, isSatisfied: bool, ignoreOutDegree: bool, ignoreHasCode: bool)
    requires op.outDegree > 0
    requires MustBeExecuted(op, isSatisfied, ignoreOutDegree, ignoreHasCode) == Ok(true)
    ensures ignoreOutDegree || ContainsResults(op) == Ok(true)
  {
  }

  /** A `NoOp` is emitted only when the code requirement is waived or it
      shows results. */
  lemma NoOpExecution(p: Params, ni: PortMap, no: PortMap, isSatisfied: bool, ignoreOutDegree: bool, ignoreHasCode: bool)
    requires MustBeExecuted(NoOp(p, ni, no), isSatisfied, ignoreOutDegree, ignoreHasCode) == Ok(true)
    ensures ignoreHasCode || ContainsResults(NoOp(p, ni, no)) == Ok(true)
  {
  }

  /** Waiving a rule or satisfying the inputs never turns an emitted task into
      a skipped one. */
  lemma MustBeExecutedMonotone(op: Operation, s1: bool, d1: bool, h1: bool, s2: bool, d2: bool, h2: bool)
    requires (s1 ==> s2) && (d1 ==> d2) && (h1 ==> h2)
    requires MustBeExecuted(op, s1, d1, h1) == Ok(true)
    ensures MustBeExecuted(op, s2, d2, h2) == Ok(true)
  {
  }
}
