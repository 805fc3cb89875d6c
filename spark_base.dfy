/** The operation base the Spark operations build on. Those operations
    (juicer/spark/ml_operation.py, juicer/spark/statistic_operation.py) pass
    positional `inputs` and `outputs` lists to the base initializer besides the
    port dictionaries, and read them back as `self.inputs` and `self.outputs`;
    every other field is the one `Operation.__init__` of juicer/operation.py
    sets. */
module SparkBase {
  import opened Outcomes
  import opened PyStrings
  import opened PyValues
  import opened Operations

  /** An operation together with the identifiers of its connected inputs and
      outputs, in port order. */
  datatype SparkOperation = SparkOperation(op: Operation, inputs: seq<string>, outputs: seq<string>)

  function SparkInit(parameters: Params, inputs: seq<string>, outputs: seq<string>,
                     namedInputs: PortMap, namedOutputs: PortMap): (s: SparkOperation)
    ensures s.op == Init(parameters, namedInputs, namedOutputs)
    ensures s.inputs == inputs && s.outputs == outputs
  {
    SparkOperation(Init(parameters, namedInputs, namedOutputs), inputs, outputs)
  }

  /** `outputs[0] if len(outputs) else '{}_tmp'.format(inputs[0])`: the
      first output, or a name derived from the first input; `IndexError`
      when there is neither. */
  function FirstOutputOrTmp(s: SparkOperation): (r: Result<string>)
    ensures r.Ok? <==> |s.outputs| > 0 || |s.inputs| > 0
    ensures |s.outputs| > 0 ==> r == Ok(s.outputs[0])
    ensures |s.outputs| == 0 && |s.inputs| > 0 ==> r == Ok(s.inputs[0] + "_tmp")
  {
    if |s.outputs| > 0 then Ok(s.outputs[0])
    else if |s.inputs| > 0 then Ok(s.inputs[0] + "_tmp")
    else Err(RuntimeFault("list index out of range"))
  }

  /** `inputs[0]`. */
  function FirstInput(s: SparkOperation): (r: Result<string>)
    ensures r.Ok? <==> |s.inputs| > 0
    ensures r.Ok? ==> r.value == s.inputs[0]
  {
    if |s.inputs| > 0 then Ok(s.inputs[0]) else Err(RuntimeFault("list index out of range"))
  }
}
