/** The Spark Pearson correlation operation
    (juicer/spark/statistic_operation.py): the correlation of the first two
    selected attributes of the single input frame. */
module SparkStatistic {
  import opened Outcomes
  import opened PyValues
  import opened Operations
  import opened SparkBase

  datatype PearsonCorrelation = PearsonCorrelation(base: SparkOperation, attributes: Value)

  /** `PearsonCorrelation.__init__`: the attributes are required; code is
      generated only for exactly one input. */
  function NewPearsonCorrelation(parameters: Params, inputs: seq<string>, outputs: seq<string>,
                                 namedInputs: PortMap, namedOutputs: PortMap): (r: Result<PearsonCorrelation>)
    ensures r.Ok? <==> "attributes" in parameters
    ensures r.Err? ==> r == Err(MissingParameter("attributes"))
    ensures r.Ok? ==>
      var base := SparkInit(parameters, inputs, outputs, namedInputs, namedOutputs);
      && r.value.attributes == parameters["attributes"]
      && r.value.base == base.(op := base.op.(hasCode := |inputs| == 1))
  {
    if "attributes" !in parameters then Err(MissingParameter("attributes"))
    else
      var base := SparkInit(parameters, inputs, outputs, namedInputs, namedOutputs);
      Ok(PearsonCorrelation(base.(op := base.op.(hasCode := |inputs| == 1)), parameters["attributes"]))
  }

  /** The generated statement `<output> = <input>.corr(<first>, <second>)`. */
  datatype Correlation = Correlation(output: string, input: string, first: Value, second: Value)

  /** `generate_code`: the output is the first output, or a name derived from
      the input; the two columns are the first two attributes. */
  function GeneratePearson(c: PearsonCorrelation): (r: Result<Correlation>)
    ensures r.Ok? <==>
      && |c.base.inputs| > 0 && Item(c.attributes, 0).Ok? && Item(c.attributes, 1).Ok?
      && Formats(Item(c.attributes, 0).value) && Formats(Item(c.attributes, 1).value)
    ensures r.Err? && |c.base.inputs| > 0 && Item(c.attributes, 0).Ok? && Item(c.attributes, 1).Ok? ==>
      r == Err(RuntimeFault("UnicodeEncodeError"))
    ensures r.Ok? ==>
      && r.value.output == FirstOutputOrTmp(c.base).value
      && r.value.input == c.base.inputs[0]
      && r.value.first == Item(c.attributes, 0).value
      && r.value.second == Item(c.attributes, 1).value
  {
    var output :- FirstOutputOrTmp(c.base);
    var input :- FirstInput(c.base);
    var first :- Item(c.attributes, 0);
    var second :- Item(c.attributes, 1);
    if !(Formats(first) && Formats(second)) then Err(RuntimeFault("UnicodeEncodeError"))
    else Ok(Correlation(output, input, first, second))
  }

  /** A correlation task built with one input and a list of at least two
      attributes generates code that correlates the first two attributes of
      that input; with a list of fewer than two attributes it fails. */
  lemma PearsonCorrelatesFirstTwo(parameters: Params, input: string, outputs: seq<string>,
                                  namedInputs: PortMap, namedOutputs: PortMap)
    requires "attributes" in parameters && parameters["attributes"].List?
    ensures
      var c := NewPearsonCorrelation(parameters, [input], outputs, namedInputs, namedOutputs).value;
      var attributes := parameters["attributes"].items;
      && c.base.op.hasCode
      && (GeneratePearson(c).Ok? <==> |attributes| >= 2 && Formats(attributes[0]) && Formats(attributes[1]))
      && (|attributes| >= 2 && !(Formats(attributes[0]) && Formats(attributes[1])) ==>
            GeneratePearson(c) == Err(RuntimeFault("UnicodeEncodeError")))
      && (GeneratePearson(c).Ok? ==>
            GeneratePearson(c).value.input == input
            && GeneratePearson(c).value.first == attributes[0]
            && GeneratePearson(c).value.second == attributes[1]
            && GeneratePearson(c).value.output == if |outputs| > 0 then outputs[0] else input + "_tmp")
  {
  }
}
