/** The scikit-learn clustering operations
    (juicer/scikit_learn/clustering_operation.py): how each constructor
    defaults, validates and names its parameters, and which estimator and
    identifiers its generated code uses. Constructors raise part-way through,
    so they are methods returning a `Result`; the generated code is recorded
    as the template chosen and the values substituted into it, not as text. */
module SklearnClustering {
  import opened Outcomes
  import opened PyStrings
  import opened PyValues
  import opened Operations

  // ---------------------------------------------------------------------------
  // the positivity check

  /** `for var, att in zip(vals, atts): if var <= 0: raise ValueError(...)`:
      passes when every value that `zip` pairs with a name is positive, and
      otherwise names the first value that is not. */
  method CheckPositive(values: seq<Value>, names: seq<string>) returns (outcome: Outcome)
    ensures outcome.Pass? <==> forall k :: 0 <= k < |values| && k < |names| ==> !AtMostZero(values[k])
    ensures outcome.Fail? ==>
      exists k :: 0 <= k < |values| && k < |names| && AtMostZero(values[k])
        && (forall j :: 0 <= j < k ==> !AtMostZero(values[j]))
        && outcome.error == InvalidParameter(names[k])
  {
    var i := 0;
    while i < |values| && i < |names|
      invariant i <= |values| && i <= |names|
      invariant forall j :: 0 <= j < i ==> !AtMostZero(values[j])
    {
      if AtMostZero(values[i]) {
        return Fail(InvalidParameter(names[i]));
      }
      i := i + 1;
    }
    return Pass;
  }

  /** The value `parameters.get(key, d) or d` is a string, for a string
      default `d`: the key is absent, falsy, or holds a string. */
  predicate DefaultsToStr(p: Params, key: string) {
    !(key in p && Truthy(p[key])) || p[key].Str?
  }

  // ---------------------------------------------------------------------------
  // ClusteringOperation: the base of the model-producing operations

  /** `features` and `prediction` start as `None`; `model` names the fitted
      model. */
  datatype Clustering = Clustering(op: Operation, features: Value, prediction: Value, model: string)

  function ClusteringInit(parameters: Params, namedInputs: PortMap, namedOutputs: PortMap): (c: Clustering)
    ensures c.op == Init(parameters, namedInputs, namedOutputs).(output := c.op.output)
    ensures c.features == PyNone && c.prediction == PyNone
    ensures HasPort(namedOutputs, OutputDataPort) ==> c.op.output == Lookup(namedOutputs, OutputDataPort).value
    ensures !HasPort(namedOutputs, OutputDataPort) ==> c.op.output == "out_" + Show(c.op.order)
    ensures HasPort(namedOutputs, "model") ==> c.model == Lookup(namedOutputs, "model").value
    ensures !HasPort(namedOutputs, "model") ==> c.model == "model_" + Show(c.op.order)
  {
    var op := Init(parameters, namedInputs, namedOutputs);
    Clustering(
      op.(output := PortOr(namedOutputs, OutputDataPort, "out_" + Show(op.order))),
      PyNone, PyNone,
      PortOr(namedOutputs, "model", "model_" + Show(op.order)))
  }

  /** `read_common_params`: `features` is required and its first element is
      kept; `prediction` is the optional prediction column; the output and
      model identifiers are derived again from the ports. */
  function ReadCommonParams(c: Clustering, parameters: Params): (r: Result<Clustering>)
    ensures "features" !in parameters ==> r == Err(MissingParameter("features"))
    ensures r.Ok? <==> FirstOf(parameters, "features").Ok?
    ensures r.Ok? ==> r.value.features == FirstOf(parameters, "features").value
    ensures r.Ok? ==> r.value.prediction == Get(parameters, "prediction", PyNone)
  {
    var features :- FirstOf(parameters, "features");
    var outputs := c.op.namedOutputs;
    Ok(Clustering(
      c.op.(output := PortOr(outputs, OutputDataPort, "out_" + Show(c.op.order))),
      features,
      Get(parameters, "prediction", PyNone),
      PortOr(outputs, "model", "model_" + Show(c.op.order))))
  }

  /** Reading the common parameters of a freshly initialized clustering
      operation changes neither its operation fields nor its model name. */
  lemma ReadCommonParamsKeepsNames(c: Clustering, parameters: Params)
    requires c.op.output == PortOr(c.op.namedOutputs, OutputDataPort, "out_" + Show(c.op.order))
    requires c.model == PortOr(c.op.namedOutputs, "model", "model_" + Show(c.op.order))
    ensures ReadCommonParams(c, parameters).Ok? ==>
      ReadCommonParams(c, parameters).value.op == c.op && ReadCommonParams(c, parameters).value.model == c.model
  {
  }

  /** `get_output_names(sep)`: the output then the model. */
  function ClusteringOutputNames(c: Clustering, sep: string): (r: string)
    ensures r == c.op.output + sep + c.model
  {
    JoinPair(sep, c.op.output, c.model);
    Join(sep, [c.op.output, c.model])
  }

  /** `get_data_out_names`: clustering operations expose no data names. */
  function ClusteringDataOutNames(c: Clustering, sep: string): (r: string)
    ensures |r| == 0
  {
    ""
  }

  /** Two identifiers joined by a separator neither contains split back into
      the same two identifiers. */
  lemma PairRoundTrip(first: string, second: string, sep: char)
    requires sep !in first && sep !in second
    ensures Split(Join([sep], [first, second]), sep) == [first, second]
  {
    SplitJoin([first, second], sep);
  }

  lemma ClusteringOutputNamesRoundTrip(c: Clustering, sep: char)
    requires sep !in c.op.output && sep !in c.model
    ensures Split(ClusteringOutputNames(c, [sep]), sep) == [c.op.output, c.model]
  {
    PairRoundTrip(c.op.output, c.model, sep);
  }

  // ---------------------------------------------------------------------------
  // the generated code

  datatype Estimator = KMeansEstimator | MiniBatchKMeansEstimator

  /** `has_import`: `from <package> import <name>`. */
  datatype Import = Import(package: string, name: string)

  const SklearnCluster := "sklearn.cluster"

  function ClassName(e: Estimator): string {
    match e
    case KMeansEstimator => "KMeans"
    case MiniBatchKMeansEstimator => "MiniBatchKMeans"
  }

  function ImportOf(e: Estimator): (i: Import)
    ensures i.package == SklearnCluster && i.name == ClassName(e)
  {
    Import(SklearnCluster, ClassName(e))
  }

  /** The last statement of a fitted-model template: the input with the
      predicted column added is stored under `frame`, or `frame` is set to
      `None`. */
  datatype Assignment = Predicted(frame: string, column: Value) | NoneAssigned(frame: string)

  datatype AgglomerativeConfig = AgglomerativeConfig(features: Value, alias: Value, nClusters: Value, linkage: Value, affinity: Value)
  datatype DbscanConfig = DbscanConfig(eps: Value, minSamples: Value, features: Value, alias: Value)
  datatype MixtureConfig = MixtureConfig(nComponents: Value, maxIterations: Value, tolerance: Value)
  datatype KMeansConfig = KMeansConfig(
    nClusters: Value, maxIter: Value, initMode: string, tolerance: Value, seed: Value, kind: string, hasImport: Import)

  datatype Code =
    | ModelFitCode(input: string, features: Value, algorithm: string, model: string, result: Assignment)
    | AgglomerativeCode(input: string, output: string, agglomerative: AgglomerativeConfig)
    | DbscanCode(input: string, output: string, dbscan: DbscanConfig)
    | MixtureCode(output: string, mixture: MixtureConfig)
    | MixtureModelCode(input: string, features: Value, model: string, mixture: MixtureConfig, output: string, prediction: Value)
    | KMeansCode(output: string, estimator: Estimator, kmeans: KMeansConfig)
    | KMeansModelCode(
        input: string, features: Value, model: string, estimator: Estimator, kmeans: KMeansConfig,
        output: string, prediction: Value)

  // ---------------------------------------------------------------------------
  // ClusteringModelOperation

  /** What a model operation with code knows: the feature column, the model
      identifier and, when it also transforms its input, the prediction
      column. */
  datatype ModelFit = ModelFit(features: Value, model: string, alias: Option<Value>)

  datatype ClusteringModel = ClusteringModel(op: Operation, fit: Option<ModelFit>)

  /** `ClusteringModelOperation.__init__`. */
  method NewClusteringModel(parameters: Params, namedInputs: PortMap, namedOutputs: PortMap)
    returns (r: Result<ClusteringModel>)
    ensures r.Err? <==> |namedInputs| == 2 && FirstOf(parameters, "features").Err?
    ensures r.Err? ==> r == Err(FirstOf(parameters, "features").error)
    ensures r.Ok? ==> (r.value.op.hasCode <==> |namedInputs| == 2)
    ensures r.Ok? ==> (r.value.fit.Some? <==> r.value.op.hasCode)
    ensures r.Ok? && !r.value.op.hasCode ==> r.value.op == Init(parameters, namedInputs, namedOutputs).(hasCode := false)
    ensures r.Ok? && r.value.op.hasCode ==>
      var base := Init(parameters, namedInputs, namedOutputs);
      var fit := r.value.fit.value;
      && r.value.op == base.(hasCode := true, output := r.value.op.output)
      && fit.features == FirstOf(parameters, "features").value
      && fit.model == PortOr(namedOutputs, "model", "model_" + base.output)
      && (HasPort(namedOutputs, OutputDataPort) ==>
            r.value.op.output == Lookup(namedOutputs, OutputDataPort).value
            && fit.alias == Some(Get(parameters, "prediction", Str("prediction"))))
      && (!HasPort(namedOutputs, OutputDataPort) ==>
            r.value.op.output == "task_" + Show(base.order) && fit.alias.None?
            && (!HasPort(namedOutputs, "model") ==> fit.model == "model_out_task_" + Show(base.order)))
  {
    var base := Init(parameters, namedInputs, namedOutputs);
    var op := base.(hasCode := |namedInputs| == 2);
    if !op.hasCode {
      return Ok(ClusteringModel(op, None));
    }
    var features :- FirstOf(parameters, "features");
    // the model identifier is derived from the output before the output is replaced
    var model := PortOr(namedOutputs, "model", "model_" + op.output);
    var alias: Option<Value>;
    if !HasPort(namedOutputs, OutputDataPort) {
      assert "model_" + base.output == "model_out_task_" + Show(base.order);
      op := op.(output := "task_" + Show(op.order));
      alias := None;
    } else {
      op := op.(output := Lookup(namedOutputs, OutputDataPort).value);
      alias := Some(Get(parameters, "prediction", Str("prediction")));
    }
    return Ok(ClusteringModel(op, Some(ModelFit(features, model, alias))));
  }

  /** `get_inputs_names`: the training data, then the algorithm. */
  function ClusteringModelInputsNames(m: ClusteringModel): (r: Result<string>)
    ensures r.Ok? <==> HasPort(m.op.namedInputs, "train input data") && HasPort(m.op.namedInputs, "algorithm")
    ensures r.Ok? ==>
      r.value == Lookup(m.op.namedInputs, "train input data").value + ", " + Lookup(m.op.namedInputs, "algorithm").value
  {
    var train :- Subscript(m.op.namedInputs, "train input data");
    var algorithm :- Subscript(m.op.namedInputs, "algorithm");
    JoinPair(", ", train, algorithm);
    Ok(Join(", ", [train, algorithm]))
  }

  /** `get_output_names(sep)`: the output then the model; without code the
      model identifier was never set. */
  function ClusteringModelOutputNames(m: ClusteringModel, sep: string): (r: Result<string>)
    ensures r.Ok? <==> m.fit.Some?
    ensures r.Ok? ==> r.value == m.op.output + sep + m.fit.value.model
  {
    if m.fit.None? then Err(RuntimeFault("'model' is not set"))
    else
      JoinPair(sep, m.op.output, m.fit.value.model);
      Ok(Join(sep, [m.op.output, m.fit.value.model]))
  }

  /** `generate_code`: fit the algorithm on the features, then either predict
      into the output frame or set the output to `None`. */
  function GenerateClusteringModel(m: ClusteringModel): (r: Result<Code>)
    ensures r.Ok? <==>
      && m.fit.Some? && HasPort(m.op.namedInputs, "train input data") && HasPort(m.op.namedInputs, "algorithm")
      && Formats(m.fit.value.features) && (m.fit.value.alias.Some? ==> Formats(m.fit.value.alias.value))
    ensures r.Err? && m.fit.Some? && HasPort(m.op.namedInputs, "train input data") && HasPort(m.op.namedInputs, "algorithm") ==>
      r == Err(RuntimeFault("UnicodeEncodeError"))
    ensures r.Ok? ==> r.value.ModelFitCode?
    ensures r.Ok? ==> r.value.input == Lookup(m.op.namedInputs, "train input data").value
    ensures r.Ok? ==> r.value.algorithm == Lookup(m.op.namedInputs, "algorithm").value
    ensures r.Ok? ==> r.value.model == m.fit.value.model && r.value.result.frame == m.op.output
    ensures r.Ok? ==> (r.value.result.NoneAssigned? <==> m.fit.value.alias.None?)
  {
    if m.fit.None? then Err(RuntimeFault("'features' is not set"))
    else
      var fit := m.fit.value;
      var input :- Subscript(m.op.namedInputs, "train input data");
      var algorithm :- Subscript(m.op.namedInputs, "algorithm");
      if !Formats(fit.features) || (fit.alias.Some? && !Formats(fit.alias.value)) then
        Err(RuntimeFault("UnicodeEncodeError"))
      else
        var result := match fit.alias
          case Some(column) => Predicted(m.op.output, column)
          case None => NoneAssigned(m.op.output);
        Ok(ModelFitCode(input, fit.features, algorithm, fit.model, result))
  }

  /** The identifiers the generated code assigns are the ones the operation
      reports as its output names, in the same order. */
  lemma ClusteringModelCodeWritesOutputNames(m: ClusteringModel, sep: char)
    requires GenerateClusteringModel(m).Ok?
    requires sep !in m.op.output && sep !in m.fit.value.model
    ensures
      var code := GenerateClusteringModel(m).value;
      Split(ClusteringModelOutputNames(m, [sep]).value, sep) == [code.result.frame, code.model]
  {
    PairRoundTrip(m.op.output, m.fit.value.model, sep);
  }

  // ---------------------------------------------------------------------------
  // AgglomerativeClusteringOperation and DBSCANClusteringOperation

  /** `len(named_inputs) > 0 and any([self.contains_results(), len(named_outputs) > 0])`:
      the list is built before `any` looks at it, so `contains_results` is
      evaluated (and may fail) whenever there is an input. */
  function InputGatedHasCode(op: Operation): (r: Result<bool>)
    ensures r.Err? <==> |op.namedInputs| > 0 && ContainsResults(op).Err?
    ensures r.Ok? ==> (r.value <==> |op.namedInputs| > 0 && (ContainsResults(op) == Ok(true) || |op.namedOutputs| > 0))
  {
    if |op.namedInputs| == 0 then Ok(false)
    else
      var shows :- ContainsResults(op);
      Ok(shows || |op.namedOutputs| > 0)
  }

  datatype Agglomerative = Agglomerative(op: Operation, config: Option<AgglomerativeConfig>)

  /** `AgglomerativeClusteringOperation.__init__`. A falsy number of clusters
      becomes 2, so of the given values only negative ones are refused. */
  method NewAgglomerative(parameters: Params, namedInputs: PortMap, namedOutputs: PortMap)
    returns (r: Result<Agglomerative>)
    ensures InputGatedHasCode(Init(parameters, namedInputs, namedOutputs)).Err? ==> r.Err?
    ensures r.Ok? ==> InputGatedHasCode(Init(parameters, namedInputs, namedOutputs)) == Ok(r.value.op.hasCode)
    ensures r.Ok? ==> (r.value.config.Some? <==> r.value.op.hasCode)
    ensures r.Ok? && !r.value.op.hasCode ==> r.value.op == Init(parameters, namedInputs, namedOutputs).(hasCode := false)
    ensures InputGatedHasCode(Init(parameters, namedInputs, namedOutputs)) == Ok(true) ==>
      && (r.Err? <==> FirstOf(parameters, "attributes").Err? || NegativeParam(parameters, "number_of_clusters"))
      && ("attributes" !in parameters ==> r == Err(MissingParameter("attributes")))
      && (FirstOf(parameters, "attributes").Ok? && NegativeParam(parameters, "number_of_clusters") ==>
            r == Err(InvalidParameter("number_of_clusters")))
    ensures r.Ok? && r.value.op.hasCode ==>
      var base := Init(parameters, namedInputs, namedOutputs);
      var config := r.value.config.value;
      && r.value.op == base.(hasCode := true, output := PortOr(namedOutputs, OutputDataPort, "output_data_" + Show(base.order)))
      && config.features == FirstOf(parameters, "attributes").value
      && config.alias == Get(parameters, "alias", Str("cluster"))
      && config.nClusters == GetOrDefault(parameters, "number_of_clusters", Int(2))
      && config.linkage == GetOrDefault(parameters, "linkage", Str("ward"))
      && config.affinity == GetOrDefault(parameters, "affinity", Str("euclidean"))
      && !AtMostZero(config.nClusters)
  {
    var op := Init(parameters, namedInputs, namedOutputs);
    var hasCode :- InputGatedHasCode(op);
    op := op.(hasCode := hasCode);
    if !hasCode {
      return Ok(Agglomerative(op, None));
    }
    op := op.(output := PortOr(namedOutputs, OutputDataPort, "output_data_" + Show(op.order)));
    var features :- FirstOf(parameters, "attributes");
    var alias := Get(parameters, "alias", Str("cluster"));
    var nClusters := GetOrDefault(parameters, "number_of_clusters", Int(2));
    var linkage := GetOrDefault(parameters, "linkage", Str("ward"));
    var affinity := GetOrDefault(parameters, "affinity", Str("euclidean"));
    DefaultedRejectsOnlyNegatives(parameters, "number_of_clusters", Int(2));
    if AtMostZero(nClusters) {
      return Err(InvalidParameter("number_of_clusters"));
    }
    return Ok(Agglomerative(op, Some(AgglomerativeConfig(features, alias, nClusters, linkage, affinity))));
  }

  /** Every setting the template formats in, as text, ASCII. */
  predicate AgglomerativeFormats(c: AgglomerativeConfig) {
    Formats(c.features) && Formats(c.alias) && Formats(c.nClusters) && Formats(c.linkage) && Formats(c.affinity)
  }

  function GenerateAgglomerative(a: Agglomerative): (r: Result<Code>)
    ensures r.Ok? <==> a.config.Some? && HasPort(a.op.namedInputs, "input data") && AgglomerativeFormats(a.config.value)
    ensures r.Err? && a.config.Some? && HasPort(a.op.namedInputs, "input data") ==>
      r == Err(RuntimeFault("UnicodeEncodeError"))
    ensures r.Ok? ==> r == Ok(AgglomerativeCode(Lookup(a.op.namedInputs, "input data").value, a.op.output, a.config.value))
  {
    if a.config.None? then Err(RuntimeFault("'features' is not set"))
    else
      var input :- Subscript(a.op.namedInputs, "input data");
      if !AgglomerativeFormats(a.config.value) then Err(RuntimeFault("UnicodeEncodeError"))
      else Ok(AgglomerativeCode(input, a.op.output, a.config.value))
  }

  datatype Dbscan = Dbscan(op: Operation, config: Option<DbscanConfig>)

  /** `DBSCANClusteringOperation.__init__`: `eps` falls back to 0.5 and
      `min_samples` to 5; `features` is required; the two numbers are then
      checked in that order. */
  method NewDbscan(parameters: Params, namedInputs: PortMap, namedOutputs: PortMap)
    returns (r: Result<Dbscan>)
    ensures InputGatedHasCode(Init(parameters, namedInputs, namedOutputs)).Err? ==> r.Err?
    ensures r.Ok? ==> InputGatedHasCode(Init(parameters, namedInputs, namedOutputs)) == Ok(r.value.op.hasCode)
    ensures r.Ok? ==> (r.value.config.Some? <==> r.value.op.hasCode)
    ensures r.Ok? && !r.value.op.hasCode ==> r.value.op == Init(parameters, namedInputs, namedOutputs).(hasCode := false)
    ensures InputGatedHasCode(Init(parameters, namedInputs, namedOutputs)) == Ok(true) ==>
      && (r.Err? <==> FirstOf(parameters, "features").Err? || NegativeParam(parameters, "eps")
                      || NegativeParam(parameters, "min_samples"))
      && ("features" !in parameters ==> r == Err(MissingParameter("features")))
      && (FirstOf(parameters, "features").Ok? && NegativeParam(parameters, "eps") ==>
            r == Err(InvalidParameter("eps")))
      && (FirstOf(parameters, "features").Ok? && !NegativeParam(parameters, "eps")
          && NegativeParam(parameters, "min_samples") ==>
            r == Err(InvalidParameter("min_samples")))
    ensures r.Ok? && r.value.op.hasCode ==>
      var base := Init(parameters, namedInputs, namedOutputs);
      var config := r.value.config.value;
      && r.value.op == base.(hasCode := true, output := PortOr(namedOutputs, OutputDataPort, "output_data_" + Show(base.order)))
      && config.eps == GetOrDefault(parameters, "eps", Real(0.5))
      && config.minSamples == GetOrDefault(parameters, "min_samples", Int(5))
      && config.features == FirstOf(parameters, "features").value
      && config.alias == Get(parameters, "alias", Str("cluster"))
      && !AtMostZero(config.eps) && !AtMostZero(config.minSamples)
  {
    var op := Init(parameters, namedInputs, namedOutputs);
    var hasCode :- InputGatedHasCode(op);
    op := op.(hasCode := hasCode);
    if !hasCode {
      return Ok(Dbscan(op, None));
    }
    op := op.(output := PortOr(namedOutputs, OutputDataPort, "output_data_" + Show(op.order)));
    var eps := GetOrDefault(parameters, "eps", Real(0.5));
    var minSamples := GetOrDefault(parameters, "min_samples", Int(5));
    var features :- FirstOf(parameters, "features");
    var alias := Get(parameters, "alias", Str("cluster"));
    DefaultedRejectsOnlyNegatives(parameters, "eps", Real(0.5));
    DefaultedRejectsOnlyNegatives(parameters, "min_samples", Int(5));
    var values, names := [eps, minSamples], ["eps", "min_samples"];
    assert values[0] == eps && values[1] == minSamples && names[0] == "eps" && names[1] == "min_samples";
    var positive := CheckPositive(values, names);
    if positive.Fail? {
      return Err(positive.error);
    }
    return Ok(Dbscan(op, Some(DbscanConfig(eps, minSamples, features, alias))));
  }

  /** Every setting the template formats in, as text, ASCII. */
  predicate DbscanFormats(c: DbscanConfig) {
    Formats(c.eps) && Formats(c.minSamples) && Formats(c.features) && Formats(c.alias)
  }

  function GenerateDbscan(d: Dbscan): (r: Result<Code>)
    ensures r.Ok? <==> d.config.Some? && HasPort(d.op.namedInputs, "input data") && DbscanFormats(d.config.value)
    ensures r.Err? && d.config.Some? && HasPort(d.op.namedInputs, "input data") ==>
      r == Err(RuntimeFault("UnicodeEncodeError"))
    ensures r.Ok? ==> r == Ok(DbscanCode(Lookup(d.op.namedInputs, "input data").value, d.op.output, d.config.value))
  {
    if d.config.None? then Err(RuntimeFault("'eps' is not set"))
    else
      var input :- Subscript(d.op.namedInputs, "input data");
      if !DbscanFormats(d.config.value) then Err(RuntimeFault("UnicodeEncodeError"))
      else Ok(DbscanCode(input, d.op.output, d.config.value))
  }

  // ---------------------------------------------------------------------------
  // Gaussian mixtures

  /** The settings both Gaussian mixture constructors read. */
  predicate MixtureSettingsFrom(p: Params, config: MixtureConfig) {
    && config.nComponents == GetOrDefault(p, "number_of_clusters", Int(1))
    && config.maxIterations == GetOrDefault(p, "max_iterations", Int(100))
    && config.tolerance == GetOrDefault(p, "tolerance", Real(0.001))
  }

  /** Lines 241-255 and 285-299: one component and 100 iterations by
      default, and neither may be at most zero. */
  method ReadMixtureParams(parameters: Params) returns (r: Result<MixtureConfig>)
    ensures r.Ok? <==> !NegativeParam(parameters, "number_of_clusters") && !NegativeParam(parameters, "max_iterations")
    ensures NegativeParam(parameters, "number_of_clusters") ==> r == Err(InvalidParameter("number_of_clusters"))
    ensures !NegativeParam(parameters, "number_of_clusters") && NegativeParam(parameters, "max_iterations") ==>
      r == Err(InvalidParameter("max_iterations"))
    ensures r.Ok? ==> MixtureSettingsFrom(parameters, r.value)
    ensures r.Ok? ==> !AtMostZero(r.value.nComponents) && !AtMostZero(r.value.maxIterations)
  {
    var nComponents := GetOrDefault(parameters, "number_of_clusters", Int(1));
    var maxIterations := GetOrDefault(parameters, "max_iterations", Int(100));
    var tolerance := GetOrDefault(parameters, "tolerance", Real(0.001));
    DefaultedRejectsOnlyNegatives(parameters, "number_of_clusters", Int(1));
    DefaultedRejectsOnlyNegatives(parameters, "max_iterations", Int(100));
    var values, names := [nComponents, maxIterations], ["number_of_clusters", "max_iterations"];
    assert values[0] == nComponents && values[1] == maxIterations && names[0] == "number_of_clusters" && names[1] == "max_iterations";
    var positive := CheckPositive(values, names);
    if positive.Fail? {
      return Err(positive.error);
    }
    return Ok(MixtureConfig(nComponents, maxIterations, tolerance));
  }

  datatype GaussianMixture = GaussianMixture(op: Operation, config: Option<MixtureConfig>)

  /** `GaussianMixtureClusteringOperation.__init__`: an algorithm, built only
      when some output is connected. */
  method NewGaussianMixture(parameters: Params, namedInputs: PortMap, namedOutputs: PortMap)
    returns (r: Result<GaussianMixture>)
    ensures |namedOutputs| == 0 ==> r == Ok(GaussianMixture(Init(parameters, namedInputs, namedOutputs).(hasCode := false), None))
    ensures |namedOutputs| > 0 ==>
      && (r.Ok? <==> !NegativeParam(parameters, "number_of_clusters") && !NegativeParam(parameters, "max_iterations"))
      && (NegativeParam(parameters, "number_of_clusters") ==> r == Err(InvalidParameter("number_of_clusters")))
    ensures |namedOutputs| > 0 && r.Ok? ==>
      var base := Init(parameters, namedInputs, namedOutputs);
      && r.value.op == base.(hasCode := true,
                             output := PortOr(namedOutputs, "algorithm", "clustering_algorithm_" + Show(base.order)))
      && r.value.config.Some? && MixtureSettingsFrom(parameters, r.value.config.value)
      && !AtMostZero(r.value.config.value.nComponents) && !AtMostZero(r.value.config.value.maxIterations)
  {
    var op := Init(parameters, namedInputs, namedOutputs);
    op := op.(hasCode := |namedOutputs| > 0);
    if !op.hasCode {
      return Ok(GaussianMixture(op, None));
    }
    op := op.(output := PortOr(namedOutputs, "algorithm", "clustering_algorithm_" + Show(op.order)));
    var config :- ReadMixtureParams(parameters);
    return Ok(GaussianMixture(op, Some(config)));
  }

  /** The two counts the templates format in, as text, ASCII (the tolerance
      is a float in the source). */
  predicate MixtureFormats(c: MixtureConfig) {
    Formats(c.nComponents) && Formats(c.maxIterations)
  }

  function GenerateMixture(g: GaussianMixture): (r: Result<Code>)
    ensures r.Ok? <==> g.config.Some? && MixtureFormats(g.config.value)
    ensures r.Err? && g.config.Some? ==> r == Err(RuntimeFault("UnicodeEncodeError"))
    ensures r.Ok? ==> r == Ok(MixtureCode(g.op.output, g.config.value))
  {
    match g.config
    case Some(config) =>
      if !MixtureFormats(config) then Err(RuntimeFault("UnicodeEncodeError"))
      else Ok(MixtureCode(g.op.output, config))
    case None => Err(RuntimeFault("'number_of_clusters' is not set"))
  }

  /** `any([len(named_outputs) > 0, self.contains_results()])`: both items
      are evaluated before `any` looks at them. */
  function OutputsOrResults(op: Operation): (r: Result<bool>)
    ensures r.Err? <==> ContainsResults(op).Err?
    ensures r.Ok? ==> (r.value <==> |op.namedOutputs| > 0 || ContainsResults(op).value)
  {
    var shows :- ContainsResults(op);
    Ok(|op.namedOutputs| > 0 || shows)
  }

  /** The clustering base of a model operation once it has code: the common
      parameters read, names as initialized. */
  predicate ModelBaseFrom(p: Params, namedInputs: PortMap, namedOutputs: PortMap, c: Clustering) {
    var init := ClusteringInit(p, namedInputs, namedOutputs);
    && c.op == init.op.(hasCode := true)
    && c.model == init.model
    && FirstOf(p, "features").Ok? && c.features == FirstOf(p, "features").value
    && c.prediction == Get(p, "prediction", PyNone)
  }

  datatype MixtureModel = MixtureModel(base: Clustering, config: Option<MixtureConfig>)

  /** `GaussianMixtureClusteringModelOperation.__init__`. */
  method NewGaussianMixtureModel(parameters: Params, namedInputs: PortMap, namedOutputs: PortMap)
    returns (r: Result<MixtureModel>)
    ensures OutputsOrResults(Init(parameters, namedInputs, namedOutputs)).Err? ==> r.Err?
    ensures r.Ok? ==> OutputsOrResults(Init(parameters, namedInputs, namedOutputs)) == Ok(r.value.base.op.hasCode)
    ensures r.Ok? ==> (r.value.config.Some? <==> r.value.base.op.hasCode)
    ensures r.Ok? && !r.value.base.op.hasCode ==>
      var init := ClusteringInit(parameters, namedInputs, namedOutputs);
      r.value.base == init.(op := init.op.(hasCode := false))
    ensures OutputsOrResults(Init(parameters, namedInputs, namedOutputs)) == Ok(true) ==>
      && (r.Ok? <==> FirstOf(parameters, "features").Ok? && !NegativeParam(parameters, "number_of_clusters")
                     && !NegativeParam(parameters, "max_iterations"))
      && ("features" !in parameters ==> r == Err(MissingParameter("features")))
    ensures r.Ok? && r.value.base.op.hasCode ==>
      && ModelBaseFrom(parameters, namedInputs, namedOutputs, r.value.base)
      && MixtureSettingsFrom(parameters, r.value.config.value)
      && !AtMostZero(r.value.config.value.nComponents) && !AtMostZero(r.value.config.value.maxIterations)
  {
    var c := ClusteringInit(parameters, namedInputs, namedOutputs);
    var hasCode :- OutputsOrResults(c.op);
    c := c.(op := c.op.(hasCode := hasCode));
    if !hasCode {
      return Ok(MixtureModel(c, None));
    }
    ReadCommonParamsKeepsNames(c, parameters);
    c :- ReadCommonParams(c, parameters);
    var config :- ReadMixtureParams(parameters);
    return Ok(MixtureModel(c, Some(config)));
  }

  function GenerateMixtureModel(m: MixtureModel): (r: Result<Code>)
    ensures r.Ok? <==>
      && m.config.Some? && HasPort(m.base.op.namedInputs, "train input data")
      && Formats(m.base.features) && Formats(m.base.prediction) && MixtureFormats(m.config.value)
    ensures r.Err? && m.config.Some? && HasPort(m.base.op.namedInputs, "train input data") ==>
      r == Err(RuntimeFault("UnicodeEncodeError"))
    ensures r.Ok? ==> r == Ok(MixtureModelCode(
      Lookup(m.base.op.namedInputs, "train input data").value, m.base.features, m.base.model,
      m.config.value, m.base.op.output, m.base.prediction))
  {
    if m.config.None? then Err(RuntimeFault("'number_of_clusters' is not set"))
    else
      var input :- Subscript(m.base.op.namedInputs, "train input data");
      if !(Formats(m.base.features) && Formats(m.base.prediction) && MixtureFormats(m.config.value)) then
        Err(RuntimeFault("UnicodeEncodeError"))
      else Ok(MixtureModelCode(input, m.base.features, m.base.model, m.config.value, m.base.op.output, m.base.prediction))
  }

  lemma MixtureModelCodeWritesOutputNames(m: MixtureModel, sep: char)
    requires GenerateMixtureModel(m).Ok?
    requires sep !in m.base.op.output && sep !in m.base.model
    ensures
      var code := GenerateMixtureModel(m).value;
      Split(ClusteringOutputNames(m.base, [sep]), sep) == [code.output, code.model]
  {
    PairRoundTrip(m.base.op.output, m.base.model, sep);
  }

  // ---------------------------------------------------------------------------
  // KMeans

  /** The test both the import and the template use: `type.lower() == "k-means"`. */
  predicate IsPlainKMeans(kind: string) {
    Lower(kind) == "k-means"
  }

  /** The import recorded by the constructor follows the algorithm type. */
  predicate ImportFollowsKind(config: KMeansConfig) {
    && (config.hasImport == Import(SklearnCluster, "KMeans") <==> IsPlainKMeans(config.kind))
    && (config.hasImport == Import(SklearnCluster, "MiniBatchKMeans") <==> !IsPlainKMeans(config.kind))
  }

  /** The parameters the KMeans constructors accept. */
  predicate KMeansAccepts(p: Params) {
    && DefaultsToStr(p, "init")
    && !NegativeParam(p, "n_clusters") && !NegativeParam(p, "max_iter")
    && DefaultsToStr(p, "type")
  }

  /** The settings both KMeans constructors read. */
  predicate KMeansSettingsFrom(p: Params, config: KMeansConfig)
    requires DefaultsToStr(p, "init") && DefaultsToStr(p, "type")
  {
    && config.nClusters == GetOrDefault(p, "n_clusters", Int(8))
    && config.maxIter == GetOrDefault(p, "max_iter", Int(300))
    && config.initMode == Lower(GetOrDefault(p, "init", Str("K-Means++")).s)
    && config.tolerance == Get(p, "tolerance", Real(0.001))
    && config.seed == GetOrDefault(p, "seed", Str("None"))
    && config.kind == GetOrDefault(p, "type", Str("K-Means")).s
    && ImportFollowsKind(config)
  }

  /** Lines 345-370 and 413-438: the init mode is lowered (so it must be a
      string), the two counts are checked, then the type is lowered (so it
      must be a string too) to choose the import. */
  method ReadKMeansParams(parameters: Params) returns (r: Result<KMeansConfig>)
    ensures r.Ok? <==> KMeansAccepts(parameters)
    ensures !DefaultsToStr(parameters, "init") ==> r.Err? && r.error.RuntimeFault?
    ensures DefaultsToStr(parameters, "init") && NegativeParam(parameters, "n_clusters") ==>
      r == Err(InvalidParameter("n_clusters"))
    ensures DefaultsToStr(parameters, "init") && !NegativeParam(parameters, "n_clusters") && NegativeParam(parameters, "max_iter") ==>
      r == Err(InvalidParameter("max_iter"))
    ensures r.Ok? ==> KMeansSettingsFrom(parameters, r.value)
    ensures r.Ok? ==> !AtMostZero(r.value.nClusters) && !AtMostZero(r.value.maxIter)
  {
    var nClusters := GetOrDefault(parameters, "n_clusters", Int(8));
    var maxIter := GetOrDefault(parameters, "max_iter", Int(300));
    var init := GetOrDefault(parameters, "init", Str("K-Means++"));
    if !init.Str? {
      return Err(RuntimeFault("'init' has no attribute 'lower'"));
    }
    var initMode := Lower(init.s);
    var tolerance := Get(parameters, "tolerance", Real(0.001));
    var seed := GetOrDefault(parameters, "seed", Str("None"));
    var kind := GetOrDefault(parameters, "type", Str("K-Means"));
    DefaultedRejectsOnlyNegatives(parameters, "n_clusters", Int(8));
    DefaultedRejectsOnlyNegatives(parameters, "max_iter", Int(300));
    var values, names := [nClusters, maxIter], ["n_clusters", "max_iter"];
    assert values[0] == nClusters && values[1] == maxIter && names[0] == "n_clusters" && names[1] == "max_iter";
    var positive := CheckPositive(values, names);
    if positive.Fail? {
      return Err(positive.error);
    }
    if !kind.Str? {
      return Err(RuntimeFault("'type' has no attribute 'lower'"));
    }
    var hasImport := if IsPlainKMeans(kind.s) then ImportOf(KMeansEstimator) else ImportOf(MiniBatchKMeansEstimator);
    return Ok(KMeansConfig(nClusters, maxIter, initMode, tolerance, seed, kind.s, hasImport));
  }

  datatype KMeans = KMeans(op: Operation, config: Option<KMeansConfig>)

  /** `KMeansClusteringOperation.__init__`: an algorithm, built only when
      some output is connected. */
  method NewKMeans(parameters: Params, namedInputs: PortMap, namedOutputs: PortMap) returns (r: Result<KMeans>)
    ensures |namedOutputs| == 0 ==> r == Ok(KMeans(Init(parameters, namedInputs, namedOutputs).(hasCode := false), None))
    ensures |namedOutputs| > 0 ==> (r.Ok? <==> KMeansAccepts(parameters))
    ensures |namedOutputs| > 0 && r.Ok? ==>
      var base := Init(parameters, namedInputs, namedOutputs);
      && r.value.op == base.(hasCode := true,
                             output := PortOr(namedOutputs, "algorithm", "clustering_algorithm_" + Show(base.order)))
      && r.value.config.Some? && KMeansSettingsFrom(parameters, r.value.config.value)
      && !AtMostZero(r.value.config.value.nClusters) && !AtMostZero(r.value.config.value.maxIter)
  {
    var op := Init(parameters, namedInputs, namedOutputs);
    op := op.(hasCode := |namedOutputs| > 0);
    if !op.hasCode {
      return Ok(KMeans(op, None));
    }
    op := op.(output := PortOr(namedOutputs, "algorithm", "clustering_algorithm_" + Show(op.order)));
    var config :- ReadKMeansParams(parameters);
    return Ok(KMeans(op, Some(config)));
  }

  /** The estimator the template names: KMeans for the type "k-means" in any
      letter case, MiniBatchKMeans for every other type. */
  function SelectEstimator(kind: string): (e: Estimator)
    ensures e == KMeansEstimator <==> IsPlainKMeans(kind)
  {
    if IsPlainKMeans(kind) then KMeansEstimator else MiniBatchKMeansEstimator
  }

  /** The settings the templates format in, as text, ASCII (the tolerance
      is a float in the source; the type is only compared). */
  predicate KMeansFormats(c: KMeansConfig) {
    Formats(c.nClusters) && Formats(c.maxIter) && IsAscii(c.initMode) && Formats(c.seed)
  }

  function GenerateKMeans(k: KMeans): (r: Result<Code>)
    ensures r.Ok? <==> k.config.Some? && KMeansFormats(k.config.value)
    ensures r.Err? && k.config.Some? ==> r == Err(RuntimeFault("UnicodeEncodeError"))
    ensures r.Ok? ==> r.value.KMeansCode? && r.value.output == k.op.output && r.value.kmeans == k.config.value
    ensures r.Ok? ==> (r.value.estimator == KMeansEstimator <==> IsPlainKMeans(k.config.value.kind))
  {
    match k.config
    case Some(config) =>
      if !KMeansFormats(config) then Err(RuntimeFault("UnicodeEncodeError"))
      else Ok(KMeansCode(k.op.output, SelectEstimator(config.kind), config))
    case None => Err(RuntimeFault("'type' is not set"))
  }

  /** The import recorded at construction names the class the generated code
      instantiates. */
  lemma KMeansImportMatchesCode(k: KMeans)
    requires k.config.Some? && ImportFollowsKind(k.config.value) && KMeansFormats(k.config.value)
    ensures GenerateKMeans(k).Ok?
    ensures ImportOf(GenerateKMeans(k).value.estimator) == k.config.value.hasImport
  {
  }

  datatype KMeansModel = KMeansModel(base: Clustering, config: Option<KMeansConfig>)

  /** `KMeansClusteringModelOperation.__init__`. */
  method NewKMeansModel(parameters: Params, namedInputs: PortMap, namedOutputs: PortMap)
    returns (r: Result<KMeansModel>)
    ensures OutputsOrResults(Init(parameters, namedInputs, namedOutputs)).Err? ==> r.Err?
    ensures r.Ok? ==> OutputsOrResults(Init(parameters, namedInputs, namedOutputs)) == Ok(r.value.base.op.hasCode)
    ensures r.Ok? ==> (r.value.config.Some? <==> r.value.base.op.hasCode)
    ensures r.Ok? && !r.value.base.op.hasCode ==>
      var init := ClusteringInit(parameters, namedInputs, namedOutputs);
      r.value.base == init.(op := init.op.(hasCode := false))
    ensures OutputsOrResults(Init(parameters, namedInputs, namedOutputs)) == Ok(true) ==>
      && (r.Ok? <==> FirstOf(parameters, "features").Ok? && KMeansAccepts(parameters))
      && ("features" !in parameters ==> r == Err(MissingParameter("features")))
    ensures r.Ok? && r.value.base.op.hasCode ==>
      && ModelBaseFrom(parameters, namedInputs, namedOutputs, r.value.base)
      && KMeansSettingsFrom(parameters, r.value.config.value)
      && !AtMostZero(r.value.config.value.nClusters) && !AtMostZero(r.value.config.value.maxIter)
  {
    var c := ClusteringInit(parameters, namedInputs, namedOutputs);
    var hasCode :- OutputsOrResults(c.op);
    c := c.(op := c.op.(hasCode := hasCode));
    if !hasCode {
      return Ok(KMeansModel(c, None));
    }
    ReadCommonParamsKeepsNames(c, parameters);
    c :- ReadCommonParams(c, parameters);
    var config :- ReadKMeansParams(parameters);
    return Ok(KMeansModel(c, Some(config)));
  }

  function GenerateKMeansModel(k: KMeansModel): (r: Result<Code>)
    ensures r.Ok? <==>
      && k.config.Some? && HasPort(k.base.op.namedInputs, "train input data")
      && Formats(k.base.features) && KMeansFormats(k.config.value) && Formats(k.base.prediction)
    ensures r.Err? && k.config.Some? && HasPort(k.base.op.namedInputs, "train input data") ==>
      r == Err(RuntimeFault("UnicodeEncodeError"))
    ensures r.Ok? ==> r.value.KMeansModelCode? && r.value.kmeans == k.config.value
    ensures r.Ok? ==> r.value.input == Lookup(k.base.op.namedInputs, "train input data").value
    ensures r.Ok? ==> r.value.features == k.base.features && r.value.prediction == k.base.prediction
    ensures r.Ok? ==> r.value.model == k.base.model && r.value.output == k.base.op.output
    ensures r.Ok? ==> (r.value.estimator == KMeansEstimator <==> IsPlainKMeans(k.config.value.kind))
  {
    if k.config.None? then Err(RuntimeFault("'type' is not set"))
    else
      var config := k.config.value;
      var input :- Subscript(k.base.op.namedInputs, "train input data");
      if !(Formats(k.base.features) && KMeansFormats(config) && Formats(k.base.prediction)) then
        Err(RuntimeFault("UnicodeEncodeError"))
      else Ok(KMeansModelCode(
        input, k.base.features, k.base.model, SelectEstimator(config.kind), config, k.base.op.output, k.base.prediction))
  }

  lemma KMeansModelImportMatchesCode(k: KMeansModel)
    requires GenerateKMeansModel(k).Ok? && ImportFollowsKind(k.config.value)
    ensures ImportOf(GenerateKMeansModel(k).value.estimator) == k.config.value.hasImport
  {
  }

  lemma KMeansModelCodeWritesOutputNames(k: KMeansModel, sep: char)
    requires GenerateKMeansModel(k).Ok?
    requires sep !in k.base.op.output && sep !in k.base.model
    ensures
      var code := GenerateKMeansModel(k).value;
      Split(ClusteringOutputNames(k.base, [sep]), sep) == [code.output, code.model]
  {
    PairRoundTrip(k.base.op.output, k.base.model, sep);
  }
}
