/** The Spark ML operations (juicer/spark/ml_operation.py): feature indexing,
    model evaluation, cross validation, classifiers and clustering. Each
    constructor is a method that validates and defaults its parameters in the
    order the source does and returns the configured operation or the first
    failure; generated code is recorded as the template chosen and the
    identifiers and values substituted into it. */
module SparkMl {
  import opened Outcomes
  import opened PyStrings
  import opened PyValues
  import opened Operations
  import opened SparkBase

  // ---------------------------------------------------------------------------
  // FeatureIndexer: aliases

  function Head<T>(xs: seq<T>): (h: Option<T>)
    ensures h.Some? <==> |xs| > 0
    ensures |xs| > 0 ==> h.value == xs[0]
  {
    if |xs| > 0 then Some(xs[0]) else None
  }

  function Tail<T>(xs: seq<T>): (t: seq<T>)
    ensures |xs| > 0 ==> t == xs[1..]
    ensures |xs| == 0 ==> t == []
  {
    if |xs| > 0 then xs[1..] else []
  }

  function Max(a: nat, b: nat): nat {
    if a >= b then a else b
  }

  /** `izip_longest(xs, ys)`: pairs as long as the longer sequence, the
      shorter one padded with `None`. */
  function ZipLongest<A, B>(xs: seq<A>, ys: seq<B>): (pairs: seq<(Option<A>, Option<B>)>)
    ensures |pairs| == Max(|xs|, |ys|)
    ensures forall k :: 0 <= k < |pairs| ==> pairs[k].0 == (if k < |xs| then Some(xs[k]) else None)
    ensures forall k :: 0 <= k < |pairs| ==> pairs[k].1 == (if k < |ys| then Some(ys[k]) else None)
    decreases |xs| + |ys|
  {
    if |xs| == 0 && |ys| == 0 then []
    else [(Head(xs), Head(ys))] + ZipLongest(Tail(xs), Tail(ys))
  }

  /** `zip(xs, ys)`: pairs as long as the shorter sequence. */
  function Zip<A, B>(xs: seq<A>, ys: seq<B>): (pairs: seq<(A, B)>)
    ensures |pairs| == if |xs| <= |ys| then |xs| else |ys|
    ensures forall k :: 0 <= k < |pairs| ==> pairs[k] == (xs[k], ys[k])
  {
    var n := if |xs| <= |ys| then |xs| else |ys|;
    seq(n, k requires 0 <= k < n => (xs[k], ys[k]))
  }

  function ShowOption(v: Option<Value>): string {
    match v
    case Some(x) => Show(x)
    case None => "None"
  }

  /** `x[1] or '{}_indexed'.format(x[0])` for one pair of the padded zip. */
  function AliasFor(pair: (Option<Value>, Option<string>)): string {
    if pair.1.Some? && pair.1.value != "" then pair.1.value else ShowOption(pair.0) + "_indexed"
  }

  /** `[a.strip() for a in alias.split(',')]`: the user's aliases, one per
      comma-separated piece, surrounding whitespace removed. */
  function StrippedAliases(alias: Value): (r: Result<seq<string>>)
    ensures r.Ok? <==> alias.Str?
    ensures r.Ok? ==> |r.value| == |Split(alias.s, ',')| >= 1
    ensures r.Ok? ==> forall k :: 0 <= k < |r.value| ==> r.value[k] == Strip(Split(alias.s, ',')[k])
  {
    match alias
    case Str(s) =>
      var pieces := Split(s, ',');
      Ok(seq(|pieces|, k requires 0 <= k < |pieces| => Strip(pieces[k])))
    case _ => Err(RuntimeFault("'alias' has no attribute 'split'"))
  }

  /** A comma-separated list of names that have no commas and no surrounding
      whitespace parses back to those names. */
  lemma AliasListRoundTrip(names: seq<string>)
    requires |names| >= 1
    requires forall k :: 0 <= k < |names| ==> ',' !in names[k]
    requires forall k :: 0 <= k < |names| ==> |names[k]| > 0 ==> !IsSpace(names[k][0]) && !IsSpace(names[k][|names[k]| - 1])
    ensures StrippedAliases(Str(Join([','], names))) == Ok(names)
  {
    SplitJoin(names, ',');
    forall k | 0 <= k < |names|
      ensures Strip(names[k]) == names[k]
    {
      StripKeeps(names[k]);
    }
    StrippedUnchanged(Join([','], names), names);
  }

  lemma StrippedUnchanged(s: string, pieces: seq<string>)
    requires Split(s, ',') == pieces
    requires forall k :: 0 <= k < |pieces| ==> Strip(pieces[k]) == pieces[k]
    ensures StrippedAliases(Str(s)) == Ok(pieces)
  {
    var stripped := StrippedAliases(Str(s)).value;
    assert |stripped| == |pieces|;
    assert forall k :: 0 <= k < |stripped| ==> stripped[k] == pieces[k];
    assert stripped == pieces;
  }

  /** An alias text without any whitespace is exactly its aliases joined by
      commas again. */
  lemma AliasesRejoin(alias: string)
    requires forall k :: 0 <= k < |alias| ==> !IsSpace(alias[k])
    ensures StrippedAliases(Str(alias)).Ok?
    ensures Join([','], StrippedAliases(Str(alias)).value) == alias
  {
    var pieces := Split(alias, ',');
    JoinSplit(alias, ',');
    forall k | 0 <= k < |pieces|
      ensures Strip(pieces[k]) == pieces[k]
    {
      SplitChars(alias, ',');
      var piece := pieces[k];
      if |piece| > 0 {
        var first, last := piece[0], piece[|piece| - 1];
        assert first in alias && last in alias;
        var i :| 0 <= i < |alias| && alias[i] == first;
        var j :| 0 <= j < |alias| && alias[j] == last;
      }
      StripKeeps(piece);
    }
    StrippedUnchanged(alias, pieces);
  }

  /** One alias per attribute. The user's aliases beyond the number
      of attributes are dropped; a missing or blank alias becomes the
      attribute name followed by `_indexed`. */
  function IndexerAliases(attributes: seq<Value>, aliases: seq<string>): (r: seq<string>)
    ensures |r| == |attributes|
    ensures forall k :: 0 <= k < |attributes| && k < |aliases| && aliases[k] != "" ==> r[k] == aliases[k]
    ensures forall k :: 0 <= k < |attributes| && !(k < |aliases| && aliases[k] != "") ==>
      r[k] == Show(attributes[k]) + "_indexed"
  {
    var kept := if |aliases| <= |attributes| then aliases else aliases[..|attributes|];
    var pairs := ZipLongest(attributes, kept);
    seq(|pairs|, k requires 0 <= k < |pairs| => AliasFor(pairs[k]))
  }

  /** Aliases beyond the number of attributes never change the result. */
  lemma SurplusAliasesDropped(attributes: seq<Value>, aliases: seq<string>, surplus: seq<string>)
    requires |aliases| >= |attributes|
    ensures IndexerAliases(attributes, aliases + surplus) == IndexerAliases(attributes, aliases)
  {
    var a, b := IndexerAliases(attributes, aliases + surplus), IndexerAliases(attributes, aliases);
    forall k | 0 <= k < |attributes|
      ensures a[k] == b[k]
    {
      assert (aliases + surplus)[k] == aliases[k];
    }
  }

  /** With a non-blank alias for every attribute the aliases are used as
      given, in order. */
  lemma GivenAliasesKept(attributes: seq<Value>, aliases: seq<string>)
    requires |aliases| >= |attributes|
    requires forall k :: 0 <= k < |aliases| ==> aliases[k] != ""
    ensures IndexerAliases(attributes, aliases) == aliases[..|attributes|]
  {
  }

  /** `'{}_indexed'.format(x[0])` formats into a byte-string template, so it
      raises `UnicodeEncodeError` for a `unicode` attribute name with a
      non-ASCII character. It is evaluated only for the attributes without a
      non-blank alias of their own. */
  predicate DefaultAliasesEncode(attributes: seq<Value>, aliases: seq<string>) {
    forall k :: 0 <= k < |attributes| && !(k < |aliases| && aliases[k] != "") && attributes[k].Str? ==>
      IsAscii(attributes[k].s)
  }

  /** With a non-blank alias for every attribute no default alias is
      formatted, so no attribute name can make the aliasing fail. */
  lemma GivenAliasesEncode(attributes: seq<Value>, aliases: seq<string>)
    requires |aliases| >= |attributes|
    requires forall k :: 0 <= k < |aliases| ==> aliases[k] != ""
    ensures DefaultAliasesEncode(attributes, aliases)
  {
  }

  /** A non-ASCII attribute name is accepted exactly when it comes with a
      non-blank alias of its own. */
  lemma NonAsciiAttributeNeedsAlias(name: string, alias: string)
    requires !IsAscii(name)
    ensures DefaultAliasesEncode([Str(name)], [alias]) <==> alias != ""
  {
    if alias == "" {
      assert [Str(name)][0] == Str(name);
    }
  }

  // ---------------------------------------------------------------------------
  // FeatureIndexer

  datatype FeatureIndexer = FeatureIndexer(
    base: SparkOperation, attributes: seq<Value>, kind: Value, aliases: seq<string>, maxCategories: int)

  /** What `FeatureIndexer.__init__` accepts, in the order it checks:
      `attributes` present, `alias` splittable, `max_categories` present, an
      integer and not negative, `attributes` iterable, and every default
      alias encodable. */
  predicate IndexerAccepts(p: Params) {
    && "attributes" in p
    && Get(p, "alias", Str("")).Str?
    && "max_categories" in p && ToInt(p["max_categories"]).Ok? && ToInt(p["max_categories"]).value >= 0
    && Elements(p["attributes"]).Ok?
    && DefaultAliasesEncode(Elements(p["attributes"]).value, StrippedAliases(Get(p, "alias", Str(""))).value)
  }

  /** A `max_categories` given as the decimal text of an integer is read as
      that integer, so such a request with encodable default aliases is
      accepted exactly when the integer is not negative. */
  lemma DecimalMaxCategories(p: Params, i: int)
    requires "attributes" in p && p["attributes"].List?
    requires Get(p, "alias", Str("")).Str?
    requires "max_categories" in p && p["max_categories"] == Str(Show(Int(i)))
    ensures ToInt(p["max_categories"]) == Ok(i)
    ensures IndexerAccepts(p) <==>
      i >= 0 && DefaultAliasesEncode(p["attributes"].items, StrippedAliases(Get(p, "alias", Str(""))).value)
  {
    ShowIntRoundTrip(i);
  }

  /** A `max_categories` written with a sign, whitespace after it and then
      digits, such as "+ 3", is read as the signed number, so it is accepted
      with a plus sign and refused with a minus sign unless it is zero. */
  lemma SpacedSignMaxCategories(p: Params, sign: char, spaces: string, n: nat)
    requires "attributes" in p && p["attributes"].List?
    requires Get(p, "alias", Str("")).Str?
    requires sign == '+' || sign == '-'
    requires forall k :: 0 <= k < |spaces| ==> IsSpace(spaces[k])
    requires "max_categories" in p && p["max_categories"] == Str([sign] + spaces + NatToString(n))
    ensures ToInt(p["max_categories"]) == Ok(if sign == '-' then -(n as int) else n as int)
    ensures IndexerAccepts(p) <==>
      (sign == '+' || n == 0) && DefaultAliasesEncode(p["attributes"].items, StrippedAliases(Get(p, "alias", Str(""))).value)
  {
    ParseIntSpaceAfterSign(sign, spaces, n);
  }

  method NewFeatureIndexer(parameters: Params, inputs: seq<string>, outputs: seq<string>,
                           namedInputs: PortMap, namedOutputs: PortMap) returns (r: Result<FeatureIndexer>)
    ensures r.Ok? <==> IndexerAccepts(parameters)
    ensures "attributes" !in parameters ==> r == Err(MissingParameter("attributes"))
    ensures "attributes" in parameters && Get(parameters, "alias", Str("")).Str? && "max_categories" !in parameters ==>
      r == Err(MissingParameter("max_categories"))
    ensures "attributes" in parameters && Get(parameters, "alias", Str("")).Str? && "max_categories" in parameters
            && ToInt(parameters["max_categories"]).Ok? && ToInt(parameters["max_categories"]).value < 0 ==>
      r == Err(InvalidParameter("max_categories"))
    ensures "attributes" in parameters && Get(parameters, "alias", Str("")).Str? && "max_categories" in parameters
            && ToInt(parameters["max_categories"]).Ok? && ToInt(parameters["max_categories"]).value >= 0
            && Elements(parameters["attributes"]).Ok?
            && !DefaultAliasesEncode(Elements(parameters["attributes"]).value,
                                     StrippedAliases(Get(parameters, "alias", Str(""))).value) ==>
      r == Err(RuntimeFault("UnicodeEncodeError"))
    ensures r.Ok? ==>
      && r.value.base == SparkInit(parameters, inputs, outputs, namedInputs, namedOutputs)
      && r.value.attributes == Elements(parameters["attributes"]).value
      && r.value.kind == Get(parameters, "indexer_type", Str("string"))
      && r.value.maxCategories == ToInt(parameters["max_categories"]).value >= 0
      && r.value.aliases == IndexerAliases(r.value.attributes, StrippedAliases(Get(parameters, "alias", Str(""))).value)
      && |r.value.aliases| == |r.value.attributes|
  {
    var base := SparkInit(parameters, inputs, outputs, namedInputs, namedOutputs);
    if "attributes" !in parameters {
      return Err(MissingParameter("attributes"));
    }
    var attributes := parameters["attributes"];
    var kind := Get(parameters, "indexer_type", Str("string"));
    var aliases :- StrippedAliases(Get(parameters, "alias", Str("")));
    if "max_categories" !in parameters {
      return Err(MissingParameter("max_categories"));
    }
    var maxCategories :- ToInt(parameters["max_categories"]);
    if !(maxCategories >= 0) {
      return Err(InvalidParameter("max_categories"));
    }
    var columns :- Elements(attributes);
    if !DefaultAliasesEncode(columns, aliases) {
      return Err(RuntimeFault("UnicodeEncodeError"));
    }
    return Ok(FeatureIndexer(base, columns, kind, IndexerAliases(columns, aliases), maxCategories));
  }

  datatype Indexer = StringIndexer | VectorIndexer(maxCategories: int)

  /** The indexing template: which indexer, the input and output frames and
      the (attribute, alias) pairs. */
  datatype IndexerCode = IndexerCode(indexer: Indexer, input: string, output: string, columns: seq<(Value, string)>)

  /** `generate_code`: the type "string" selects the string indexer, "vector"
      the vector indexer with the category bound; any other type is refused. */
  function GenerateFeatureIndexer(f: FeatureIndexer): (r: Result<IndexerCode>)
    ensures f.kind != Str("string") && f.kind != Str("vector") ==> r == Err(InvalidParameter("indexer_type"))
    ensures (f.kind == Str("string") || f.kind == Str("vector")) ==> (r.Ok? <==> |f.base.inputs| > 0)
    ensures r.Ok? ==> (r.value.indexer == StringIndexer <==> f.kind == Str("string"))
    ensures r.Ok? && f.kind == Str("vector") ==> r.value.indexer == VectorIndexer(f.maxCategories)
    ensures r.Ok? ==> r.value.input == f.base.inputs[0] && r.value.output == f.base.op.output
    ensures r.Ok? && |f.aliases| == |f.attributes| ==>
      |r.value.columns| == |f.attributes|
      && forall k :: 0 <= k < |f.attributes| ==> r.value.columns[k] == (f.attributes[k], f.aliases[k])
  {
    var indexer :-
      if f.kind == Str("string") then Ok(StringIndexer)
      else if f.kind == Str("vector") then Ok(VectorIndexer(f.maxCategories))
      else Err(InvalidParameter("indexer_type"));
    var input :- FirstInput(f.base);
    Ok(IndexerCode(indexer, input, f.base.op.output, Zip(f.attributes, f.aliases)))
  }

  /** `get_output_names(sep)`: the indexed frame, then the models. */
  function FeatureIndexerOutputNames(f: FeatureIndexer, sep: string): (r: Result<string>)
    ensures r.Ok? <==> |f.base.outputs| > 0 || |f.base.inputs| > 0
    ensures r.Ok? ==> r.value == FirstOutputOrTmp(f.base).value + sep + "models"
  {
    var output :- FirstOutputOrTmp(f.base);
    JoinPair(sep, output, "models");
    Ok(Join(sep, [output, "models"]))
  }

  /** `get_data_out_names`: the indexed frame alone. */
  function FeatureIndexerDataOutNames(f: FeatureIndexer, sep: string): (r: Result<string>)
    ensures |f.base.outputs| > 0 ==> r == Ok(f.base.outputs[0])
    ensures |f.base.outputs| == 0 && |f.base.inputs| > 0 ==> r == Ok(f.base.inputs[0] + "_tmp")
    ensures r.Err? <==> |f.base.outputs| == 0 && |f.base.inputs| == 0
  {
    FirstOutputOrTmp(f.base)
  }

  // ---------------------------------------------------------------------------
  // EvaluateModel

  const BinaryEvaluator := "evaluation.BinaryClassificationEvaluator"
  const MulticlassEvaluator := "evaluation.MulticlassClassificationEvaluator"
  const RegressionEvaluator := "evaluation.RegressionEvaluator"

  /** `METRIC_TO_EVALUATOR`: the evaluator class and the name of its
      prediction-column parameter for each supported metric. */
  const MetricToEvaluator: map<string, (string, string)> := map[
    "areaUnderROC" := (BinaryEvaluator, "rawPredictionCol"),
    "areaUnderPR" := (BinaryEvaluator, "rawPredictionCol"),
    "f1" := (MulticlassEvaluator, "predictionCol"),
    "weightedPrecision" := (MulticlassEvaluator, "predictionCol"),
    "weightedRecall" := (MulticlassEvaluator, "predictionCol"),
    "accuracy" := (MulticlassEvaluator, "predictionCol"),
    "rmse" := (RegressionEvaluator, "predictionCol"),
    "mse" := (RegressionEvaluator, "predictionCol"),
    "mae" := (RegressionEvaluator, "predictionCol")]

  /** The table's metrics: two for binary classification, four for
      multiclass classification and three for regression. */
  lemma EvaluatorTable()
    ensures MetricToEvaluator.Keys == {"areaUnderROC", "areaUnderPR", "f1", "weightedPrecision", "weightedRecall",
                                       "accuracy", "rmse", "mse", "mae"}
    ensures forall m :: m in MetricToEvaluator && MetricToEvaluator[m].0 == MulticlassEvaluator ==>
      m in {"f1", "weightedPrecision", "weightedRecall", "accuracy"}
    ensures forall m :: m in MetricToEvaluator && MetricToEvaluator[m].0 == RegressionEvaluator ==>
      m in {"rmse", "mse", "mae"}
    ensures forall m :: m in MetricToEvaluator ==>
      MetricToEvaluator[m].0 in {BinaryEvaluator, MulticlassEvaluator, RegressionEvaluator}
  {
  }

  /** The two area metrics, and only they, use the binary evaluator and pass
      the raw prediction column; every other metric passes the prediction
      column. */
  lemma RawPredictionOnlyForAreaMetrics(metric: string)
    requires metric in MetricToEvaluator
    ensures MetricToEvaluator[metric].1 == "rawPredictionCol" <==> metric == "areaUnderROC" || metric == "areaUnderPR"
    ensures MetricToEvaluator[metric].0 == BinaryEvaluator <==> metric == "areaUnderROC" || metric == "areaUnderPR"
    ensures MetricToEvaluator[metric].1 != "rawPredictionCol" ==> MetricToEvaluator[metric].1 == "predictionCol"
  {
  }

  datatype EvaluateModel = EvaluateModel(
    base: SparkOperation, predictionAttribute: Value, labelAttribute: Value, metric: string,
    evaluator: string, predictionColumnParam: string)

  /** `(parameters.get(key) or [''])[0]`: the first selected attribute, or
      the empty string when nothing is selected. */
  function FirstOrBlank(p: Params, key: string): (r: Result<Value>)
    ensures key !in p ==> r == Ok(Str(""))
    ensures key in p && p[key].List? && |p[key].items| > 0 ==> r == Ok(p[key].items[0])
    ensures key in p && p[key] == List([]) ==> r == Ok(Str(""))
    ensures key in p && !Truthy(p[key]) ==> r == Ok(Str(""))
    ensures key in p && Truthy(p[key]) ==> r == Item(p[key], 0)
    ensures key in p && p[key].Str? && |p[key].s| > 0 ==> r == Ok(Str([p[key].s[0]]))
    ensures key in p && Truthy(p[key]) && !p[key].List? && !p[key].Str? ==> r.Err?
  {
    Item(Or(Get(p, key, PyNone), List([Str("")])), 0)
  }

  /** `parameters.get('metric') or ''`. */
  function MetricParam(p: Params): (v: Value)
    ensures "metric" !in p ==> v == Str("")
    ensures "metric" in p && Truthy(p["metric"]) ==> v == p["metric"]
    ensures "metric" in p && !Truthy(p["metric"]) ==> v == Str("")
  {
    Or(Get(p, "metric", PyNone), Str(""))
  }

  method NewEvaluateModel(parameters: Params, inputs: seq<string>, outputs: seq<string>,
                          namedInputs: PortMap, namedOutputs: PortMap) returns (r: Result<EvaluateModel>)
    ensures r.Ok? <==>
      && FirstOrBlank(parameters, "prediction_attribute").Ok? && FirstOrBlank(parameters, "label_attribute").Ok?
      && FirstOrBlank(parameters, "prediction_attribute").value != Str("")
      && FirstOrBlank(parameters, "label_attribute").value != Str("")
      && MetricParam(parameters).Str? && MetricParam(parameters).s in MetricToEvaluator
    ensures FirstOrBlank(parameters, "prediction_attribute").Ok? && FirstOrBlank(parameters, "label_attribute").Ok?
            && ("prediction_attribute" !in parameters || "label_attribute" !in parameters || "metric" !in parameters) ==>
      r == Err(MissingParameter("prediction_attribute, label_attribute, metric"))
    ensures r.Ok? ==>
      && r.value.predictionAttribute == FirstOrBlank(parameters, "prediction_attribute").value
      && r.value.labelAttribute == FirstOrBlank(parameters, "label_attribute").value
      && r.value.metric == MetricParam(parameters).s
      && (r.value.evaluator, r.value.predictionColumnParam) == MetricToEvaluator[r.value.metric]
    ensures r.Ok? ==>
      var base := SparkInit(parameters, inputs, outputs, namedInputs, namedOutputs);
      r.value.base == base.(op := base.op.(hasCode := |inputs| > 0 && |base.op.output| > 0))
  {
    var base := SparkInit(parameters, inputs, outputs, namedInputs, namedOutputs);
    var prediction :- FirstOrBlank(parameters, "prediction_attribute");
    var labelAttribute :- FirstOrBlank(parameters, "label_attribute");
    var metric := MetricParam(parameters);
    if !(prediction != Str("") && labelAttribute != Str("") && metric != Str("")) {
      return Err(MissingParameter("prediction_attribute, label_attribute, metric"));
    }
    if !(metric.Str? && metric.s in MetricToEvaluator) {
      return Err(InvalidParameter("metric"));
    }
    var (evaluator, column) := MetricToEvaluator[metric.s];
    base := base.(op := base.op.(hasCode := |inputs| > 0 && |base.op.output| > 0));
    return Ok(EvaluateModel(base, prediction, labelAttribute, metric.s, evaluator, column));
  }

  // ---------------------------------------------------------------------------
  // CrossValidationOperation

  datatype CrossValidation = CrossValidation(base: SparkOperation, folds: Value)

  /** `CrossValidationOperation.__init__`: exactly three inputs (algorithm,
      data, evaluator) are required; three folds by default. */
  method NewCrossValidation(parameters: Params, inputs: seq<string>, outputs: seq<string>,
                            namedInputs: PortMap, namedOutputs: PortMap) returns (r: Result<CrossValidation>)
    ensures r.Ok? <==> |inputs| == 3
    ensures r.Ok? ==>
      var base := SparkInit(parameters, inputs, outputs, namedInputs, namedOutputs);
      && r.value.base == base.(op := base.op.(hasCode := true))
      && ("folds" !in parameters ==> r.value.folds == Int(3))
      && ("folds" in parameters ==> r.value.folds == parameters["folds"])
  {
    var base := SparkInit(parameters, inputs, outputs, namedInputs, namedOutputs);
    if |inputs| != 3 {
      return Err(MissingParameter("algorithm, input data, evaluator"));
    }
    base := base.(op := base.op.(hasCode := true));
    return Ok(CrossValidation(base, Get(parameters, "folds", Int(3))));
  }

  /** `get_inputs_names`: algorithm, input data, evaluator. */
  function CrossValidationInputsNames(c: CrossValidation): (r: Result<string>)
    ensures r.Ok? <==> HasPort(c.base.op.namedInputs, "algorithm") && HasPort(c.base.op.namedInputs, "input data")
                       && HasPort(c.base.op.namedInputs, "evaluator")
    ensures r.Ok? ==> r.value == Join(", ", [Lookup(c.base.op.namedInputs, "algorithm").value,
                                             Lookup(c.base.op.namedInputs, "input data").value,
                                             Lookup(c.base.op.namedInputs, "evaluator").value])
  {
    var algorithm :- Subscript(c.base.op.namedInputs, "algorithm");
    var data :- Subscript(c.base.op.namedInputs, "input data");
    var evaluator :- Subscript(c.base.op.namedInputs, "evaluator");
    Ok(Join(", ", [algorithm, data, evaluator]))
  }

  /** The three identifiers a cross validation defines: the evaluated data,
      the evaluation summary and the best model. */
  function CrossValidationOutputs(c: CrossValidation): seq<string> {
    [c.base.op.output, "eval_" + c.base.op.output, "best_model_" + c.base.op.output]
  }

  /** `get_output_names(sep)`. */
  function CrossValidationOutputNames(c: CrossValidation, sep: string): (r: string)
    ensures r == Join(sep, CrossValidationOutputs(c))
  {
    Join(sep, [c.base.op.output, "eval_" + c.base.op.output, "best_model_" + c.base.op.output])
  }

  /** The three output names are distinct, and split back from the joined
      text in order when the separator appears in none of them. */
  lemma CrossValidationOutputNamesRoundTrip(c: CrossValidation, sep: char)
    requires sep !in c.base.op.output && sep !in "eval_" && sep !in "best_model_"
    ensures Split(CrossValidationOutputNames(c, [sep]), sep) == CrossValidationOutputs(c)
    ensures var names := CrossValidationOutputs(c);
      names[0] != names[1] && names[0] != names[2] && names[1] != names[2]
  {
    var o := c.base.op.output;
    assert sep !in "eval_" + o;
    assert sep !in "best_model_" + o;
    SplitJoin(CrossValidationOutputs(c), sep);
    assert |"eval_" + o| != |"best_model_" + o|;
  }

  // ---------------------------------------------------------------------------
  // ClassifierOperation and its subclasses

  datatype ClassifierKind =
    | GenericClassifier
    | Svm
    | LogisticRegression
    | DecisionTree
    | GradientBoostedTrees
    | NaiveBayes
    | RandomForest
    | Perceptron

  /** The estimator class each classifier declares (`self.name`). */
  function ClassifierName(kind: ClassifierKind): string {
    match kind
    case GenericClassifier => "FIXME"
    case Svm => "classification.SVM"
    case LogisticRegression => "classification.LogisticRegression"
    case DecisionTree => "classification.DecisionTreeClassifier"
    case GradientBoostedTrees => "classification.GBTClassifier"
    case NaiveBayes => "classification.NaiveBayes"
    case RandomForest => "classification.RandomForestClassifier"
    case Perceptron => "classification.MultilayerPerceptronClassificationModel"
  }

  datatype Classifier = Classifier(base: SparkOperation, name: string, labelColumn: Value, attributes: Value)

  /** The parameter grid holds both the label and the features. */
  predicate GridComplete(grid: Value) {
    Contains(grid, "label") == Ok(true) && Contains(grid, "features") == Ok(true)
  }

  /** `ClassifierOperation.__init__` followed by the subclass initializer of
      `kind`, which sets the class name and, for the SVM, turns code off. */
  method NewClassifier(kind: ClassifierKind, parameters: Params, inputs: seq<string>, outputs: seq<string>,
                       namedInputs: PortMap, namedOutputs: PortMap) returns (r: Result<Classifier>)
    ensures "paramgrid" !in parameters ==> r == Err(MissingParameter("paramgrid"))
    ensures r.Ok? <==> "paramgrid" in parameters && GridComplete(parameters["paramgrid"]) && parameters["paramgrid"].Dict?
    ensures "paramgrid" in parameters && parameters["paramgrid"].Dict? && !GridComplete(parameters["paramgrid"]) ==>
      r == Err(MissingParameter("features, label"))
    ensures r.Ok? ==>
      var base := SparkInit(parameters, inputs, outputs, namedInputs, namedOutputs);
      var grid := parameters["paramgrid"].entries;
      && r.value.base == base.(op := base.op.(hasCode := kind != Svm && |outputs| > 0))
      && r.value.name == ClassifierName(kind)
      && r.value.labelColumn == grid["label"] && r.value.attributes == grid["features"]
  {
    var base := SparkInit(parameters, inputs, outputs, namedInputs, namedOutputs);
    base := base.(op := base.op.(hasCode := |outputs| > 0));
    if "paramgrid" !in parameters {
      return Err(MissingParameter("paramgrid"));
    }
    var grid := parameters["paramgrid"];
    var hasLabel :- Contains(grid, "label");
    var hasFeatures := Contains(grid, "features").value;
    if !(hasLabel && hasFeatures) {
      return Err(MissingParameter("features, label"));
    }
    var labelColumn :- DictGet(grid, "label", PyNone);
    var attributes := DictGet(grid, "features", PyNone).value;
    if kind == Svm {
      base := base.(op := base.op.(hasCode := false));
    }
    return Ok(Classifier(base, ClassifierName(kind), labelColumn, attributes));
  }

  /** The classifier template: `<output> = (<name>(), param_grid)`. */
  datatype ClassifierCode = ClassifierCode(output: string, name: string, attributes: Value, labelColumn: Value)

  function GenerateClassifier(c: Classifier): (r: Result<ClassifierCode>)
    ensures r.Ok? <==> c.base.op.hasCode
    ensures r.Ok? ==> r.value == ClassifierCode(c.base.op.output, c.name, c.attributes, c.labelColumn)
  {
    if c.base.op.hasCode then Ok(ClassifierCode(c.base.op.output, c.name, c.attributes, c.labelColumn))
    else Err(MissingParameter("output"))
  }


  // ---------------------------------------------------------------------------
  // ClusteringModelOperation

  datatype ClusteringModel = ClusteringModel(base: SparkOperation, features: Value, model: string)

  /** `ClusteringModelOperation.__init__`: `features` is required and the
      "output data" port must be connected; the model is named after the
      output unless a "model" port is connected. */
  method NewClusteringModel(parameters: Params, inputs: seq<string>, outputs: seq<string>,
                            namedInputs: PortMap, namedOutputs: PortMap) returns (r: Result<ClusteringModel>)
    ensures r.Ok? <==> FirstOf(parameters, "features").Ok? && HasPort(namedOutputs, OutputDataPort)
    ensures "features" !in parameters ==> r == Err(MissingParameter("features"))
    ensures r.Ok? ==>
      var base := SparkInit(parameters, inputs, outputs, namedInputs, namedOutputs);
      var output := Lookup(namedOutputs, OutputDataPort).value;
      && r.value.base == base.(op := base.op.(hasCode := |outputs| > 0 && |inputs| == 2, output := output))
      && r.value.features == FirstOf(parameters, "features").value
      && (HasPort(namedOutputs, "model") ==> r.value.model == Lookup(namedOutputs, "model").value)
      && (!HasPort(namedOutputs, "model") ==> r.value.model == output + "_model")
  {
    var base := SparkInit(parameters, inputs, outputs, namedInputs, namedOutputs);
    base := base.(op := base.op.(hasCode := |outputs| > 0 && |inputs| == 2));
    var features :- FirstOf(parameters, "features");
    var output :- Subscript(namedOutputs, OutputDataPort);
    base := base.(op := base.op.(output := output));
    var model := PortOr(namedOutputs, "model", output + "_model");
    return Ok(ClusteringModel(base, features, model));
  }

  /** `get_output_names(sep)`: the transformed data, then the model. */
  function ClusteringModelOutputNames(m: ClusteringModel, sep: string): (r: Result<string>)
    ensures r.Ok? <==> HasPort(m.base.op.namedOutputs, OutputDataPort)
    ensures r.Ok? ==> r.value == Lookup(m.base.op.namedOutputs, OutputDataPort).value + sep + m.model
  {
    var output :- Subscript(m.base.op.namedOutputs, OutputDataPort);
    JoinPair(sep, output, m.model);
    Ok(Join(sep, [output, m.model]))
  }

  /** `get_inputs_names`: the training data, then the algorithm. */
  function ClusteringModelInputsNames(m: ClusteringModel): (r: Result<string>)
    ensures r.Ok? <==> HasPort(m.base.op.namedInputs, "train input data") && HasPort(m.base.op.namedInputs, "algorithm")
    ensures r.Ok? ==>
      r.value == Lookup(m.base.op.namedInputs, "train input data").value + ", " + Lookup(m.base.op.namedInputs, "algorithm").value
  {
    var train :- Subscript(m.base.op.namedInputs, "train input data");
    var algorithm :- Subscript(m.base.op.namedInputs, "algorithm");
    JoinPair(", ", train, algorithm);
    Ok(Join(", ", [train, algorithm]))
  }

  /** The fit-and-transform template. */
  datatype ModelCode = ModelCode(algorithm: string, features: Value, model: string, input: string, output: string)

  function GenerateClusteringModel(m: ClusteringModel): (r: Result<ModelCode>)
    ensures r.Ok? <==> m.base.op.hasCode && HasPort(m.base.op.namedInputs, "algorithm")
                       && HasPort(m.base.op.namedInputs, "train input data") && Formats(m.features)
    ensures r.Err? && m.base.op.hasCode && HasPort(m.base.op.namedInputs, "algorithm")
                   && HasPort(m.base.op.namedInputs, "train input data") ==>
      r == Err(RuntimeFault("UnicodeEncodeError"))
    ensures r.Ok? ==> r.value.algorithm == Lookup(m.base.op.namedInputs, "algorithm").value
    ensures r.Ok? ==> r.value.input == Lookup(m.base.op.namedInputs, "train input data").value
    ensures r.Ok? ==> r.value.model == m.model && r.value.output == m.base.op.output && r.value.features == m.features
  {
    if !m.base.op.hasCode then Err(MissingParameter("inputs, outputs"))
    else
      var algorithm :- Subscript(m.base.op.namedInputs, "algorithm");
      var input :- Subscript(m.base.op.namedInputs, "train input data");
      if !Formats(m.features) then Err(RuntimeFault("UnicodeEncodeError"))
      else Ok(ModelCode(algorithm, m.features, m.model, input, m.base.op.output))
  }

  /** For a model operation as constructed, the frame and the model the code
      assigns are the output names it reports, in that order. */
  lemma ClusteringModelCodeWritesOutputNames(m: ClusteringModel, sep: char)
    requires HasPort(m.base.op.namedOutputs, OutputDataPort)
    requires m.base.op.output == Lookup(m.base.op.namedOutputs, OutputDataPort).value
    requires GenerateClusteringModel(m).Ok?
    requires sep !in m.base.op.output && sep !in m.model
    ensures
      var code := GenerateClusteringModel(m).value;
      Split(ClusteringModelOutputNames(m, [sep]).value, sep) == [code.output, code.model]
  {
    JoinPair([sep], m.base.op.output, m.model);
    SplitJoin([m.base.op.output, m.model], sep);
  }

  // ---------------------------------------------------------------------------
  // ClusteringOperation: the algorithm declarations

  /** How a `set<Name>(v)` argument is rendered: a value as given, a value
      passed through `float()`, or the LDA document concentration, a list of
      `topics` copies of `float(given) / 50.0`. */
  datatype Argument = Given(v: Value) | AsFloat(f: Value) | DocConcentration(topics: int, given: Value)

  /** A value given as is is formatted by `str.format`, so a non-ASCII
      `unicode` string fails; a float or a list of floats always formats. */
  predicate ArgumentFormats(a: Argument) {
    a.Given? ==> Formats(a.v)
  }

  datatype Setting = Setting(name: string, argument: Argument)

  datatype SparkClustering = SparkClustering(base: SparkOperation, name: string, setValues: seq<Setting>)

  /** `ClusteringOperation.__init__`. */
  function SparkClusteringInit(parameters: Params, inputs: seq<string>, outputs: seq<string>,
                               namedInputs: PortMap, namedOutputs: PortMap): (c: SparkClustering)
    ensures c.base.op.hasCode <==> |outputs| > 0
    ensures c.base == SparkInit(parameters, inputs, outputs, namedInputs, namedOutputs).(op := c.base.op)
    ensures c.base.op == Init(parameters, namedInputs, namedOutputs).(hasCode := |outputs| > 0)
    ensures c.name == "FIXME" && c.setValues == []
  {
    var base := SparkInit(parameters, inputs, outputs, namedInputs, namedOutputs);
    SparkClustering(base.(op := base.op.(hasCode := |outputs| > 0)), "FIXME", [])
  }

  /** One line of the generated declaration. */
  datatype Line = Declare(target: string, className: string) | Set(target: string, name: string, argument: Argument)

  /** `generate_code`: the declaration, then one setter call per entry of
      `set_values`, in order. */
  method GenerateSparkClustering(c: SparkClustering) returns (r: Result<seq<Line>>)
    ensures r.Ok? <==> c.base.op.hasCode && forall k :: 0 <= k < |c.setValues| ==> ArgumentFormats(c.setValues[k].argument)
    ensures r.Err? && c.base.op.hasCode ==> r == Err(RuntimeFault("UnicodeEncodeError"))
    ensures r.Ok? ==> |r.value| == |c.setValues| + 1
    ensures r.Ok? ==> r.value[0] == Declare(c.base.op.output, c.name)
    ensures r.Ok? ==> forall k :: 0 <= k < |c.setValues| ==>
      r.value[k + 1] == Set(c.base.op.output, c.setValues[k].name, c.setValues[k].argument)
  {
    if !c.base.op.hasCode {
      return Err(MissingParameter("outputs"));
    }
    var output := c.base.op.output;
    var lines := [Declare(output, c.name)];
    var i := 0;
    while i < |c.setValues|
      invariant 0 <= i <= |c.setValues|
      invariant |lines| == i + 1
      invariant lines[0] == Declare(output, c.name)
      invariant forall k :: 0 <= k < i ==> lines[k + 1] == Set(output, c.setValues[k].name, c.setValues[k].argument)
      invariant forall k :: 0 <= k < i ==> ArgumentFormats(c.setValues[k].argument)
    {
      if !ArgumentFormats(c.setValues[i].argument) {
        return Err(RuntimeFault("UnicodeEncodeError"));
      }
      lines := lines + [Set(output, c.setValues[i].name, c.setValues[i].argument)];
      i := i + 1;
    }
    return Ok(lines);
  }


  // ---------------------------------------------------------------------------
  // LdaClusteringOperation

  /** `LdaClusteringOperation.__init__`: the number of topics (10 by default)
      must convert to an integer and the optimizer must be "online" (the
      default) or "em". */
  method NewLda(parameters: Params, inputs: seq<string>, outputs: seq<string>,
                namedInputs: PortMap, namedOutputs: PortMap) returns (r: Result<SparkClustering>)
    ensures ToInt(Get(parameters, "number_of_topics", Int(10))).Err? ==> r.Err?
    ensures ToInt(Get(parameters, "number_of_topics", Int(10))).Ok? ==>
      (r.Ok? <==> Get(parameters, "optimizer", Str("online")) in {Str("online"), Str("em")})
    ensures ToInt(Get(parameters, "number_of_topics", Int(10))).Ok? && Get(parameters, "optimizer", Str("online")) !in {Str("online"), Str("em")} ==>
      r == Err(InvalidParameter("optimizer"))
    ensures r.Ok? ==>
      var topics := ToInt(Get(parameters, "number_of_topics", Int(10))).value;
      var init := SparkClusteringInit(parameters, inputs, outputs, namedInputs, namedOutputs);
      && r.value.base == init.base.(op := init.base.op.(hasCode := |init.base.op.output| > 1))
      && r.value.name == "clustering.LDA"
      && r.value.setValues == [
           Setting("DocConcentration", DocConcentration(topics, Get(parameters, "doc_concentration", Int(topics)))),
           Setting("K", Given(Int(topics))),
           Setting("MaxIter", Given(Get(parameters, "max_iterations", Int(10)))),
           Setting("Optimizer", Given(Str("'" + Get(parameters, "optimizer", Str("online")).s + "'"))),
           Setting("TopicConcentration", AsFloat(Get(parameters, "topic_concentration", Real(0.1))))]
  {
    var c := SparkClusteringInit(parameters, inputs, outputs, namedInputs, namedOutputs);
    var topics :- ToInt(Get(parameters, "number_of_topics", Int(10)));
    var optimizer := Get(parameters, "optimizer", Str("online"));
    if optimizer != Str("online") && optimizer != Str("em") {
      return Err(InvalidParameter("optimizer"));
    }
    var maxIterations := Get(parameters, "max_iterations", Int(10));
    var docConcentration := DocConcentration(topics, Get(parameters, "doc_concentration", Int(topics)));
    var topicConcentration := AsFloat(Get(parameters, "topic_concentration", Real(0.1)));
    c := c.(setValues := [
      Setting("DocConcentration", docConcentration),
      Setting("K", Given(Int(topics))),
      Setting("MaxIter", Given(maxIterations)),
      Setting("Optimizer", Given(Str("'" + optimizer.s + "'"))),
      Setting("TopicConcentration", topicConcentration)]);
    c := c.(base := c.base.(op := c.base.op.(hasCode := |c.base.op.output| > 1)), name := "clustering.LDA");
    return Ok(c);
  }

  // ---------------------------------------------------------------------------
  // KMeansClusteringOperation

  /** `KMeansClusteringOperation.__init__`: the type "bisecting" declares a
      bisecting k-means, "kmeans" a k-means whose init mode is "random" only
      when asked for and "k-means||" otherwise; any other type is refused. */
  method NewSparkKMeans(parameters: Params, inputs: seq<string>, outputs: seq<string>,
                        namedInputs: PortMap, namedOutputs: PortMap) returns (r: Result<SparkClustering>)
    ensures r.Ok? <==> Get(parameters, "type", PyNone) in {Str("bisecting"), Str("kmeans")}
    ensures r.Err? ==> r == Err(InvalidParameter("type"))
    ensures r.Ok? ==>
      var init := SparkClusteringInit(parameters, inputs, outputs, namedInputs, namedOutputs);
      var common := [
        Setting("MaxIter", Given(Get(parameters, "max_iterations", Int(10)))),
        Setting("K", Given(Get(parameters, "number_of_topics", Int(10)))),
        Setting("Tol", AsFloat(Get(parameters, "tolerance", Real(0.001))))];
      && r.value.base == init.base.(op := init.base.op.(hasCode := |init.base.op.output| > 1))
      && (Get(parameters, "type", PyNone) == Str("bisecting") ==>
            r.value.name == "BisectingKMeans" && r.value.setValues == common)
      && (Get(parameters, "type", PyNone) == Str("kmeans") ==>
            && r.value.name == "clustering.KMeans"
            && |r.value.setValues| == 4 && r.value.setValues[..3] == common
            && r.value.setValues[3].name == "InitMode"
            && (Get(parameters, "init_mode", PyNone) == Str("random") ==> r.value.setValues[3].argument == Given(Str("\"random\"")))
            && (Get(parameters, "init_mode", PyNone) != Str("random") ==> r.value.setValues[3].argument == Given(Str("\"k-means||\""))))
  {
    var c := SparkClusteringInit(parameters, inputs, outputs, namedInputs, namedOutputs);
    var k := Get(parameters, "number_of_topics", Int(10));
    var maxIterations := Get(parameters, "max_iterations", Int(10));
    var kind := Get(parameters, "type", PyNone);
    var tolerance := AsFloat(Get(parameters, "tolerance", Real(0.001)));
    c := c.(setValues := [Setting("MaxIter", Given(maxIterations)), Setting("K", Given(k)), Setting("Tol", tolerance)]);
    if kind == Str("bisecting") {
      c := c.(name := "BisectingKMeans");
    } else if kind == Str("kmeans") {
      var initMode := if Get(parameters, "init_mode", PyNone) == Str("random") then "\"random\"" else "\"k-means||\"";
      c := c.(setValues := c.setValues + [Setting("InitMode", Given(Str(initMode)))]);
      c := c.(name := "clustering.KMeans");
    } else {
      return Err(InvalidParameter("type"));
    }
    c := c.(base := c.base.(op := c.base.op.(hasCode := |c.base.op.output| > 1)));
    return Ok(c);
  }
}
