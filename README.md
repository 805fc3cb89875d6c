# Juicer operations: a Dafny model

Juicer turns a workflow of tasks into generated Python code. Every task is an
*operation*. An operation is built from its parameter dictionary and its named
input and output ports. Its initializer validates and defaults the
parameters, then either raises or yields a configured operation: code or no
code, output identifiers, and a chosen code template.

This project models that per-task contract in Dafny:

- the base operation (`juicer/operation.py`): defaults, output-name joining,
  and the rule that decides whether a task is emitted;
- the scikit-learn clustering operations
  (`juicer/scikit_learn/clustering_operation.py`);
- the Spark ML operations the workflow editor offers for indexing,
  evaluation, cross validation, classification and clustering
  (`juicer/spark/ml_operation.py`);
- the Spark Pearson correlation (`juicer/spark/statistic_operation.py`).

Layout, one module per file:

- `outcomes.dfy` (`Outcomes`): `Option`, `Result` and the three kinds of
  failure. These are `MissingParameter`, `InvalidParameter`, and
  `RuntimeFault` for errors Python raises by itself.
- `py_strings.dfy` (`PyStrings`): the string operations the source uses.
  These are `strip`, `lower`, `join` and `split`, plus decimal `str`/`int`
  of integers, with their round-trip lemmas. Parameter strings come from the
  workflow's JSON and so are Python 2 `unicode` values: `strip` removes the
  Unicode whitespace `unicode.isspace()` accepts, not only ASCII blanks.
- `py_values.dfy` (`PyValues`): the dynamically typed parameter values and
  the Python 2 semantics the constructors rely on. That covers truthiness,
  `x or default`, `dict.get`, `v <= 0` across types, `int()`, indexing and
  `in`.
- `operations.dfy` (`Operations`): the base operation.
- `sklearn_clustering.dfy` (`SklearnClustering`): the scikit-learn clustering
  operations.
- `spark_base.dfy` (`SparkBase`), `spark_ml.dfy` (`SparkMl`) and
  `spark_statistic.dfy` (`SparkStatistic`): the Spark operations.

A port map (`named_inputs`, `named_outputs`) is a sequence of ports. Its
order stands for the dictionary's iteration order in Python 2, which is hash
order and not the order in which the workflow declares the ports. The
members that list the ports' identifiers, `Operations.InputsNames` and
`Operations.OutputNames`, follow this order.

Operations are values. After construction nothing in the modelled code
changes an operation. A subclass initializer that overwrites `has_code`,
`output` or `name` is a datatype update of the base value. A constructor
raises part-way through, so it is a `method` returning a `Result`: its checks
run in the source's order and it stops at the first failure.

The `for var, att in zip(vals, atts)` positivity checks are one loop method,
`SklearnClustering.CheckPositive`. The list built by `code.extend(...)` in
the Spark clustering `generate_code` is the loop method
`SparkMl.GenerateSparkClustering`. Generated code is recorded abstractly: the
template or class chosen and the identifiers and values substituted into it.

Where the code and its surrounding description differ, the model follows the
code:

- `read_common_params` (juicer/scikit_learn/clustering_operation.py:20-25)
  builds its error message with `self.LABEL_PARAM`, which no clustering class
  defines. The missing-`features` case therefore raises `AttributeError`
  rather than the intended `ValueError`. The model reports it as
  `MissingParameter("features")`, because failures are not told apart by
  exception class.
- The Spark operations call `Operation.__init__` with five arguments
  (juicer/spark/ml_operation.py:30). The base initializer takes three
  (juicer/operation.py:28). They then read `self.inputs` and `self.outputs`.
  The model assumes a base that stores the two positional lists and otherwise
  does what `Operation.__init__` does (`SparkBase.SparkInit`).

## Model

| member | source | states |
|---|---|---|
| PyValues.GetOrDefault | juicer/scikit_learn/clustering_operation.py:142-148 | `parameters.get(k, d) or d` is the given value when it is truthy and the default otherwise, so an absent key and a falsy value behave alike |
| PyValues.DefaultedRejectsOnlyNegatives | juicer/scikit_learn/clustering_operation.py:142-153 | with a positive default, the later `<= 0` check fails exactly when the key is given a negative number; an explicit 0 becomes the default |
| PyValues.Or | juicer/scikit_learn/clustering_operation.py:142 | `v or default` is one of the two; it is `v` when `v` is truthy, and is truthy iff either is |
| PyValues.AtMostZero | juicer/scikit_learn/clustering_operation.py:150 | Python 2 `v <= 0` holds iff `v` is a negative number, or a falsy `None`, boolean, integer or float; strings, lists and dictionaries compare greater |
| PyValues.Show | juicer/operation.py:69-70 | `str(v)` of a non-negative integer is decimal digits, of a negative one '-' then digits; a string is itself; `None` is "None" |
| PyValues.ShowIntRoundTrip | juicer/spark/ml_operation.py:49 | `int(str(i)) == i`: an integer written out as text converts back to the same integer |
| PyValues.Item | juicer/spark/ml_operation.py:214-215 | `v[k]` succeeds iff `v` is a list or string long enough; it is the k-th item, or the one-character string at k |
| PyValues.Contains | juicer/spark/ml_operation.py:447-448 | `item in container` is key membership for a dictionary and element membership for a list; it fails for values that are neither dictionary, list nor string |
| PyValues.ToInt | juicer/spark/ml_operation.py:49 | `int(v)` keeps an integer and fails for `None`, lists and dictionaries |
| PyValues.FirstOf | juicer/scikit_learn/clustering_operation.py:27 | `parameters.get(key)[0]` fails for a missing key or an empty or unsubscriptable value, and otherwise is the first element of a list |
| PyStrings.Strip | juicer/spark/ml_operation.py:45-46 | `s.strip()` is an infix of `s` that drops only whitespace at each end and neither starts nor ends with whitespace |
| PyStrings.Lower | juicer/scikit_learn/clustering_operation.py:349 | `s.lower()` keeps the length, maps every upper-case ASCII letter to its lower-case letter, keeps every other character and leaves no upper-case ASCII letter |
| PyStrings.Split | juicer/spark/ml_operation.py:45-46 | `s.split(sep)` is never empty and no piece contains the separator |
| PyStrings.JoinSplit | juicer/spark/ml_operation.py:45-46 | joining the pieces of `s.split(sep)` with `sep` gives `s` back |
| PyStrings.SplitJoin | juicer/operation.py:88-95 | splitting a join of separator-free parts gives the parts back |
| PyStrings.ParseIntToString | juicer/spark/ml_operation.py:49 | `int(str(i)) == i` for every integer |
| PyStrings.ParseSignedToString | juicer/spark/ml_operation.py:49 | the decimal text of every integer, without surrounding whitespace, reads back as that integer |
| PyStrings.SignedNatToString | juicer/spark/ml_operation.py:49 | a `+` or `-` in front of the decimal text of a natural number reads as that number with the sign applied |
| PyStrings.ParseSignedSpacesAfterSign | juicer/spark/ml_operation.py:49 | whitespace between the sign and the rest of the text does not change what `int()` reads |
| PyStrings.ParseIntSpaceAfterSign | juicer/spark/ml_operation.py:49 | `int()` reads a sign, whitespace and the decimal text of n as n or -n, so `int(u"+ 3")` is 3 and `int(u"- 5")` is -5 |
| PyStrings.IntToStringInjective | juicer/operation.py:69-70 | distinct integers have distinct decimal text |
| Operations.Lookup | juicer/operation.py:69-70 | `named_outputs.get(name)` finds a value exactly when a port of that name exists, and the value is that port's identifier |
| Operations.Init | juicer/operation.py:28-70 | parameters and ports are stored; `out_degree` is 0 and `multiple_inputs` false; `order` defaults to 1; `has_code` holds iff some named input or output exists; `output` is the "output data" port's identifier, else `out_task_<order>` |
| Operations.NoOp | juicer/operation.py:126-131 | a `NoOp` never has code and otherwise equals the base operation |
| Operations.DistinctOrdersDistinctOutputs | juicer/operation.py:37-70 | two tasks without an "output data" port and with different integer orders get different output identifiers |
| Operations.InputsNames | juicer/operation.py:84-86 | the `", "`-join of all input identifiers in port order, for any number of inputs; in closed form empty with no input, the identifier itself with one, `a, b` with two |
| Operations.OutputNames | juicer/operation.py:88-92 | with connected outputs, their identifiers joined by `sep`; with none, the operation's own output |
| Operations.DataOutNames | juicer/operation.py:94-95 | the data-output names are the output names |
| Operations.OutputNamesRoundTrip | juicer/operation.py:88-95 | for a one-character separator no identifier contains, such as the ',' of `get_data_out_names`, splitting the joined output names gives back the identifiers in port order |
| Operations.Forms | juicer/operation.py:98 | `parameters['task']['forms']` succeeds iff `task` is present and a dictionary holding a `forms` dictionary |
| Operations.FormFlag | juicer/operation.py:100-101 | `forms.get(key, {}).get('value') in (1, '1')` fails only for a field that is not a dictionary, and is true iff the field's value is 1, True, 1.0 or '1' |
| Operations.ContainsResults | juicer/operation.py:97-101 | `contains_results` is true iff the sample or the schema is displayed; a displayed sample answers true without reading the schema field |
| Operations.MustBeExecuted | juicer/operation.py:103-109 | emitted iff ((has code or code waived) and satisfied and (no consumers or degree waived)) or results are shown; fails only when `contains_results` fails |
| Operations.ResultsForceExecution | juicer/operation.py:107-109 | a task that shows results is emitted whatever the other arguments |
| Operations.ConsumedTaskExecution | juicer/operation.py:105-109 | an emitted task with consumers had the degree rule waived or shows results |
| Operations.NoOpExecution | juicer/operation.py:126-131 | an emitted `NoOp` had the code rule waived or shows results |
| Operations.MustBeExecutedMonotone | juicer/operation.py:103-109 | satisfying the inputs or waiving a rule never turns an emitted task into a skipped one |
| SklearnClustering.CheckPositive | juicer/scikit_learn/clustering_operation.py:202-208 | the zip loop passes iff every value paired with a name is positive (Python 2 `<= 0` order), and otherwise fails naming the first value that is not |
| SklearnClustering.ClusteringInit | juicer/scikit_learn/clustering_operation.py:12-18 | features and prediction start as `None`; output is the "output data" port or `out_<order>`; model is the "model" port or `model_<order>` |
| SklearnClustering.ReadCommonParams | juicer/scikit_learn/clustering_operation.py:20-32 | fails without `features`; otherwise features is the first element of the list and prediction the `prediction` parameter |
| SklearnClustering.ReadCommonParamsKeepsNames | juicer/scikit_learn/clustering_operation.py:15-32 | re-deriving output and model in `read_common_params` leaves the names the initializer chose unchanged |
| SklearnClustering.ClusteringOutputNames | juicer/scikit_learn/clustering_operation.py:34-35 | the output names are the output, `sep`, then the model |
| SklearnClustering.ClusteringDataOutNames | juicer/scikit_learn/clustering_operation.py:37-38 | no data-output names |
| SklearnClustering.PairRoundTrip | juicer/scikit_learn/clustering_operation.py:34-35 | two names joined by a separator neither contains split back into the pair |
| SklearnClustering.ClusteringOutputNamesRoundTrip | juicer/scikit_learn/clustering_operation.py:34-35 | the joined output names split back into output then model |
| SklearnClustering.ImportOf | juicer/scikit_learn/clustering_operation.py:365-370 | an estimator's import is from `sklearn.cluster` and names that estimator's class |
| SklearnClustering.NewClusteringModel | juicer/scikit_learn/clustering_operation.py:48-69 | has code iff exactly two named inputs; then `features` is required; the model name comes from the base output before output is replaced; without an "output data" port output becomes `task_<order>` and no alias is kept |
| SklearnClustering.ClusteringModelInputsNames | juicer/scikit_learn/clustering_operation.py:71-74 | the training data then the algorithm, joined by ", "; fails if either port is missing |
| SklearnClustering.ClusteringModelOutputNames | juicer/scikit_learn/clustering_operation.py:79-80 | output, `sep`, model; fails for an operation without code (no model) |
| SklearnClustering.GenerateClusteringModel | juicer/scikit_learn/clustering_operation.py:82-104 | the fit template reads the "train input data" and "algorithm" ports and writes the model and the output; the prediction is assigned `None` iff there is no alias; it succeeds iff the model is set, both ports exist and the features and any alias are ASCII, and with the ports present every failure is `UnicodeEncodeError` |
| SklearnClustering.ClusteringModelCodeWritesOutputNames | juicer/scikit_learn/clustering_operation.py:79-104 | the frame and model the code writes are exactly the reported output names, in order |
| SklearnClustering.InputGatedHasCode | juicer/scikit_learn/clustering_operation.py:128-129 | has code iff there is a named input and (results are shown or an output is connected); `contains_results` is only consulted with an input |
| SklearnClustering.NewAgglomerative | juicer/scikit_learn/clustering_operation.py:125-156 | code gate as above; then `attributes` required, `n_clusters` defaults to 2 also when falsy, linkage to "ward", affinity to "euclidean"; only a negative `n_clusters` fails |
| SklearnClustering.GenerateAgglomerative | juicer/scikit_learn/clustering_operation.py:158-172 | the template reads the "input data" port and writes the output with the configured settings; it succeeds iff the settings exist, the port exists and features, alias, number of clusters, linkage and affinity all format (no non-ASCII `unicode` text), and with the port present every failure is `UnicodeEncodeError` |
| SklearnClustering.NewDbscan | juicer/scikit_learn/clustering_operation.py:181-211 | code gate as above; `features` required; `eps` defaults to 0.5 and `min_samples` to 5 also when falsy; a negative `eps` then a negative `min_samples` fail |
| SklearnClustering.GenerateDbscan | juicer/scikit_learn/clustering_operation.py:213-225 | the template reads the "input data" port and writes the output with the configured settings; it succeeds iff the settings exist, the port exists and `eps`, `min_samples`, features and alias all format, and with the port present every failure is `UnicodeEncodeError` |
| SklearnClustering.ReadMixtureParams | juicer/scikit_learn/clustering_operation.py:239-255 | `number_of_clusters` defaults to 1 and `max_iterations` to 100 also when falsy; fails iff one is negative, naming the first; accepted values are positive |
| SklearnClustering.NewGaussianMixture | juicer/scikit_learn/clustering_operation.py:233-258 | has code iff an output is connected; output defaults to `clustering_algorithm_<order>`; settings as `ReadMixtureParams` |
| SklearnClustering.GenerateMixture | juicer/scikit_learn/clustering_operation.py:260-268 | the template writes the output with the configured settings; it succeeds iff the operation has settings whose number of clusters and maximum iterations format, failing with `UnicodeEncodeError` otherwise |
| SklearnClustering.OutputsOrResults | juicer/scikit_learn/clustering_operation.py:281 | has code iff an output is connected or results are shown |
| SklearnClustering.NewGaussianMixtureModel | juicer/scikit_learn/clustering_operation.py:276-302 | code gate as above; the clustering base names and common parameters; mixture settings as `ReadMixtureParams` |
| SklearnClustering.GenerateMixtureModel | juicer/scikit_learn/clustering_operation.py:304-320 | the template reads the "train input data" port and writes model and output with the base's features and prediction; it succeeds iff the settings and the port exist and features, prediction, number of clusters and maximum iterations all format, and with the port present every failure is `UnicodeEncodeError` |
| SklearnClustering.MixtureModelCodeWritesOutputNames | juicer/scikit_learn/clustering_operation.py:304-320 | the frame and model the code writes are exactly the reported output names, in order |
| SklearnClustering.ReadKMeansParams | juicer/scikit_learn/clustering_operation.py:345-370 | `n_clusters` 8 and `max_iter` 300 by default also when falsy; init mode lower-cased; type "K-Means" by default; a negative `n_clusters` then a negative `max_iter` fail; the import follows the case-insensitive type |
| SklearnClustering.NewKMeans | juicer/scikit_learn/clustering_operation.py:337-370 | has code iff an output is connected; then output defaults to `clustering_algorithm_<order>` and settings as `ReadKMeansParams` |
| SklearnClustering.SelectEstimator | juicer/scikit_learn/clustering_operation.py:374 | KMeans iff the lower-cased type is "k-means", MiniBatchKMeans otherwise |
| SklearnClustering.GenerateKMeans | juicer/scikit_learn/clustering_operation.py:372-388 | the template writes the output with the settings; its estimator is KMeans iff the lower-cased type is "k-means"; it succeeds iff the settings exist and the number of clusters, maximum iterations, init mode and seed format, failing with `UnicodeEncodeError` otherwise |
| SklearnClustering.KMeansImportMatchesCode | juicer/scikit_learn/clustering_operation.py:365-387 | for settings that format, generation succeeds and the imported class is the class the generated code instantiates |
| SklearnClustering.NewKMeansModel | juicer/scikit_learn/clustering_operation.py:405-438 | code gate on outputs or results; clustering base names and common parameters; settings as `ReadKMeansParams` |
| SklearnClustering.GenerateKMeansModel | juicer/scikit_learn/clustering_operation.py:440-469 | the template reads "train input data", writes model and output with the base's features and prediction, and picks the estimator from the type; it succeeds iff the settings and the port exist and the features, the formatted settings and the prediction all format, and with the port present every failure is `UnicodeEncodeError` |
| SklearnClustering.KMeansModelImportMatchesCode | juicer/scikit_learn/clustering_operation.py:433-460 | the imported class is the class the generated code instantiates |
| SklearnClustering.KMeansModelCodeWritesOutputNames | juicer/scikit_learn/clustering_operation.py:440-469 | the frame and model the code writes are exactly the reported output names, in order |
| SparkBase.SparkInit | juicer/spark/ml_operation.py:28-31 | the base operation with the positional inputs and outputs kept in order |
| SparkBase.FirstOutputOrTmp | juicer/spark/ml_operation.py:120-127 | the first output, else the first input followed by `_tmp`; fails with neither |
| SparkBase.FirstInput | juicer/spark/ml_operation.py:89 | `inputs[0]`, failing without inputs |
| SparkMl.ZipLongest | juicer/spark/ml_operation.py:66-68 | `izip_longest` is as long as the longer sequence and pairs position k of each, `None` past the end of the shorter |
| SparkMl.Zip | juicer/spark/ml_operation.py:90 | `zip` is as long as the shorter sequence and pairs position k of each |
| SparkMl.StrippedAliases | juicer/spark/ml_operation.py:45-46 | the aliases are the stripped comma-separated pieces, one per piece; a non-string alias fails |
| SparkMl.AliasListRoundTrip | juicer/spark/ml_operation.py:45-46 | names without commas or surrounding blanks, joined by commas, parse back to those names |
| SparkMl.StrippedUnchanged | juicer/spark/ml_operation.py:45-46 | pieces that stripping leaves unchanged are the parsed aliases |
| SparkMl.AliasesRejoin | juicer/spark/ml_operation.py:45-46 | an alias text without whitespace is exactly its parsed aliases joined by commas again |
| SparkMl.IndexerAliases | juicer/spark/ml_operation.py:64-68 | exactly one alias per attribute: the user's alias at that position when non-empty, else the attribute followed by `_indexed` |
| SparkMl.SurplusAliasesDropped | juicer/spark/ml_operation.py:66-68 | aliases beyond the number of attributes never change the result |
| SparkMl.GivenAliasesKept | juicer/spark/ml_operation.py:66-68 | with a non-empty alias for every attribute, the aliases are used as given, in order |
| SparkMl.GivenAliasesEncode | juicer/spark/ml_operation.py:66-68 | with a non-blank alias for every attribute no default alias is formatted, so the aliasing cannot raise `UnicodeEncodeError` |
| SparkMl.NonAsciiAttributeNeedsAlias | juicer/spark/ml_operation.py:66-68 | an attribute name with a non-ASCII character is accepted iff it has a non-blank alias, since formatting it into the byte-string template `'{}_indexed'` raises `UnicodeEncodeError` |
| SparkMl.DecimalMaxCategories | juicer/spark/ml_operation.py:48-54 | a `max_categories` given as the decimal text of an integer is read as that integer, and the request is accepted iff it is not negative and every default alias can be encoded |
| SparkMl.SpacedSignMaxCategories | juicer/spark/ml_operation.py:48-54 | a `max_categories` such as "+ 3" is read as the signed number, so it is accepted with a plus sign and refused with a minus sign unless it is zero (and the default aliases encode) |
| SparkMl.NewFeatureIndexer | juicer/spark/ml_operation.py:28-68 | accepted iff `attributes` given, alias a string, `max_categories` given, an integer and not negative, attributes iterable, and every attribute that gets the default alias ASCII; each missing key and a negative bound fail as such, a non-ASCII default alias with `UnicodeEncodeError`; type defaults to "string"; one alias per attribute |
| SparkMl.GenerateFeatureIndexer | juicer/spark/ml_operation.py:70-118 | type "string" selects the string indexer, "vector" the vector indexer with the category bound, any other type fails; reads `inputs[0]`, writes the output, pairs each attribute with its alias |
| SparkMl.FeatureIndexerOutputNames | juicer/spark/ml_operation.py:120-123 | the indexed frame (first output, else `<input>_tmp`), `sep`, then "models" |
| SparkMl.FeatureIndexerDataOutNames | juicer/spark/ml_operation.py:125-127 | the first output, else the first input followed by `_tmp`; fails with neither |
| SparkMl.EvaluatorTable | juicer/spark/ml_operation.py:189-204 | the table has exactly the nine metrics; f1, weightedPrecision, weightedRecall and accuracy use the multiclass evaluator, rmse, mse and mae the regression evaluator, and no other evaluator appears |
| SparkMl.RawPredictionOnlyForAreaMetrics | juicer/spark/ml_operation.py:189-204 | exactly areaUnderROC and areaUnderPR use the binary evaluator and `rawPredictionCol`; every other metric uses `predictionCol` |
| SparkMl.FirstOrBlank | juicer/spark/ml_operation.py:214-217 | `(parameters.get(k) or [''])[0]` is '' for a missing key or any falsy value; for a truthy value it is its first element (the first character of a string) and fails for a truthy value that is neither list nor string |
| SparkMl.MetricParam | juicer/spark/ml_operation.py:218 | a missing or falsy metric is '', a truthy one is kept as given |
| SparkMl.NewEvaluateModel | juicer/spark/ml_operation.py:206-234 | accepted iff prediction attribute, label attribute and metric are non-empty and the metric is one of the nine table keys; a missing one fails as missing; evaluator and column come from the table; has code iff an input exists and the output is non-empty |
| SparkMl.NewCrossValidation | juicer/spark/ml_operation.py:282-296 | accepted iff exactly three inputs; then has code and `folds` defaults to 3 |
| SparkMl.CrossValidationInputsNames | juicer/spark/ml_operation.py:298-302 | algorithm, input data and evaluator, in that order; fails if a port is missing |
| SparkMl.CrossValidationOutputNames | juicer/spark/ml_operation.py:304-307 | the output, `eval_<output>` and `best_model_<output>` joined by `sep` |
| SparkMl.CrossValidationOutputNamesRoundTrip | juicer/spark/ml_operation.py:304-307 | the three names are distinct and split back in that order |
| SparkMl.NewClassifier | juicer/spark/ml_operation.py:435-541 | `paramgrid` required and must hold both `label` and `features`; label and features come from the grid; the class name is the subclass's; has code iff an output exists, never for the SVM |
| SparkMl.GenerateClassifier | juicer/spark/ml_operation.py:463-481 | code only with `has_code`; it assigns the classifier class and its grid to the output |
| SparkMl.NewClusteringModel | juicer/spark/ml_operation.py:570-585 | `features` required and its first element kept; has code iff an output and exactly two inputs; output is the "output data" port (failing without it); model is the "model" port or `<output>_model` |
| SparkMl.ClusteringModelOutputNames | juicer/spark/ml_operation.py:595-596 | the "output data" port, `sep`, then the model |
| SparkMl.ClusteringModelInputsNames | juicer/spark/ml_operation.py:587-590 | training data then algorithm, joined by ", " |
| SparkMl.GenerateClusteringModel | juicer/spark/ml_operation.py:598-619 | only with `has_code`; fits the "algorithm" port on "train input data" and writes model and output with the features; with both ports it fails, with `UnicodeEncodeError`, exactly when the features name is non-ASCII text |
| SparkMl.ClusteringModelCodeWritesOutputNames | juicer/spark/ml_operation.py:583-619 | the frame and model the code writes are exactly the reported output names, in order |
| SparkMl.SparkClusteringInit | juicer/spark/ml_operation.py:627-633 | has code iff an output exists; no name yet and no settings |
| SparkMl.GenerateSparkClustering | juicer/spark/ml_operation.py:641-650 | succeeds iff `has_code` holds and every value passed as given formats (floats always do), otherwise failing with `UnicodeEncodeError`; then the declaration line, then exactly one setter line per `set_values` entry, in order |
| SparkMl.NewLda | juicer/spark/ml_operation.py:663-695 | topics (10 by default) must convert to an integer, where `int()` also skips whitespace after a sign; optimizer must be "online" (default) or "em"; the five settings in order; has code iff the output is longer than one character; class `clustering.LDA` |
| SparkMl.NewSparkKMeans | juicer/spark/ml_operation.py:711-742 | "bisecting" declares BisectingKMeans, "kmeans" declares `clustering.KMeans` with init mode "random" only when asked for and the parallel k-means mode otherwise, any other type fails; MaxIter, K and Tol settings first |
| SparkStatistic.NewPearsonCorrelation | juicer/spark/statistic_operation.py:13-24 | `attributes` required; has code iff exactly one input |
| SparkStatistic.GeneratePearson | juicer/spark/statistic_operation.py:26-32 | output is the first output, else `<input>_tmp`; correlates the first two attributes of `inputs[0]`; fails without them, and with `UnicodeEncodeError` when either is non-ASCII text |
| SparkStatistic.PearsonCorrelatesFirstTwo | juicer/spark/statistic_operation.py:24-32 | with one input and an attribute list, there is code, and generation succeeds iff at least two attributes are given and both of the first two format, correlating exactly those two; two attributes of which one is non-ASCII text fail with `UnicodeEncodeError` |

## Left out

- The workflow graph compiler (`juicer/workflow/workflow.py`): graph
  construction, degree checks and topological sort. That file is not part of
  this model, so `out_degree` is only ever the initial 0 here.
- `juicer/kb8s/__init__.py` (Kubernetes client I/O) and
  `juicer/util/spark_template_util.py` (a Jinja2 extension) are not part of
  this model.
- The process-wide configuration read by `Operation.__init__`
  (juicer/operation.py:35) and gettext translation of messages.
- Rendered code text (`dedent`, `json.dumps`, whitespace): only the template,
  class names and substituted values are kept.
- Floating point: `abs(float(tolerance))` in the scikit-learn KMeans and
  mixture operations, `float()` of the Spark tolerance and concentrations, and
  the LDA document concentration `/ 50.0`. The raw parameter values are kept.
- SparkMl.NewLda: accepts document and topic concentrations that `float()`
  would reject, because float conversion is not modelled.
- SparkMl.NewSparkKMeans: accepts a tolerance that `float()` would reject,
  for the same reason.
- SklearnClustering.ReadKMeansParams: accepts a tolerance that
  `abs(float())` would reject, for the same reason.
- SklearnClustering.ReadMixtureParams: accepts a tolerance that
  `abs(float())` would reject, for the same reason.
- Port identifiers and the task `order` are assumed to be ASCII. Formatting
  a non-ASCII `unicode` value into a byte-string template such as
  `'model_{}'`, `'{}_tmp'` or `'out_task_{}'` raises `UnicodeEncodeError` in
  Python 2. The model checks this only for parameter values: the
  FeatureIndexer default aliases and the values each `generate_code`
  substitutes (`PyValues.Formats`).
- PyStrings.Lower: maps only the ASCII letters A-Z to lower case, while
  Python 2's `unicode.lower()` lower-cases every cased letter (for example
  the Kelvin sign to "k"); its callers inherit this.
- SklearnClustering.SelectEstimator: lower-cases only ASCII letters, so a
  type spelled with a non-ASCII capital (the Kelvin sign in "\u212a-means")
  selects MiniBatchKMeans where Python's `unicode.lower()` gives "k-means".
- SklearnClustering.ReadKMeansParams: the init mode is lower-cased over ASCII
  letters only, for the same reason; Python lower-cases every cased letter.
- SklearnClustering.GenerateKMeans: the estimator choice uses the ASCII-only
  lower-casing of `SelectEstimator`.
- SklearnClustering.GenerateKMeansModel: the estimator choice uses the
  ASCII-only lower-casing of `SelectEstimator`.
- SklearnClustering.NewKMeans: the tolerance is kept as given, without
  `abs(float())`, because float conversion is not modelled.
- SklearnClustering.NewKMeansModel: the tolerance is kept as given, for the
  same reason.
- SklearnClustering.NewGaussianMixture: the tolerance is kept as given, for
  the same reason.
- SklearnClustering.NewGaussianMixtureModel: the tolerance is kept as given,
  for the same reason.
- PyStrings.ParseInt: accepts ASCII digits only, while Python 2 `int()` of a
  `unicode` string also accepts other Unicode decimal digits.
- `str()` of floats, lists and dictionaries is a fixed placeholder
  (`PyValues.Show`). Such values never name an identifier in practice.
- Iterating over a parameter value that is a dictionary, such as
  FeatureIndexer `attributes` given as a dictionary, is a failure in the
  model. Python would iterate its keys in hash order. Port maps are different:
  see the layout notes above.
- Exception classes are not told apart. `ValueError`, `KeyError`,
  `IndexError`, `TypeError` and `AttributeError` become the three failure
  kinds of `Outcomes.Failure`.
- The constant `has_import` strings of the Agglomerative, DBSCAN and
  mixture operations are not recorded. For KMeans the import is recorded and
  tied to the generated code.
- The `get_data_out_names` of the Spark EvaluateModel, CrossValidation,
  ClusteringModel, Classifier and Clustering operations return the constant
  ''. The Classifier and Clustering `get_output_names` return `self.output`.
  These are not modelled as separate members.
- Other classes of `juicer/spark/ml_operation.py` are not part of this model:
  FeatureAssembler, ApplyModel, ClassificationModel, ClassificationReport,
  the Spark GaussianMixture, TopicReport and later classes.
