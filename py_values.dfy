/** The dynamically typed values found in a task's parameter dictionary, and
    the few Python operations the operations apply to them: truthiness and
    `x or default`, `dict.get`, comparison with 0, membership in `(1, '1')`,
    `str()`, `int()`, indexing, `in` and iteration. Comparisons follow
    Python 2 (the language of the source), where `None` orders below every
    number and every number orders below any string, list or dictionary. */
module PyValues {
  import opened Outcomes
  import opened PyStrings

  datatype Value =
    | PyNone
    | Bool(b: bool)
    | Int(i: int)
    | Real(r: real)
    | Str(s: string)
    | List(items: seq<Value>)
    | Dict(entries: map<string, Value>)

  /** A task's `parameters` dictionary. */
  type Params = map<string, Value>

  /** Python truth value: `None`, `False`, zero, and empty strings, lists and
      dictionaries are false. */
  predicate Truthy(v: Value) {
    match v
    case PyNone => false
    case Bool(b) => b
    case Int(i) => i != 0
    case Real(r) => r != 0.0
    case Str(s) => s != ""
    case List(xs) => xs != []
    case Dict(m) => m != map[]
  }

  /** `v or default`: the first truthy operand, else the default; the result
      is truthy iff either operand is. */
  function Or(v: Value, default: Value): (r: Value)
    ensures r == v || r == default
    ensures Truthy(r) <==> Truthy(v) || Truthy(default)
    ensures Truthy(v) ==> r == v
  {
    if Truthy(v) then v else default
  }

  /** `parameters.get(key, default)`. */
  function Get(p: Params, key: string, default: Value): Value {
    if key in p then p[key] else default
  }

  /** `parameters.get(key, default) or default`: the idiom the constructors use
      so that an absent key and a falsy value (0, '', [], None) both give the
      default. */
  function GetOrDefault(p: Params, key: string, default: Value): (v: Value)
    ensures key in p && Truthy(p[key]) ==> v == p[key]
    ensures !(key in p && Truthy(p[key])) ==> v == default
  {
    Or(Get(p, key, default), default)
  }

  /** Python 2 `v <= 0`: `None` and the numbers compare numerically with 0
      (`None` below every number, `False` as 0, `True` as 1); strings, lists
      and dictionaries order above every number. So a value is at most zero
      exactly when it is negative or is a falsy `None`, boolean or number. */
  predicate AtMostZero(v: Value)
    ensures AtMostZero(v) <==> IsNegative(v) || (!Truthy(v) && (v.PyNone? || v.Bool? || v.Int? || v.Real?))
  {
    match v
    case PyNone => true
    case Bool(b) => !b
    case Int(i) => i <= 0
    case Real(r) => r <= 0.0
    case _ => false
  }

  predicate IsNegative(v: Value) {
    (v.Int? && v.i < 0) || (v.Real? && v.r < 0.0)
  }

  /** With a positive default, `p.get(key, d) or d` followed by the check
      `<= 0` rejects exactly the negative numbers: an absent key, an explicit
      0 and any other falsy value all become the default. */
  lemma DefaultedRejectsOnlyNegatives(p: Params, key: string, default: Value)
    requires Truthy(default) && !AtMostZero(default)
    ensures AtMostZero(GetOrDefault(p, key, default)) <==> key in p && IsNegative(p[key])
  {
  }

  /** The parameter `key` is given and is a negative number. */
  predicate NegativeParam(p: Params, key: string) {
    key in p && IsNegative(p[key])
  }

  /** `'{}'.format(v)` into a byte-string template succeeds: a `unicode`
      string is encoded as ASCII and raises `UnicodeEncodeError` on any other
      character; numbers, `None`, booleans, and lists and dictionaries (whose
      `repr` escapes non-ASCII characters) always format. */
  predicate Formats(v: Value) {
    v.Str? ==> IsAscii(v.s)
  }

  /** `v in (1, '1')`; in Python `True == 1` and `1.0 == 1`. */
  predicate IsOne(v: Value) {
    v == Int(1) || v == Bool(true) || v == Real(1.0) || v == Str("1")
  }

  /** `str(v)` as used by `'{}'.format(v)`: exact for None, booleans,
      integers and strings; floats, lists and dictionaries are rendered by a
      fixed tag (they never name an identifier in practice). */
  function Show(v: Value): (r: string)
    ensures v.Int? && v.i >= 0 ==> |r| > 0 && AllDigits(r)
    ensures v.Int? && v.i < 0 ==> |r| > 1 && r[0] == '-' && AllDigits(r[1..])
    ensures v.Str? ==> r == v.s
    ensures v.PyNone? ==> r == "None"
  {
    match v
    case PyNone => "None"
    case Bool(b) => if b then "True" else "False"
    case Int(i) => IntToString(i)
    case Real(_) => "<float>"
    case Str(s) => s
    case List(_) => "<list>"
    case Dict(_) => "<dict>"
  }

  /** `int(v)`. */
  function ToInt(v: Value): (r: Result<int>)
    ensures v.Int? ==> r == Ok(v.i)
    ensures v.PyNone? || v.List? || v.Dict? ==> r.Err?
  {
    match v
    case Int(i) => Ok(i)
    case Bool(b) => Ok(if b then 1 else 0)
    case Real(x) => Ok(if x >= 0.0 then x.Floor else -((-x).Floor))
    case Str(s) =>
      (match ParseInt(s)
       case Some(i) => Ok(i)
       case None => Err(RuntimeFault("invalid literal for int()")))
    case _ => Err(RuntimeFault("int() argument must be a string or a number"))
  }

  /** `int(str(i)) == i`: an integer written out as text converts back to
      the same integer. */
  lemma ShowIntRoundTrip(i: int)
    ensures ToInt(Str(Show(Int(i)))) == Ok(i)
  {
    ParseIntToString(i);
  }

  /** `v[k]` for a list (the element), a string (the one-character string) or
      anything else (which fails: a dictionary of string keys has no key k,
      a number is not subscriptable). */
  function Item(v: Value, k: nat): (r: Result<Value>)
    ensures r.Ok? <==> (v.List? && k < |v.items|) || (v.Str? && k < |v.s|)
    ensures v.List? && k < |v.items| ==> r == Ok(v.items[k])
    ensures v.Str? && k < |v.s| ==> r == Ok(Str([v.s[k]]))
  {
    match v
    case List(xs) => if k < |xs| then Ok(xs[k]) else Err(RuntimeFault("list index out of range"))
    case Str(s) => if k < |s| then Ok(Str([s[k]])) else Err(RuntimeFault("string index out of range"))
    case Dict(_) => Err(RuntimeFault("KeyError"))
    case _ => Err(RuntimeFault("object is not subscriptable"))
  }

  /** `parameters.get(key)[0]` once `key in parameters` has been checked:
      the first attribute of a required attribute list. */
  function FirstOf(p: Params, key: string): (r: Result<Value>)
    ensures key !in p ==> r == Err(MissingParameter(key))
    ensures r.Ok? <==> key in p && Item(p[key], 0).Ok?
    ensures key in p && p[key].List? && |p[key].items| > 0 ==> r == Ok(p[key].items[0])
  {
    if key !in p then Err(MissingParameter(key)) else Item(p[key], 0)
  }

  /** `item in container` for a string item. */
  function Contains(container: Value, item: string): (r: Result<bool>)
    ensures container.Dict? ==> r == Ok(item in container.entries)
    ensures container.List? ==> r == Ok(Str(item) in container.items)
    ensures r.Ok? <==> container.Dict? || container.List? || container.Str?
  {
    match container
    case Dict(m) => Ok(item in m)
    case List(xs) => Ok(Str(item) in xs)
    case Str(s) => Ok(exists k | 0 <= k <= |s| - |item| :: item <= s[k..])
    case _ => Err(RuntimeFault("argument is not iterable"))
  }

  /** `v.get(key, default)`: only dictionaries have `get`. */
  function DictGet(v: Value, key: string, default: Value): (r: Result<Value>)
    ensures r.Ok? <==> v.Dict?
    ensures v.Dict? && key in v.entries ==> r == Ok(v.entries[key])
  {
    match v
    case Dict(m) => Ok(if key in m then m[key] else default)
    case _ => Err(RuntimeFault("object has no attribute 'get'"))
  }

  /** The elements visited when iterating over `v` (and counted by `len`):
      the items of a list, the characters of a string. */
  function Elements(v: Value): (r: Result<seq<Value>>)
    ensures v.List? ==> r == Ok(v.items)
    ensures v.Str? ==> r.Ok? && |r.value| == |v.s|
  {
    match v
    case List(xs) => Ok(xs)
    case Str(s) => Ok(seq(|s|, k requires 0 <= k < |s| => Str([s[k]])))
    case _ => Err(RuntimeFault("object is not iterable"))
  }
}
