// Decoded JSON values, as `json.loads` hands them to the QualiaIA code, and the
// Python operations the code applies to them: `.get`, truthiness, `int()`,
// `float()`, `str.lower()`. Decoding JSON text is not modelled: callers receive
// an `Option<Value>`, `None` standing for JSONDecodeError.
module Json {
  import opened Py
  import opened Numerals

  /** Python's json maps numbers to int or float; both are `JNum` here. */
  datatype Value =
    | JNull
    | JBool(b: bool)
    | JNum(n: real)
    | JStr(s: string)
    | JArr(items: seq<Value>)
    | JObj(fields: seq<(string, Value)>)

  /** Python truthiness: None, False, 0, "", [] and {} are false. */
  predicate Truthy(v: Value) {
    match v
    case JNull => false
    case JBool(b) => b
    case JNum(n) => n != 0.0
    case JStr(s) => s != []
    case JArr(a) => a != []
    case JObj(f) => f != []
  }

  const NoGet: string := "AttributeError: object has no attribute 'get'"

  /** `value.get(key, default)`: only a dict has `.get`; anything else raises AttributeError. */
  function GetKey(v: Value, key: string, default: Value): (r: Result<Value>)
    ensures r.Ok? <==> v.JObj?
    ensures v.JObj? && Get(v.fields, key).None? ==> r == Ok(default)
    ensures v.JObj? && Get(v.fields, key).Some? ==> r == Ok(Get(v.fields, key).value)
  {
    if v.JObj? then Ok(Py.GetOr(v.fields, key, default))
    else Err(NoGet)
  }

  /** `value[key]`: a missing key raises KeyError, a non-dict TypeError. */
  function Index(v: Value, key: string): (r: Result<Value>)
    ensures r.Ok? <==> v.JObj? && Get(v.fields, key).Some?
    ensures r.Ok? ==> r.value == Get(v.fields, key).value
  {
    if !v.JObj? then Err("TypeError: object is not subscriptable")
    else match Get(v.fields, key)
      case Some(x) => Ok(x)
      case None => Err("KeyError: '" + key + "'")
  }

  /** `int(value)`: bools are 0/1, floats truncate toward zero, strings are parsed. */
  function ToInt(v: Value): (r: Result<int>)
    ensures v.JNum? ==> r == Ok(TruncateTowardZero(v.n))
    ensures (v.JNull? || v.JArr? || v.JObj?) ==> r.Err?
  {
    match v
    case JBool(b) => Ok(if b then 1 else 0)
    case JNum(n) => Ok(TruncateTowardZero(n))
    case JStr(s) =>
      (match ParseInt(s)
       case Some(i) => Ok(i)
       case None => Err("ValueError: invalid literal for int()"))
    case _ => Err("TypeError: int() argument must be a string or a number")
  }

  /** `float(value)` */
  function ToFloat(v: Value): (r: Result<real>)
    ensures v.JNum? ==> r == Ok(v.n)
    ensures (v.JNull? || v.JArr? || v.JObj?) ==> r.Err?
  {
    match v
    case JBool(b) => Ok(if b then 1.0 else 0.0)
    case JNum(n) => Ok(n)
    case JStr(s) =>
      (match ParseDecimal(s)
       case Some(x) => Ok(x)
       case None => Err("ValueError: could not convert string to float"))
    case _ => Err("TypeError: float() argument must be a string or a number")
  }

  /** `value.lower()`: only strings have it. */
  function LowerOf(v: Value): (r: Result<string>)
    ensures r.Ok? <==> v.JStr?
    ensures r.Ok? ==> IsLowered(r.value) && |r.value| == |v.s|
  {
    if v.JStr? then LowerIsLowered(v.s); Ok(Lower(v.s))
    else Err("AttributeError: object has no attribute 'lower'")
  }
}
