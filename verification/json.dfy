/** JSON-shaped values, as carried by message payloads and websocket frames,
    and the Python exceptions that operations over them can raise. */
module Json {
  import opened Wrappers
  import Strings

  datatype Value =
    | JNull
    | JBool(b: bool)
    | JInt(i: int)
    | JReal(r: real)
    | JStr(s: string)
    | JArr(items: seq<Value>)
    | JObj(fields: map<string, Value>)

  /** A Python `dict` with string keys. */
  type Obj = map<string, Value>

  /** The kind of exception the source raises; `text` is its `str(e)`. */
  datatype ErrorKind = ValueError | TypeError | AttributeError | IndexError | ValidationError
  datatype PyError = PyError(kind: ErrorKind, text: string)

  /** `d.get(k, default)`. */
  function GetOr(d: Obj, k: string, default: Value): (v: Value)
    ensures k in d ==> v == d[k]
    ensures k !in d ==> v == default
  {
    if k in d then d[k] else default
  }

  /** `type(v).__name__`. */
  function TypeNameOf(v: Value): string {
    match v
    case JNull => "NoneType"
    case JBool(_) => "bool"
    case JInt(_) => "int"
    case JReal(_) => "float"
    case JStr(_) => "str"
    case JArr(_) => "list"
    case JObj(_) => "dict"
  }

  /** Values `len()` accepts. */
  predicate Sized(v: Value) {
    v.JStr? || v.JArr? || v.JObj?
  }

  /** `len(v)`. */
  function Len(v: Value): nat
    requires Sized(v)
  {
    match v
    case JStr(s) => |s|
    case JArr(items) => |items|
    case JObj(fields) => |fields|
  }

  /** The AttributeError of `x.<name>` on a value without that method. */
  function NoAttribute(x: Value, name: string): PyError {
    PyError(AttributeError, "'" + TypeNameOf(x) + "' object has no attribute '" + name + "'")
  }

  /** The TypeError of using a list or dict as a dict key or set element. */
  function Unhashable(x: Value): PyError {
    PyError(TypeError, "unhashable type: '" + TypeNameOf(x) + "'")
  }

  /** `repr(v)`, exact for `None`, booleans, integers and strings; floats,
      lists and dicts get a placeholder. */
  function PyRepr(v: Value): string {
    match v
    case JStr(s) => Strings.StrRepr(s)
    case JReal(_) => "<float>"
    case JArr(_) => "<list>"
    case JObj(_) => "<dict>"
    case _ => PyStr(v)
  }

  /** Python truthiness of a JSON value. */
  predicate Truthy(v: Value) {
    match v
    case JNull => false
    case JBool(b) => b
    case JInt(i) => i != 0
    case JReal(r) => r != 0.0
    case JStr(s) => |s| > 0
    case JArr(items) => |items| > 0
    case JObj(fields) => |fields| > 0
  }

  /** Keys of a `dict` must be hashable: lists and dicts are not. */
  predicate Hashable(v: Value) {
    !v.JArr? && !v.JObj?
  }

  /** Optional string as JSON: `None` becomes `null`. */
  function OptStr(o: Option<string>): (v: Value)
    ensures o.None? <==> v == JNull
  {
    match o
    case None => JNull
    case Some(s) => JStr(s)
  }

  /** `x.get(k, default)` where `x` must be a dict; any other value raises AttributeError. */
  function DictGet(x: Value, k: string, default: Value): (r: Result<Value, PyError>)
    ensures x.JObj? <==> r.Ok?
    ensures x.JObj? ==> r.value == GetOr(x.fields, k, default)
    ensures !x.JObj? ==> r.error == NoAttribute(x, "get")
  {
    match x
    case JObj(f) => Ok(GetOr(f, k, default))
    case _ => Err(NoAttribute(x, "get"))
  }

  /** The number a JSON value stands for in a Python comparison (bools are
      ints); the error is that of `v < <int>`. */
  function AsNumber(v: Value): (r: Result<real, PyError>)
    ensures r.Ok? <==> (v.JInt? || v.JReal? || v.JBool?)
  {
    match v
    case JInt(i) => Ok(i as real)
    case JReal(x) => Ok(x)
    case JBool(b) => Ok(if b then 1.0 else 0.0)
    case _ => Err(PyError(TypeError, "'<' not supported between instances of '" + TypeNameOf(v) + "' and 'int'"))
  }

  /** `str(v)`, exact for `None`, booleans, integers and strings; floats,
      lists and dicts get a placeholder rendering. */
  function PyStr(v: Value): (r: string)
    ensures v.JStr? ==> r == v.s
    ensures v == JNull ==> r == "None"
  {
    match v
    case JNull => "None"
    case JBool(b) => if b then "True" else "False"
    case JInt(i) => Strings.IntToString(i)
    case JStr(s) => s
    case JReal(_) => "<float>"
    case JArr(_) => "<list>"
    case JObj(_) => "<dict>"
  }
}
