/** Python values as they arrive from the YAML configuration, with the few
    operations the pipeline applies to them: truthiness, `dict.get` with a
    default, `dict[key]`, and the exceptions those operations raise. */
module PyValues {
  import opened Wrappers

  /** A configuration value: what `yaml.safe_load` produces, without floats,
      dates and byte strings. */
  datatype Value =
    | VNone
    | VBool(b: bool)
    | VInt(i: int)
    | VStr(s: string)
    | VList(items: seq<Value>)
    | VDict(entries: map<Value, Value>)

  type Dict = map<Value, Value>

  /** The exceptions the modelled code raises, directly or through a builtin. */
  datatype Error =
    | KeyError(key: string)
    | TypeError(context: string)
    | AttributeError(context: string)
    | FileNotFoundError(path: string)
    | UnknownThresholdMethod(requested: Value)   // ValueError raised by _apply_threshold
    | InvalidIntLiteral(text: string)         // ValueError raised by int(str)

  /** Python's truth value of an object (`bool(v)`). */
  predicate Truthy(v: Value) {
    match v
    case VNone => false
    case VBool(b) => b
    case VInt(i) => i != 0
    case VStr(s) => s != ""
    case VList(items) => items != []
    case VDict(entries) => entries != map[]
  }

  /** `d.get(key)`: the value under a string key, if any. */
  function Get(d: Dict, key: string): (r: Option<Value>)
    ensures r.Some? <==> VStr(key) in d
    ensures r.Some? ==> r.value == d[VStr(key)]
  {
    if VStr(key) in d then Some(d[VStr(key)]) else None
  }

  /** `d.get(key, default)`. */
  function GetOr(d: Dict, key: string, default: Value): (r: Value)
    ensures VStr(key) in d ==> r == d[VStr(key)]
    ensures VStr(key) !in d ==> r == default
  {
    Get(d, key).GetOr(default)
  }

  /** `d[key]`, which raises KeyError when the key is absent. */
  function Index(d: Dict, key: string): (r: Result<Value, Error>)
    ensures r.Ok? <==> VStr(key) in d
    ensures r.Ok? ==> r.value == d[VStr(key)]
    ensures r.Err? ==> r.error == KeyError(key)
  {
    if VStr(key) in d then Ok(d[VStr(key)]) else Err(KeyError(key))
  }

  /** `d[key]` used as a mapping: a KeyError when absent, a TypeError when
      the value is not a mapping (subscripting or `.get` on it fails). */
  function Section(d: Dict, key: string): (r: Result<Dict, Error>)
    ensures r.Ok? <==> VStr(key) in d && d[VStr(key)].VDict?
    ensures r.Ok? ==> r.value == d[VStr(key)].entries
    ensures VStr(key) !in d ==> r == Err(KeyError(key))
  {
    match Index(d, key)
    case Err(e) => Err(e)
    case Ok(VDict(entries)) => Ok(entries)
    case Ok(_) => Err(TypeError(key))
  }

  /** A value used where Python needs a `str` (a path handed to `os.path`). */
  function AsStr(v: Value, context: string): (r: Result<string, Error>)
    ensures r.Ok? <==> v.VStr?
    ensures r.Ok? ==> r.value == v.s
    ensures r.Err? ==> r.error == TypeError(context)
  {
    if v.VStr? then Ok(v.s) else Err(TypeError(context))
  }

  /** Iterating over a `str`: its characters, each a one-character string. */
  function Chars(s: string): (r: seq<Value>)
    ensures |r| == |s|
    ensures forall i :: 0 <= i < |s| ==> r[i] == VStr([s[i]])
  {
    seq(|s|, i requires 0 <= i < |s| => VStr([s[i]]))
  }
}
