/**
 * Python values as they travel through the JSON-like dictionaries of the
 * program: configuration, exported contexts, serialised turns and sessions,
 * event payloads and CSV rows.
 */
module Values {
  import opened Wrappers

  datatype Value =
    | VNone
    | VBool(b: bool)
    | VInt(i: int)
    | VReal(r: real)
    | VStr(s: string)
    | VList(items: seq<Value>)
    | VDict(entries: map<string, Value>)

  /** A Python dict with string keys. */
  type Dict = map<string, Value>

  const EmptyDict: Value := VDict(map[])

  /** Python's bool(v). */
  predicate Truthy(v: Value) {
    match v
    case VNone => false
    case VBool(b) => b
    case VInt(i) => i != 0
    case VReal(r) => r != 0.0
    case VStr(s) => s != []
    case VList(items) => items != []
    case VDict(entries) => entries != map[]
  }

  /** d.get(k, default) */
  function Get(d: Dict, k: string, default: Value): Value {
    if k in d then d[k] else default
  }

  /** A string-valued entry, when the key is present and holds a string. */
  function GetStr(d: Dict, k: string): Option<string> {
    if k in d && d[k].VStr? then Some(d[k].s) else None
  }

  /** A Python number (bool, int or float) as a real; None for every other value. */
  function AsReal(v: Value): Option<real> {
    match v
    case VBool(b) => Some(if b then 1.0 else 0.0)
    case VInt(i) => Some(i as real)
    case VReal(r) => Some(r)
    case _ => None
  }

  /** A list whose items are all strings, as those strings. */
  function StringList(v: Value): (r: Option<seq<string>>)
    ensures r.Some? <==> v.VList? && forall i | 0 <= i < |v.items| :: v.items[i].VStr?
    ensures r.Some? ==> |r.value| == |v.items| && forall i | 0 <= i < |v.items| :: v.items[i] == VStr(r.value[i])
  {
    if v.VList? then StringsOf(v.items) else None
  }

  function StringsOf(items: seq<Value>): (r: Option<seq<string>>)
    ensures r.Some? <==> forall i | 0 <= i < |items| :: items[i].VStr?
    ensures r.Some? ==> |r.value| == |items| && forall i | 0 <= i < |items| :: items[i] == VStr(r.value[i])
  {
    if items == [] then Some([])
    else if !items[0].VStr? then None
    else
      match StringsOf(items[1..])
      case None =>
        assert exists i | 0 <= i < |items[1..]| :: !items[1..][i].VStr?;
        None
      case Some(rest) => Some([items[0].s] + rest)
  }
}
