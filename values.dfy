/** Dynamically typed Python values as they appear in the JSON-like records the
    repository passes around, and the dictionary `.get` idiom over them. */
module Values {
  import opened Wrappers

  datatype Value =
    | VNone
    | VInt(i: int)
    | VStr(s: string)
    | VList(items: seq<Value>)
    | VObject(fields: map<string, Value>)

  /** A Python `dict` with string keys. */
  type Record = map<string, Value>

  /** `d.get(k, default)`: the stored value when the key is present, the default otherwise. */
  function GetOr(d: Record, k: string, default: Value): (v: Value)
    ensures k in d ==> v == d[k]
    ensures k !in d ==> v == default
  {
    if k in d then d[k] else default
  }

  /** Python's `len`: defined on strings, lists and dicts; None and integers raise TypeError. */
  function Len(v: Value): (n: Option<nat>)
    ensures n.None? <==> v.VNone? || v.VInt?
    ensures v.VList? ==> n == Some(|v.items|)
  {
    match v
    case VStr(s) => Some(|s|)
    case VList(items) => Some(|items|)
    case VObject(fields) => Some(|fields|)
    case _ => None
  }

  /** `d.get(k)`: the default of `dict.get` is `None`. */
  function Get(d: Record, k: string): (v: Value)
    ensures k in d ==> v == d[k]
    ensures k !in d ==> v == VNone
  {
    GetOr(d, k, VNone)
  }
}
