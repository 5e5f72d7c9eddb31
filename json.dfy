/** Decoded JSON documents, as Python's json module represents them. */
module Json {

  /** One decoded JSON value: None, bool, int, float, str, list or dict in Python. */
  datatype Value =
    | Null
    | Bool(b: bool)
    | Int(i: int)
    | Float(f: real)
    | String(s: string)
    | Array(items: seq<Value>)
    | Object(fields: map<string, Value>)

  /** Python's `d.get(key, default)` on a decoded object. */
  function Get(fields: map<string, Value>, key: string, default: Value): Value
  {
    if key in fields then fields[key] else default
  }

  /** Python's `all(isinstance(x, str) for x in items)`: checked front to back,
      stopping at the first element that is not a string. */
  function AllStrings(items: seq<Value>): (r: bool)
    ensures r <==> forall k :: 0 <= k < |items| ==> items[k].String?
  {
    if items == [] then true
    else items[0].String? && AllStrings(items[1..])
  }

  /** The Python strings held by a list that passed `AllStrings`. */
  function AsStrings(items: seq<Value>): (r: seq<string>)
    requires AllStrings(items)
    ensures |r| == |items|
    ensures forall k :: 0 <= k < |items| ==> items[k] == String(r[k])
  {
    if items == [] then [] else [items[0].s] + AsStrings(items[1..])
  }

  /** A list of Python strings as a JSON array's elements. */
  function FromStrings(ss: seq<string>): (r: seq<Value>)
    ensures |r| == |ss|
    ensures forall k :: 0 <= k < |ss| ==> r[k] == String(ss[k])
  {
    if ss == [] then [] else [String(ss[0])] + FromStrings(ss[1..])
  }

  /** Encoding strings as JSON values and reading them back loses nothing, in both directions. */
  lemma StringsRoundTrip(ss: seq<string>)
    ensures AllStrings(FromStrings(ss))
    ensures AsStrings(FromStrings(ss)) == ss
  {
  }

  lemma ValuesRoundTrip(items: seq<Value>)
    requires AllStrings(items)
    ensures FromStrings(AsStrings(items)) == items
  {
  }

  /** Python's `isinstance(v, int)`: bool is a subclass of int there. */
  predicate IsPyInt(v: Value) {
    v.Int? || v.Bool?
  }

  /** The integer an int-typed value stands for in Python: True is 1, False is 0. */
  function PyIntValue(v: Value): int
    requires IsPyInt(v)
  {
    match v
    case Int(i) => i
    case Bool(b) => if b then 1 else 0
  }
}
