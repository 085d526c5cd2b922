/** The dynamic values the backend receives from its metadata libraries
    (decoded JSON: dictionaries, lists, strings, numbers, booleans, None)
    and the Python operations it applies to them. An operation that would
    raise an exception in Python yields `Raised`; every such exception in
    the modelled code is caught by a surrounding `try`. */
module PyValue {
  import Text

  datatype Option<+T> = None | Some(value: T)

  /** The outcome of a Python step that may raise. The exception's message
      is not kept. */
  datatype Outcome<+T> = Ok(value: T) | Raised

  /** A Python value. A dictionary keeps its entries in insertion order,
      as Python's `dict` does. */
  datatype Value =
    | VNone
    | VBool(b: bool)
    | VInt(i: int)
    | VFloat(f: real)
    | VStr(s: string)
    | VList(items: seq<Value>)
    | VDict(entries: seq<(string, Value)>)

  /** Python truthiness (`if v:`). */
  predicate Truthy(v: Value) {
    match v
    case VNone => false
    case VBool(b) => b
    case VInt(i) => i != 0
    case VFloat(f) => f != 0.0
    case VStr(s) => s != []
    case VList(items) => items != []
    case VDict(entries) => entries != []
  }

  /** The value stored under `key` in a dictionary's entries. */
  function Lookup(entries: seq<(string, Value)>, key: string): (r: Option<Value>)
    ensures r.Some? <==> exists i :: 0 <= i < |entries| && entries[i].0 == key
    ensures r.Some? ==> (key, r.value) in entries
    decreases |entries|
  {
    if entries == [] then None
    else if entries[0].0 == key then Some(entries[0].1)
    else
      var r := Lookup(entries[1..], key);
      assert forall i :: 1 <= i < |entries| ==> entries[i] == entries[1..][i - 1];
      r
  }

  /** `key in v` for a string key: a key test on a dictionary, a substring
      test on a string, a membership test on a list; any other value raises
      a TypeError. */
  function Contains(v: Value, key: string): Outcome<bool> {
    match v
    case VDict(entries) => Ok(Lookup(entries, key).Some?)
    case VStr(s) => Ok(Text.Occurs(key, s))
    case VList(items) => Ok(VStr(key) in items)
    case _ => Raised
  }

  /** `v[key]` for a string key: only a dictionary holding the key
      answers; a missing key raises a KeyError, any other value a TypeError. */
  function Subscript(v: Value, key: string): Outcome<Value> {
    if v.VDict? && Lookup(v.entries, key).Some? then Ok(Lookup(v.entries, key).value)
    else Raised
  }

  /** `v.get(key, default)`: only dictionaries have `get`. */
  function Get(v: Value, key: string, default: Value): Outcome<Value> {
    match v
    case VDict(entries) =>
      var r := Lookup(entries, key);
      if r.Some? then Ok(r.value) else Ok(default)
    case _ => Raised
  }

  /** `for x in v`: the items of a list, the keys of a dictionary, the
      one-character strings of a string; anything else raises. */
  function Iterate(v: Value): Outcome<seq<Value>> {
    match v
    case VList(items) => Ok(items)
    case VDict(entries) => Ok(seq(|entries|, i requires 0 <= i < |entries| => VStr(entries[i].0)))
    case VStr(s) => Ok(seq(|s|, i requires 0 <= i < |s| => VStr([s[i]])))
    case _ => Raised
  }

  /** `len(v)`. */
  function Len(v: Value): Outcome<nat> {
    match v
    case VList(items) => Ok(|items|)
    case VDict(entries) => Ok(|entries|)
    case VStr(s) => Ok(|s|)
    case _ => Raised
  }

  /** `v[0]`: the first item of a list or the first character of a string;
      an empty one raises an IndexError and a dictionary (whose keys here
      are strings) a KeyError. */
  function First(v: Value): Outcome<Value> {
    match v
    case VList(items) => if items != [] then Ok(items[0]) else Raised
    case VStr(s) => if s != [] then Ok(VStr([s[0]])) else Raised
    case _ => Raised
  }

  /** `isinstance(v, dict)`. */
  predicate IsDict(v: Value) {
    v.VDict?
  }

  /** `float(v)`. Parsing a string is a parameter: None when Python would
      raise a ValueError. Values that are not numbers or strings raise a
      TypeError. */
  function ToFloat(v: Value, parse: string -> Option<real>): Outcome<real> {
    match v
    case VBool(b) => Ok(if b then 1.0 else 0.0)
    case VInt(i) => Ok(i as real)
    case VFloat(f) => Ok(f)
    case VStr(s) => if parse(s).Some? then Ok(parse(s).value) else Raised
    case _ => Raised
  }

  /** `int(v)`. Parsing a string is a parameter: None when Python would
      raise a ValueError. A float is truncated toward zero; values that are
      not numbers or strings raise a TypeError. */
  function ToInt(v: Value, parse: string -> Option<int>): Outcome<int> {
    match v
    case VBool(b) => Ok(if b then 1 else 0)
    case VInt(i) => Ok(i)
    case VFloat(f) => Ok(if f >= 0.0 then f.Floor else -((-f).Floor))
    case VStr(s) => if parse(s).Some? then Ok(parse(s).value) else Raised
    case _ => Raised
  }

  /** `str(v)`: a string is itself; the text of any other value is a
      parameter. */
  function ToStr(v: Value, show: Value -> string): string {
    if v.VStr? then v.s else show(v)
  }
}
