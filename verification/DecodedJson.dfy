// Decoded JSON values, as the two gate scripts see them.
module DecodedJson {
  import opened Wrappers

  // Objects keep the order of their keys.
  datatype Value =
    | Null
    | Bool(b: bool)
    | Int(n: int)
    | Real(x: real)
    | Str(s: string)
    | List(items: seq<Value>)
    | Dict(entries: seq<(string, Value)>)

  predicate Truthy(v: Value) {
    match v
    case Null => false
    case Bool(b) => b
    case Int(n) => n != 0
    case Real(x) => x != 0.0
    case Str(s) => s != ""
    case List(items) => items != []
    case Dict(entries) => entries != []
  }

  // a or b
  function Or(a: Value, b: Value): Value { if Truthy(a) then a else b }

  function Lookup(entries: seq<(string, Value)>, key: string): (v: Option<Value>)
    ensures v.Some? ==> (key, v.value) in entries
    ensures v.None? ==> forall e | e in entries :: e.0 != key
  {
    if entries == [] then None
    else if entries[0].0 == key then Some(entries[0].1)
    else Lookup(entries[1..], key)
  }

  function GetOr(entries: seq<(string, Value)>, key: string, absent: Value): Value {
    var v := Lookup(entries, key);
    if v.Some? then v.value else absent
  }

  function Get(entries: seq<(string, Value)>, key: string): Value { GetOr(entries, key, Null) }

  // Numbers and booleans compare by value, as in 1 == 1.0 == True.
  function Numeric(v: Value): Option<real> {
    match v
    case Bool(b) => Some(if b then 1.0 else 0.0)
    case Int(n) => Some(n as real)
    case Real(x) => Some(x)
    case _ => None
  }

  predicate EqualsInt(v: Value, n: int) { Numeric(v) == Some(n as real) }

  // What iterating over the value yields; None when it cannot be iterated.
  function Elements(v: Value): Option<seq<Value>> {
    match v
    case List(items) => Some(items)
    case Str(s) => Some(seq(|s|, i requires 0 <= i < |s| => Str([s[i]])))
    case Dict(entries) => Some(seq(|entries|, i requires 0 <= i < |entries| => Str(entries[i].0)))
    case _ => None
  }

  predicate Hashable(v: Value) { !v.List? && !v.Dict? }

  // What is false: nothing, zero, and what is empty.
  lemma FalseValues(v: Value)
    ensures !Truthy(v) <==>
      v in [Null, Bool(false), Int(0), Real(0.0), Str(""), List([]), Dict([])]
  {
    var values := [Null, Bool(false), Int(0), Real(0.0), Str(""), List([]), Dict([])];
    assert values[0] == Null && values[1] == Bool(false) && values[2] == Int(0) && values[3] == Real(0.0);
    assert values[4] == Str("") && values[5] == List([]) && values[6] == Dict([]);
    if v.Bool? && !v.b {
      assert v == Bool(false);
    }
  }
}
