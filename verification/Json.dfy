/** Decoded JSON, as far as the response parser looks at it. */
module Json {
  import opened Wrappers

  /** An object keeps its keys in order besides the map from key to value. */
  datatype Json =
    | Null
    | Bool(flag: bool)
    | Int(number: int)
    | Fraction(ratio: real)
    | Str(text: string)
    | Arr(items: seq<Json>)
    | Obj(keys: seq<string>, fields: map<string, Json>)
  {
    /** Python's truth value of the decoded object. */
    predicate Truthy() {
      match this
      case Null => false
      case Bool(b) => b
      case Int(n) => n != 0
      case Fraction(q) => q != 0.0
      case Str(s) => s != ""
      case Arr(xs) => xs != []
      case Obj(ks, _) => ks != []
    }

    /** `this.get(key, default)` on an object. */
    function Get(key: string, default: Json): Json
      requires Obj?
    {
      if key in fields then fields[key] else default
    }
  }

  const EMPTY_OBJECT: Json := Obj([], map[])

  /** An object with the given keys and values, in order. */
  function Object(entries: seq<(string, Json)>): (o: Json)
    ensures o.Obj? && |o.keys| == |entries|
    ensures forall i :: 0 <= i < |entries| ==> o.keys[i] == entries[i].0
  {
    if entries == [] then EMPTY_OBJECT
    else
      var rest := Object(entries[1..]);
      Obj([entries[0].0] + rest.keys,
          if entries[0].0 in rest.fields then rest.fields else rest.fields[entries[0].0 := entries[0].1])
  }

  /** What `for x in j` yields, or None when j cannot be iterated. */
  function Iterate(j: Json): Option<seq<Json>> {
    match j
    case Arr(xs) => Some(xs)
    case Str(s) => Some(seq(|s|, i requires 0 <= i < |s| => Str([s[i]])))
    case Obj(ks, _) => Some(seq(|ks|, i requires 0 <= i < |ks| => Str(ks[i])))
    case _ => None
  }
}
