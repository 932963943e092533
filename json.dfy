/**
 * JSON-like values as the Python code handles them after `json.loads`:
 * `None`, `bool`, `int`, `float`, `str`, `list` and `dict`. A `dict` keeps its
 * entries in insertion order, as Python dictionaries do.
 */
module Json {
  import opened Wrappers

  datatype Value =
    | Null
    | Bool(b: bool)
    | Int(i: int)
    | Float(r: real)
    | Str(s: string)
    | Array(items: seq<Value>)
    | Object(fields: seq<Field>)

  /** One `key: value` entry of a dictionary. */
  datatype Field = Field(key: string, val: Value)

  /** `type(v).__name__`. */
  function TypeName(v: Value): string {
    match v
    case Null => "NoneType"
    case Bool(_) => "bool"
    case Int(_) => "int"
    case Float(_) => "float"
    case Str(_) => "str"
    case Array(_) => "list"
    case Object(_) => "dict"
  }

  /** `list(d.keys())`. */
  function Keys(fields: seq<Field>): (ks: seq<string>)
    ensures |ks| == |fields|
    ensures forall i :: 0 <= i < |fields| ==> ks[i] == fields[i].key
  {
    if |fields| == 0 then [] else [fields[0].key] + Keys(fields[1..])
  }

  /** A Python dictionary never holds a key twice. */
  predicate DistinctKeys(fields: seq<Field>) {
    forall i, j :: 0 <= i < j < |fields| ==> fields[i].key != fields[j].key
  }

  /** `d[key]` if `key in d`, otherwise `None`. */
  function Get(fields: seq<Field>, key: string): (r: Option<Value>)
    ensures r.Some? <==> key in Keys(fields)
    ensures r.Some? ==> exists i :: 0 <= i < |fields| && fields[i] == Field(key, r.value)
  {
    if |fields| == 0 then None
    else if fields[0].key == key then Some(fields[0].val)
    else
      var r := Get(fields[1..], key);
      assert r.Some? ==> exists i :: 0 <= i < |fields[1..]| && fields[1..][i] == Field(key, r.value);
      r
  }

  /** `d[key] = v`: replaces the value in place when the key is present, appends otherwise. */
  function Put(fields: seq<Field>, key: string, v: Value): (r: seq<Field>)
    ensures Keys(r) == if key in Keys(fields) then Keys(fields) else Keys(fields) + [key]
  {
    if |fields| == 0 then [Field(key, v)]
    else if fields[0].key == key then [Field(key, v)] + fields[1..]
    else
      var rest := Put(fields[1..], key, v);
      assert ([fields[0]] + rest)[1..] == rest;
      [fields[0]] + rest
  }

  /** After `d[key] = v`, `d[key]` is `v` and every other key keeps its value. */
  lemma {:induction false} GetPut(fields: seq<Field>, key: string, v: Value, other: string)
    ensures Get(Put(fields, key, v), key) == Some(v)
    ensures other != key ==> Get(Put(fields, key, v), other) == Get(fields, other)
  {
    if |fields| > 0 && fields[0].key != key {
      GetPut(fields[1..], key, v, other);
    }
  }
}
