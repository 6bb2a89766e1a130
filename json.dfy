/** The loosely typed values that the open parts of a task record hold
    (`extra`, `attributes`, the worker's `env`, a docker image reference), and
    the two dict idioms the stages apply to them. */
module Json {
  import opened Results

  datatype Value =
    | Null
    | Bool(b: bool)
    | Int(i: int)
    | Str(s: string)
    | List(items: seq<Value>)
    | Obj(fields: map<string, Value>)

  /** Python truthiness: `None`, `False`, `0` and empty strings, lists and dicts are false. */
  predicate Truthy(v: Value) {
    match v
    case Null => false
    case Bool(b) => b
    case Int(i) => i != 0
    case Str(s) => s != []
    case List(items) => items != []
    case Obj(fields) => fields != map[]
  }

  /** The dict that `m.setdefault(key, {})` hands back for further item
      assignment: the mapping already stored under `key`, or a fresh empty one;
      a value that is no dict makes the following assignment raise. */
  function Nested(m: map<string, Value>, key: string): Result<map<string, Value>>
  {
    if key !in m then Ok(map[])
    else if m[key].Obj? then Ok(m[key].fields)
    else Fail(NotAMapping(key))
  }

  /** `m.setdefault(key, {}).update(updates)`, as a new mapping. */
  function UpdateNested(m: map<string, Value>, key: string, updates: map<string, Value>): Result<map<string, Value>>
  {
    var inner :- Nested(m, key);
    Ok(m[key := Obj(inner + updates)])
  }

  /** The nested update writes `updates` under `key`, keeps whatever else was
      stored there, leaves every other key of `m` alone, and fails only when
      `key` holds something that is not a dict. */
  lemma UpdateNestedEffect(m: map<string, Value>, key: string, updates: map<string, Value>)
    ensures UpdateNested(m, key, updates).Ok? <==> (key !in m || m[key].Obj?)
    ensures UpdateNested(m, key, updates).Ok? ==>
              var r := UpdateNested(m, key, updates).value;
              && r.Keys == m.Keys + {key}
              && r[key].Obj?
              && (forall k | k in updates :: k in r[key].fields && r[key].fields[k] == updates[k])
              && (forall k | k in m && k != key :: r[k] == m[k])
              && (key in m ==> forall k | k in m[key].fields && k !in updates ::
                                 k in r[key].fields && r[key].fields[k] == m[key].fields[k])
  {
  }
}
