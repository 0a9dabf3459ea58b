/** JSON values as Python's `json` module and Rust's `serde_json` hold them.
    An object keeps its members in insertion order, as a Python dict and a
    `serde_json` map with `preserve_order` do; UniqueKeys states that it
    binds each key once, as both do. */
module Json {
  import opened Wrappers

  datatype Value =
    | Null
    | Bool(b: bool)
    | Num(n: int)
    | Str(s: string)
    | Arr(items: seq<Value>)
    | Obj(members: seq<(string, Value)>)

  /** The value bound to key in an object (the first binding if the key
      repeats), or None when the key is absent or v is not an object. */
  function Get(v: Value, key: string): (r: Option<Value>)
    ensures r.Some? ==> v.Obj? && exists i :: 0 <= i < |v.members| && v.members[i] == (key, r.value)
    ensures r.None? ==> !v.Obj? || forall i :: 0 <= i < |v.members| ==> v.members[i].0 != key
  {
    if v.Obj? then Lookup(v.members, key) else None
  }

  function Lookup(members: seq<(string, Value)>, key: string): (r: Option<Value>)
    ensures r.Some? ==> exists i :: 0 <= i < |members| && members[i] == (key, r.value)
    ensures r.None? ==> forall i :: 0 <= i < |members| ==> members[i].0 != key
    decreases |members|
  {
    if members == [] then None
    else if members[0].0 == key then Some(members[0].1)
    else Lookup(members[1..], key)
  }

  /** Member i is the first one bound to key. */
  predicate FirstNamed(members: seq<(string, Value)>, key: string, i: nat)
  {
    i < |members| && members[i].0 == key && forall k :: 0 <= k < i ==> members[k].0 != key
  }

  /** The first member bound to a key is the one found. */
  lemma {:induction false} LookupFirst(members: seq<(string, Value)>, key: string, i: nat)
    requires FirstNamed(members, key, i)
    ensures Lookup(members, key) == Some(members[i].1)
    decreases i
  {
    if i > 0 {
      assert members[0].0 != key;
      LookupFirst(members[1..], key, i - 1);
    }
  }

  /** No key is bound twice. */
  predicate DistinctKeys(members: seq<(string, Value)>)
  {
    forall i, j :: 0 <= i < j < |members| ==> members[i].0 != members[j].0
  }

  /** Every object in v, at any depth, binds each key once: the values a
      Python dict from `json.loads` or `yaml.safe_load` and a `serde_json`
      map can hold. */
  predicate UniqueKeys(v: Value)
    decreases v
  {
    match v
    case Arr(items) => forall i :: 0 <= i < |items| ==> UniqueKeys(items[i])
    case Obj(members) => DistinctKeys(members) && forall i :: 0 <= i < |members| ==> UniqueKeys(members[i].1)
    case _ => true
  }

  /** With distinct keys the binding found is the only one: a member is
      found exactly when its key is looked up. */
  lemma LookupUnique(members: seq<(string, Value)>, key: string, i: nat)
    requires DistinctKeys(members)
    requires i < |members| && members[i].0 == key
    ensures Lookup(members, key) == Some(members[i].1)
  {
    LookupFirst(members, key, i);
  }

  /** `serde_json::Value` indexing with a string: Null when the key is
      absent or the value is not an object. */
  function Index(v: Value, key: string): (r: Value)
    ensures Get(v, key).Some? ==> r == Get(v, key).value
    ensures Get(v, key).None? ==> r == Null
  {
    Get(v, key).GetOr(Null)
  }

  /** `Value::as_str`. */
  function AsStr(v: Value): (r: Option<string>)
    ensures r.Some? <==> v.Str?
    ensures r.Some? ==> r.value == v.s
  {
    if v.Str? then Some(v.s) else None
  }
}
