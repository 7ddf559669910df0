module Options {
  datatype Option<+T> = None | Some(value: T)

  /** Success, or the exception that ended the computation. */
  datatype Outcome<+T> = Done(value: T) | Raised(error: string)
}

/** Parsed JSON, as the Python decoder hands it over. */
module Json {
  import opened Options

  datatype Field = Field(key: string, value: Value)

  /** Objects keep their keys in insertion order, as Python dictionaries do. */
  datatype Value =
    | Null
    | Bool(b: bool)
    | Int(n: int)
    | Float(r: real)
    | Str(s: string)
    | Arr(items: seq<Value>)
    | Obj(fields: seq<Field>)

  function Find(fields: seq<Field>, key: string): Option<Value> {
    if fields == [] then None
    else if fields[0].key == key then Some(fields[0].value)
    else Find(fields[1..], key)
  }

  /** `dict.get(key, default)`. */
  function Get(fields: seq<Field>, key: string, default: Value := Null): Value {
    match Find(fields, key)
    case Some(v) => v
    case None => default
  }

  /** A dictionary holds a key at most once. */
  ghost predicate DistinctKeys(fields: seq<Field>) {
    forall i, j :: 0 <= i < j < |fields| ==> fields[i].key != fields[j].key
  }

  /** Python truth value. */
  predicate Truthy(v: Value) {
    match v
    case Null => false
    case Bool(b) => b
    case Int(n) => n != 0
    case Float(r) => r != 0.0
    case Str(s) => s != ""
    case Arr(items) => items != []
    case Obj(fields) => fields != []
  }

  /** `a or b`. */
  function Or(a: Value, b: Value): Value {
    if Truthy(a) then a else b
  }

  /** `x if isinstance(x, dict) else {}`. */
  function DictOrEmpty(v: Value): seq<Field> {
    match v
    case Obj(fields) => fields
    case _ => []
  }

  /** Finding a key that was there before an append finds the same value. */
  lemma {:induction false} FindAppend(fields: seq<Field>, more: seq<Field>, key: string)
    ensures Find(fields + more, key) == if Find(fields, key).Some? then Find(fields, key) else Find(more, key)
  {
    if fields == [] {
      assert fields + more == more;
    } else {
      assert (fields + more)[1..] == fields[1..] + more;
      FindAppend(fields[1..], more, key);
    }
  }

  lemma {:induction false} FindMember(fields: seq<Field>, key: string)
    ensures Find(fields, key).Some? <==> exists i :: 0 <= i < |fields| && fields[i].key == key
    ensures DistinctKeys(fields) ==>
      forall i :: 0 <= i < |fields| && fields[i].key == key ==> Find(fields, key) == Some(fields[i].value)
  {
    if fields != [] {
      FindMember(fields[1..], key);
      var rest := fields[1..];
      assert forall i :: 0 < i < |fields| ==> fields[i] == rest[i - 1];
      assert forall i :: 0 <= i < |rest| ==> rest[i] == fields[i + 1];
      if Find(rest, key).Some? {
        var i :| 0 <= i < |rest| && rest[i].key == key;
        assert fields[i + 1].key == key;
      }
    }
  }
}
