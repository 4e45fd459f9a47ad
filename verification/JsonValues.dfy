// JSON documents as the gateway and the admin bundle see them after JSON.parse:
// objects keep their key order, and no object has the same key twice.
module JsonValues {
  datatype Option<+T> = None | Some(value: T) {
    function GetOr(default: T): T {
      if Some? then value else default
    }
  }

  datatype Result<+T, +E> = Ok(value: T) | Err(error: E)

  datatype Json =
    | Null
    | Bool(flag: bool)
    | Num(number: real)
    | Str(text: string)
    | Arr(items: seq<Json>)
    | Obj(fields: seq<Field>)

  datatype Field = Field(key: string, value: Json)

  predicate DistinctKeys(fields: seq<Field>) {
    forall i, j :: 0 <= i < j < |fields| ==> fields[i].key != fields[j].key
  }

  predicate WellFormed(v: Json) {
    match v
    case Arr(items) => forall i :: 0 <= i < |items| ==> WellFormed(items[i])
    case Obj(fields) => DistinctKeys(fields) && forall i :: 0 <= i < |fields| ==> WellFormed(fields[i].value)
    case _ => true
  }

  function Keys(fields: seq<Field>): set<string> {
    set i | 0 <= i < |fields| :: fields[i].key
  }

  // `object[key]`; None stands for undefined.
  function Lookup(fields: seq<Field>, key: string): (r: Option<Json>)
    ensures r.Some? <==> key in Keys(fields)
    ensures r.Some? ==> Field(key, r.value) in fields
  {
    if fields == [] then None
    else if fields[0].key == key then Some(fields[0].value)
    else
      var rest := Lookup(fields[1..], key);
      assert fields == [fields[0]] + fields[1..];
      rest
  }

  // `{ ...object, [key]: value }`: an existing key keeps its place.
  function Put(fields: seq<Field>, key: string, value: Json): seq<Field> {
    if fields == [] then [Field(key, value)]
    else if fields[0].key == key then [Field(key, value)] + fields[1..]
    else [fields[0]] + Put(fields[1..], key, value)
  }

  // `delete object[key]`.
  function Remove(fields: seq<Field>, key: string): seq<Field> {
    if fields == [] then []
    else if fields[0].key == key then fields[1..]
    else [fields[0]] + Remove(fields[1..], key)
  }

  lemma {:induction false} LookupAt(fields: seq<Field>, i: nat)
    requires DistinctKeys(fields) && i < |fields|
    ensures Lookup(fields, fields[i].key) == Some(fields[i].value)
  {
    if i > 0 {
      LookupAt(fields[1..], i - 1);
    }
  }

  lemma {:induction false} LookupPut(fields: seq<Field>, key: string, value: Json, other: string)
    ensures Lookup(Put(fields, key, value), other) == if other == key then Some(value) else Lookup(fields, other)
  {
    if fields != [] && fields[0].key != key {
      LookupPut(fields[1..], key, value, other);
    }
  }

  lemma {:induction false} PutPut(fields: seq<Field>, key: string, first: Json, second: Json)
    ensures Put(Put(fields, key, first), key, second) == Put(fields, key, second)
  {
    if fields != [] && fields[0].key != key {
      PutPut(fields[1..], key, first, second);
      assert Put(fields, key, first)[1..] == Put(fields[1..], key, first);
    }
  }

  lemma {:induction false} LookupRemove(fields: seq<Field>, key: string, other: string)
    ensures other != key ==> Lookup(Remove(fields, key), other) == Lookup(fields, other)
  {
    if fields != [] && fields[0].key != key {
      LookupRemove(fields[1..], key, other);
    }
  }

  lemma {:induction false} RemovedIsGone(fields: seq<Field>, key: string)
    requires DistinctKeys(fields)
    ensures Lookup(Remove(fields, key), key) == None
  {
    if fields != [] {
      if fields[0].key == key {
        assert forall i :: 0 <= i < |fields[1..]| ==> fields[1..][i].key != key;
      } else {
        RemovedIsGone(fields[1..], key);
      }
    }
  }

  lemma {:induction false} PutKeepsDistinct(fields: seq<Field>, key: string, value: Json)
    requires DistinctKeys(fields)
    ensures DistinctKeys(Put(fields, key, value))
    ensures forall f :: f in Put(fields, key, value) ==> f.key == key || f in fields
  {
    if fields != [] && fields[0].key != key {
      PutKeepsDistinct(fields[1..], key, value);
      assert forall f :: f in fields[1..] ==> f.key != fields[0].key;
    }
  }
}
