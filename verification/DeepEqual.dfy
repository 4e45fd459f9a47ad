// Structural equality of parsed JSON (apps/admin/src/lib/deep-equal.ts).
module DeepEqual {
  import opened JsonValues

  // Key inclusion is checked in one direction only; the lengths are compared first.
  predicate Equal(a: Json, b: Json)
    decreases a
  {
    if a.Arr? && b.Arr? then
      |a.items| == |b.items| && forall i :: 0 <= i < |a.items| ==> Equal(a.items[i], b.items[i])
    else if a.Obj? && b.Obj? then
      |a.fields| == |b.fields| &&
      forall i :: 0 <= i < |a.fields| ==>
        var other := Lookup(b.fields, a.fields[i].key);
        other.Some? && Equal(a.fields[i].value, other.value)
    else
      !a.Arr? && !a.Obj? && a == b
  }

  // The meaning of a document: an object is a finite map, so key order is gone.
  datatype Meaning =
    | MNull
    | MBool(flag: bool)
    | MNum(number: real)
    | MStr(text: string)
    | MArr(items: seq<Meaning>)
    | MObj(fields: map<string, Meaning>)

  ghost function Denote(v: Json): Meaning {
    match v
    case Null => MNull
    case Bool(flag) => MBool(flag)
    case Num(number) => MNum(number)
    case Str(text) => MStr(text)
    case Arr(items) => MArr(seq(|items|, i requires 0 <= i < |items| => Denote(items[i])))
    case Obj(fields) => MObj(DenoteFields(fields))
  }

  ghost function DenoteFields(fields: seq<Field>): (m: map<string, Meaning>)
    ensures m.Keys == Keys(fields)
  {
    if fields == [] then map[]
    else
      assert fields == [fields[0]] + fields[1..];
      DenoteFields(fields[1..])[fields[0].key := Denote(fields[0].value)]
  }

  lemma {:induction false} DenoteAt(fields: seq<Field>, i: nat)
    requires DistinctKeys(fields) && i < |fields|
    ensures fields[i].key in DenoteFields(fields)
    ensures DenoteFields(fields)[fields[i].key] == Denote(fields[i].value)
  {
    if i > 0 {
      DenoteAt(fields[1..], i - 1);
    }
  }

  lemma {:induction false} KeyCount(fields: seq<Field>)
    requires DistinctKeys(fields)
    ensures |Keys(fields)| == |fields|
  {
    if fields != [] {
      KeyCount(fields[1..]);
      assert fields == [fields[0]] + fields[1..];
      assert Keys(fields) == {fields[0].key} + Keys(fields[1..]);
      assert fields[0].key !in Keys(fields[1..]);
    }
  }

  // One-directional inclusion is enough because parsed objects have distinct keys.
  lemma SameKeys(f: seq<Field>, g: seq<Field>)
    requires DistinctKeys(f) && DistinctKeys(g) && |f| == |g|
    requires Keys(f) <= Keys(g)
    ensures Keys(f) == Keys(g)
  {
    KeyCount(f);
    KeyCount(g);
    assert Keys(g) == Keys(f) + (Keys(g) - Keys(f));
  }

  lemma {:induction false} EqualIffSameMeaning(a: Json, b: Json)
    requires WellFormed(a) && WellFormed(b)
    ensures Equal(a, b) <==> Denote(a) == Denote(b)
    decreases a
  {
    if a.Arr? && b.Arr? {
      ArraysEqualIffSameMeaning(a.items, b.items);
    } else if a.Obj? && b.Obj? {
      ObjectsEqualIffSameMeaning(a.fields, b.fields);
    }
  }

  lemma ArraysEqualIffSameMeaning(a: seq<Json>, b: seq<Json>)
    requires WellFormed(Arr(a)) && WellFormed(Arr(b))
    ensures Equal(Arr(a), Arr(b)) <==> Denote(Arr(a)) == Denote(Arr(b))
    decreases Arr(a), 0
  {
    if |a| == |b| {
      forall i | 0 <= i < |a|
        ensures Equal(a[i], b[i]) <==> Denote(a[i]) == Denote(b[i])
      {
        EqualIffSameMeaning(a[i], b[i]);
      }
      var da, db := Denote(Arr(a)).items, Denote(Arr(b)).items;
      assert forall i :: 0 <= i < |a| ==> da[i] == Denote(a[i]) && db[i] == Denote(b[i]);
    }
  }

  lemma ObjectsEqualIffSameMeaning(f: seq<Field>, g: seq<Field>)
    requires WellFormed(Obj(f)) && WellFormed(Obj(g))
    ensures Equal(Obj(f), Obj(g)) <==> Denote(Obj(f)) == Denote(Obj(g))
    decreases Obj(f), 0
  {
    forall i | 0 <= i < |f| && f[i].key in Keys(g)
      ensures Equal(f[i].value, Lookup(g, f[i].key).value) <==> DenoteFields(f)[f[i].key] == DenoteFields(g)[f[i].key]
    {
      var j :| 0 <= j < |g| && g[j].key == f[i].key;
      LookupAt(g, j);
      DenoteAt(f, i);
      DenoteAt(g, j);
      EqualIffSameMeaning(f[i].value, g[j].value);
    }
    EqualObjects(f, g);
    FieldsEqualIffSameMeaning(f, g);
  }

  predicate FieldsEqual(f: seq<Field>, g: seq<Field>) {
    |f| == |g| && forall i :: 0 <= i < |f| ==> f[i].key in Keys(g) && Equal(f[i].value, Lookup(g, f[i].key).value)
  }

  lemma EqualObjects(f: seq<Field>, g: seq<Field>)
    ensures Equal(Obj(f), Obj(g)) <==> FieldsEqual(f, g)
  {
    forall i | 0 <= i < |f| ensures Lookup(g, f[i].key).Some? <==> f[i].key in Keys(g) {
    }
  }

  // The step from fields to objects: with as many keys, one inclusion is enough.
  lemma {:induction false} FieldsEqualIffSameMeaning(f: seq<Field>, g: seq<Field>)
    requires DistinctKeys(f) && DistinctKeys(g)
    requires forall i :: 0 <= i < |f| && f[i].key in Keys(g) ==>
               (Equal(f[i].value, Lookup(g, f[i].key).value) <==>
                   DenoteFields(f)[f[i].key] == DenoteFields(g)[f[i].key])
    ensures FieldsEqual(f, g) <==> DenoteFields(f) == DenoteFields(g)
  {
    hide Equal, Denote, Lookup, DenoteFields, DistinctKeys;
    var df, dg := DenoteFields(f), DenoteFields(g);
    if FieldsEqual(f, g) {
      assert Keys(f) <= Keys(g);
      SameKeys(f, g);
      forall k | k in df ensures df[k] == dg[k] {
        var i :| 0 <= i < |f| && f[i].key == k;
      }
      assert df == dg;
    } else if df == dg {
      assert Keys(f) == Keys(g);
      KeyCount(f);
      KeyCount(g);
      assert forall i :: 0 <= i < |f| ==> f[i].key in Keys(g);
    }
  }

  lemma {:induction false} EqualIsAnEquivalence(a: Json, b: Json, c: Json)
    requires WellFormed(a) && WellFormed(b) && WellFormed(c)
    ensures Equal(a, a)
    ensures Equal(a, b) ==> Equal(b, a)
    ensures Equal(a, b) && Equal(b, c) ==> Equal(a, c)
  {
    EqualIffSameMeaning(a, a);
    EqualIffSameMeaning(a, b);
    EqualIffSameMeaning(b, a);
    EqualIffSameMeaning(b, c);
    EqualIffSameMeaning(a, c);
  }

  // Re-serializing an object in another key order never shows up as a difference.
  lemma KeyOrderIsIgnored(f: seq<Field>, g: seq<Field>)
    requires WellFormed(Obj(f)) && WellFormed(Obj(g))
    requires multiset(f) == multiset(g)
    ensures Equal(Obj(f), Obj(g))
  {
    assert |multiset(f)| == |f| && |multiset(g)| == |g|;
    forall i | 0 <= i < |f|
      ensures Lookup(g, f[i].key) == Some(f[i].value) && Equal(f[i].value, f[i].value)
    {
      assert f[i] in multiset(f);
      assert f[i] in multiset(g);
      var j :| 0 <= j < |g| && g[j] == f[i];
      LookupAt(g, j);
      EqualIffSameMeaning(f[i].value, f[i].value);
    }
  }
}
