/**
 * JSON values as the tool descriptors and schemas hold them. An object keeps its
 * members in insertion order, as a Python dict does; assigning to an existing key
 * keeps its position, assigning to a new key appends it, `del` removes it.
 */
module Json {
  import opened Wrappers

  datatype Json =
    | JNull
    | JBool(b: bool)
    | JInt(i: int)
    | JStr(s: string)
    | JArr(items: seq<Json>)
    | JObj(fields: seq<Field>)

  type Field = (string, Json)

  /** The keys of an object's members, in order. */
  function Keys(fields: seq<Field>): (ks: seq<string>)
    ensures |ks| == |fields|
    ensures forall i :: 0 <= i < |fields| ==> ks[i] == fields[i].0
  {
    if fields == [] then [] else [fields[0].0] + Keys(fields[1..])
  }

  /** Every key occurs once, as in a Python dict. */
  predicate DistinctKeys(fields: seq<Field>)
  {
    forall i, j :: 0 <= i < j < |fields| ==> fields[i].0 != fields[j].0
  }

  /** `d.get(k)`: the value of the first member named `k`. */
  function Get(fields: seq<Field>, k: string): (r: Option<Json>)
    ensures r.None? <==> k !in Keys(fields)
  {
    if fields == [] then None
    else if fields[0].0 == k then Some(fields[0].1)
    else Get(fields[1..], k)
  }

  /** `del d[k]` when `k` is present; nothing changes when it is absent. */
  function Remove(fields: seq<Field>, k: string): seq<Field>
  {
    if fields == [] then []
    else if fields[0].0 == k then Remove(fields[1..], k)
    else [fields[0]] + Remove(fields[1..], k)
  }

  /** After the removal `k` is gone and every other member is kept, in order. */
  lemma {:induction false} RemoveKeepsOthers(fields: seq<Field>, k: string, other: string)
    requires other != k
    ensures k !in Keys(Remove(fields, k))
    ensures Get(Remove(fields, k), other) == Get(fields, other)
  {
    if fields != [] {
      RemoveKeepsOthers(fields[1..], k, other);
    }
  }

  /** Removing an absent key leaves the object as it was. */
  lemma {:induction false} RemoveAbsent(fields: seq<Field>, k: string)
    requires k !in Keys(fields)
    ensures Remove(fields, k) == fields
  {
    if fields != [] {
      assert Keys(fields)[0] == fields[0].0;
      assert Keys(fields[1..]) == Keys(fields)[1..];
      RemoveAbsent(fields[1..], k);
    }
  }

  /** `d[k] = v`: replaces the value in place when `k` is present, appends otherwise. */
  function Upsert(fields: seq<Field>, k: string, v: Json): seq<Field>
  {
    if fields == [] then [(k, v)]
    else if fields[0].0 == k then [(k, v)] + fields[1..]
    else [fields[0]] + Upsert(fields[1..], k, v)
  }

  /** After `d[k] = v`, `d[k]` is `v` and every other key keeps its value. */
  lemma {:induction false} UpsertGet(fields: seq<Field>, k: string, v: Json, other: string)
    ensures Get(Upsert(fields, k, v), other) == if other == k then Some(v) else Get(fields, other)
  {
    if fields != [] && fields[0].0 != k {
      UpsertGet(fields[1..], k, v, other);
    }
  }

  /** After `d[k] = v` the keys are the old keys, with `k` appended when it was new. */
  lemma {:induction false} UpsertKeys(fields: seq<Field>, k: string, v: Json)
    ensures Keys(Upsert(fields, k, v)) == if k in Keys(fields) then Keys(fields) else Keys(fields) + [k]
  {
    if fields != [] {
      var rest := Keys(fields[1..]);
      assert Keys(fields) == [fields[0].0] + rest;
      if fields[0].0 != k {
        UpsertKeys(fields[1..], k, v);
        assert k in Keys(fields) <==> k in rest;
      }
    }
  }

  /** `j[k]` on an object, None when `j` is not an object or lacks the key. */
  function Lookup(j: Json, k: string): (r: Option<Json>)
    ensures r.Some? ==> j.JObj? && k in Keys(j.fields)
  {
    if j.JObj? then Get(j.fields, k) else None
  }

  /** Python truthiness: null, false, 0, "" and empty containers are false. */
  predicate Truthy(j: Json)
  {
    match j
    case JNull => false
    case JBool(b) => b
    case JInt(i) => i != 0
    case JStr(s) => s != ""
    case JArr(items) => items != []
    case JObj(fields) => fields != []
  }

  /** `{"type": "object", "properties": {}}`. */
  const EmptyObjectSchema: Json := JObj([("type", JStr("object")), ("properties", JObj([]))])
}
