/**
 * A small JSON value, enough for the documents the usage pipeline builds,
 * uploads and receives: an object is an association list kept in insertion
 * order, next to arrays, strings, integers and null.
 */
module Json {
  import opened Wrappers

  datatype Json =
    | JObject(fields: seq<(string, Json)>)
    | JArray(items: seq<Json>)
    | JString(str: string)
    | JInt(num: int)
    | JNull

  /** The keys of an association list, in order. */
  function Keys(fields: seq<(string, Json)>): (ks: seq<string>)
    ensures |ks| == |fields|
    ensures forall i :: 0 <= i < |fields| ==> ks[i] == fields[i].0
  {
    if fields == [] then [] else [fields[0].0] + Keys(fields[1..])
  }

  /** True when no key occurs twice: every object built through Put is like this. */
  predicate DistinctKeys(fields: seq<(string, Json)>) {
    forall i, j :: 0 <= i < j < |fields| ==> fields[i].0 != fields[j].0
  }

  /** The value stored under `key` in an association list (its first occurrence). */
  function Lookup(fields: seq<(string, Json)>, key: string): (r: Option<Json>)
    ensures r.Some? <==> exists i :: 0 <= i < |fields| && fields[i].0 == key
    ensures r.Some? ==> exists i :: 0 <= i < |fields| && fields[i] == (key, r.value)
  {
    if fields == [] then None
    else if fields[0].0 == key then Some(fields[0].1)
    else Lookup(fields[1..], key)
  }

  /** `JSONObject.has(key)`: only an object has keys. */
  predicate Has(j: Json, key: string) {
    j.JObject? && Lookup(j.fields, key).Some?
  }

  /** The value under `key`, or None when `j` is not an object or lacks the key. */
  function Get(j: Json, key: string): (r: Option<Json>)
    ensures r.Some? <==> Has(j, key)
  {
    if j.JObject? then Lookup(j.fields, key) else None
  }

  /** Replaces the value of an existing key where it stands, or appends a new pair. */
  function PutField(fields: seq<(string, Json)>, key: string, value: Json): (r: seq<(string, Json)>)
  {
    if fields == [] then [(key, value)]
    else if fields[0].0 == key then [(key, value)] + fields[1..]
    else [fields[0]] + PutField(fields[1..], key, value)
  }

  /**
   * `JSONObject.put(key, value)` for a non-null value. The receiver is an
   * object everywhere the pipeline calls it; on anything else Put leaves it as it is.
   */
  function Put(j: Json, key: string, value: Json): Json {
    if j.JObject? then JObject(PutField(j.fields, key, value)) else j
  }

  /** After a put, the key maps to the new value and every other key keeps its value. */
  lemma {:induction false} PutFieldLookup(fields: seq<(string, Json)>, key: string, value: Json, other: string)
    ensures Lookup(PutField(fields, key, value), key) == Some(value)
    ensures other != key ==> Lookup(PutField(fields, key, value), other) == Lookup(fields, other)
  {
    if fields != [] && fields[0].0 != key {
      var rest := PutField(fields[1..], key, value);
      assert PutField(fields, key, value) == [fields[0]] + rest;
      assert ([fields[0]] + rest)[1..] == rest;
      PutFieldLookup(fields[1..], key, value, other);
    } else if fields != [] {
      assert ([(key, value)] + fields[1..])[1..] == fields[1..];
    }
  }

  /** A put adds the key at the end when it is new and otherwise keeps the key order. */
  lemma {:induction false} PutFieldKeys(fields: seq<(string, Json)>, key: string, value: Json)
    ensures Lookup(fields, key).None? ==> Keys(PutField(fields, key, value)) == Keys(fields) + [key]
    ensures Lookup(fields, key).Some? ==> Keys(PutField(fields, key, value)) == Keys(fields)
  {
    if fields != [] && fields[0].0 != key {
      PutFieldKeys(fields[1..], key, value);
      var rest := PutField(fields[1..], key, value);
      assert Keys([fields[0]] + rest) == [fields[0].0] + Keys(rest);
      assert Keys(fields) == [fields[0].0] + Keys(fields[1..]);
    } else if fields != [] {
      assert Keys([(key, value)] + fields[1..]) == [key] + Keys(fields[1..]);
      assert Keys(fields) == [fields[0].0] + Keys(fields[1..]);
    }
  }

  /** Put never makes a key occur twice. */
  lemma PutFieldDistinct(fields: seq<(string, Json)>, key: string, value: Json)
    requires DistinctKeys(fields)
    ensures DistinctKeys(PutField(fields, key, value))
  {
    var r := PutField(fields, key, value);
    PutFieldKeys(fields, key, value);
    forall i, j | 0 <= i < j < |r| ensures r[i].0 != r[j].0 {
      assert Keys(r)[i] == r[i].0 && Keys(r)[j] == r[j].0;
      if Lookup(fields, key).Some? {
        assert Keys(fields)[i] == fields[i].0 && Keys(fields)[j] == fields[j].0;
      } else if j == |fields| {
        assert r[j].0 == key && Keys(fields)[i] == fields[i].0;
      } else {
        assert Keys(fields)[i] == fields[i].0 && Keys(fields)[j] == fields[j].0;
      }
    }
  }

  /** Put on an object: the key now holds the value and nothing else moves. */
  lemma PutGet(j: Json, key: string, value: Json, other: string)
    requires j.JObject?
    ensures Get(Put(j, key, value), key) == Some(value)
    ensures other != key ==> Get(Put(j, key, value), other) == Get(j, other)
  {
    PutFieldLookup(j.fields, key, value, other);
  }
}
