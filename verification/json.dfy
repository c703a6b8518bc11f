/** The JSON document tree that the raw adapter builds and walks: null, booleans,
    numbers (kept as their literal text), strings, arrays, and objects whose members
    keep the order in which they were inserted, as Jackson's ObjectNode does. */
module Json {
  import opened Wrappers

  datatype Json =
    | JNull
    | JBool(b: bool)
    | JNumber(text: string)
    | JString(s: string)
    | JArray(items: seq<Json>)
    | JObject(members: seq<(string, Json)>)

  /** The member names of an object, in insertion order. */
  function Names(ms: seq<(string, Json)>): (r: seq<string>)
    ensures |r| == |ms|
    ensures forall i :: 0 <= i < |ms| ==> r[i] == ms[i].0
  {
    if ms == [] then [] else [ms[0].0] + Names(ms[1..])
  }

  /** The member values of an object, in insertion order. */
  function Values(ms: seq<(string, Json)>): (r: seq<Json>)
    ensures |r| == |ms|
    ensures forall i :: 0 <= i < |ms| ==> r[i] == ms[i].1
  {
    if ms == [] then [] else [ms[0].1] + Values(ms[1..])
  }

  /** The value stored under `key`, if any member has that name. */
  function Lookup(ms: seq<(string, Json)>, key: string): (r: Option<Json>)
    ensures r.None? <==> key !in Names(ms)
    ensures r.Some? ==> (key, r.value) in ms
  {
    if ms == [] then None
    else if ms[0].0 == key then Some(ms[0].1)
    else Lookup(ms[1..], key)
  }

  /** ObjectNode.put / ObjectNode.set: a member already named `key` gets the new
      value in its place; otherwise the member is appended. */
  function Upsert(ms: seq<(string, Json)>, key: string, v: Json): (r: seq<(string, Json)>)
    ensures Lookup(r, key) == Some(v)
  {
    if ms == [] then [(key, v)]
    else if ms[0].0 == key then [(key, v)] + ms[1..]
    else
      var rest := Upsert(ms[1..], key, v);
      var r := [ms[0]] + rest;
      assert r[0] == ms[0] && r[1..] == rest;
      r
  }

  /** Upsert leaves every other name's value as it was. */
  lemma {:induction false} UpsertKeepsOthers(ms: seq<(string, Json)>, key: string, v: Json, k: string)
    requires k != key
    ensures Lookup(Upsert(ms, key, v), k) == Lookup(ms, k)
  {
    if ms != [] && ms[0].0 != key {
      var r := Upsert(ms, key, v);
      assert r[0] == ms[0] && r[1..] == Upsert(ms[1..], key, v);
      UpsertKeepsOthers(ms[1..], key, v, k);
    } else if ms != [] {
      assert Upsert(ms, key, v)[1..] == ms[1..];
    }
  }

  /** Upsert keeps the names in place and appends a new name at the end. */
  lemma {:induction false} UpsertNames(ms: seq<(string, Json)>, key: string, v: Json)
    ensures Names(Upsert(ms, key, v)) == if key in Names(ms) then Names(ms) else Names(ms) + [key]
  {
    if ms != [] {
      var r := Upsert(ms, key, v);
      if ms[0].0 == key {
        assert r[1..] == ms[1..];
        assert Names(r) == [key] + Names(ms[1..]);
      } else {
        assert r[0] == ms[0] && r[1..] == Upsert(ms[1..], key, v);
        UpsertNames(ms[1..], key, v);
        assert Names(r) == [ms[0].0] + Names(Upsert(ms[1..], key, v));
        assert Names(ms) == [ms[0].0] + Names(ms[1..]);
      }
    }
  }

  /** JsonNode.get(String): a member of an object; any other node has none. */
  function Get(node: Json, key: string): Option<Json>
  {
    if node.JObject? then Lookup(node.members, key) else None
  }

  /** JsonNode.elements(): the items of an array, the member values of an object,
      nothing for a scalar. */
  function Elements(node: Json): seq<Json>
  {
    match node
    case JArray(items) => items
    case JObject(ms) => Values(ms)
    case _ => []
  }

  /** JsonNode.fieldNames(): the member names of an object, nothing otherwise. */
  function FieldNames(node: Json): (r: seq<string>)
    ensures forall k :: k in r ==> Get(node, k).Some?
    ensures node.JObject? ==> forall k :: Get(node, k).Some? ==> k in r
  {
    if node.JObject? then Names(node.members) else []
  }

  /** JsonNode.asText(): the text of a scalar, empty for a container. */
  function AsText(node: Json): string
  {
    match node
    case JNull => "null"
    case JBool(b) => if b then "true" else "false"
    case JNumber(text) => text
    case JString(s) => s
    case _ => ""
  }

  /** JsonNode.isEmpty(): size() == 0, and a scalar has size 0. */
  predicate IsEmpty(node: Json)
  {
    match node
    case JArray(items) => items == []
    case JObject(ms) => ms == []
    case _ => true
  }

  /** The only member of a one-member object. */
  function Single(node: Json): (r: Option<(string, Json)>)
    ensures r.Some? <==> node.JObject? && |node.members| == 1
    ensures r.Some? ==> node == JObject([r.value])
  {
    if node.JObject? && |node.members| == 1 then Some(node.members[0]) else None
  }

  /** Jackson's mutable object node, filled member by member. */
  class ObjectNode {
    var members: seq<(string, Json)>

    /** ObjectMapper.createObjectNode(): an empty object. */
    constructor ()
      ensures members == []
    {
      members := [];
    }

    /** The tree this node stands for. */
    function Value(): (j: Json)
      reads this
      ensures j.JObject? && j.members == members
    {
      JObject(members)
    }

    /** ObjectNode.put(key, text): a string member. */
    method Put(key: string, text: string)
      modifies this
      ensures members == Upsert(old(members), key, JString(text))
    {
      members := Upsert(members, key, JString(text));
    }

    /** ObjectNode.set(key, child): a nested object member, holding the child as it
        stands at this call. */
    method Set(key: string, child: ObjectNode)
      modifies this
      ensures members == Upsert(old(members), key, old(child.Value()))
    {
      members := Upsert(members, key, child.Value());
    }
  }
}
