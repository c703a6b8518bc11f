/** How the two adapters relate: which requests ask the engine for the same thing,
    and how the raw adapter reads the engine's JSON rendering of the replies the
    typed adapter receives as values. */
module Adapters {
  import opened Wrappers
  import opened Json
  import opened Dto
  import Raw = RawAdapter
  import Typed = TypedAdapter

  /** The query kind a typed query names on the wire. */
  function QueryName(q: Typed.Query): string
  {
    if q.Term? then "term" else "match"
  }

  /** Both adapters search the given field for the given value; the raw adapter
      names its query after the caller's type verbatim while the typed adapter
      sends a match query for every type but "term", so they ask for the same kind
      of query exactly when the type is "term" or "match". */
  lemma SearchKindsAgreeIff(field: string, value: string, kind: string)
    ensures var clause := Raw.ReadSearchBody(Raw.SearchBodyOf(field, value, kind)).value;
            var q := Typed.QueryFor(field, value, kind);
            && clause.field == q.field
            && clause.value == (if q.Term? then q.value else q.query)
            && (clause.key == QueryName(q) <==> kind in {"term", "match"})
  {
    Raw.SearchBodyRoundTrip(field, value, kind);
  }

  /** Both adapters aggregate the given field under the caller's name; the raw
      adapter names the aggregation after the caller's type verbatim while the
      typed adapter asks for stats for every type it does not know, so they ask
      for the same metric exactly when the type is min, max, sum, avg or stats. */
  lemma AggregationKindsAgreeIff(name: string, field: string, kind: string)
    ensures var clause := Raw.ReadAggregationBody(Raw.AggregationBodyOf(name, field, kind)).value;
            var a := Typed.AggregationFor(field, kind);
            && clause.name == name
            && clause.field == a.field
            && (clause.key == Typed.MetricName(a.metric) <==> kind in {"min", "max", "sum", "avg", "stats"})
  {
    Raw.AggregationBodyRoundTrip(name, field, kind);
  }

  /** The JSON library decodes what it encodes. */
  ghost predicate RoundTrips(encode: Employee -> Json, decode: Json -> Option<Employee>)
  {
    forall e :: decode(encode(e)) == Some(e)
  }

  /** A typed hit as the engine writes it in JSON: `_id`, then `_source` unless null. */
  function RenderHit(hit: Typed.Hit, encode: Employee -> Json): Json
  {
    var source := if hit.source.Some? then [("_source", encode(hit.source.value))] else [];
    JObject([("_id", JString(hit.id))] + source)
  }

  /** The raw adapter reads a rendered hit as the typed adapter keeps it, except
      that a null source is a null dereference rather than a null entry. */
  lemma RenderedHit(hit: Typed.Hit, encode: Employee -> Json, decode: Json -> Option<Employee>)
    requires RoundTrips(encode, decode)
    ensures Raw.DecodeHit(RenderHit(hit, encode), decode) ==
              if hit.source.Some? then Ok(Typed.HitEmployee(hit).value) else Err(NullNode("_source"))
  {
    var ms := RenderHit(hit, encode).members;
    assert ms[0] == ("_id", JString(hit.id));
    if hit.source.Some? {
      assert ms[1..] == [("_source", encode(hit.source.value))];
    } else {
      assert ms[1..] == [];
    }
  }

  /** On the same hits, the raw adapter succeeds exactly when no hit has a null
      source, and then yields, in order, the employees the typed adapter yields. */
  lemma HitDecodersAgree(hits: seq<Typed.Hit>, encode: Employee -> Json, decode: Json -> Option<Employee>)
    requires RoundTrips(encode, decode)
    ensures var rendered := seq(|hits|, i requires 0 <= i < |hits| => RenderHit(hits[i], encode));
            var raw := Raw.DecodeHits(rendered, decode);
            && (raw.Ok? <==> forall i :: 0 <= i < |hits| ==> hits[i].source.Some?)
            && (raw.Ok? ==> |raw.value| == |hits| &&
                            forall i :: 0 <= i < |hits| ==> Some(raw.value[i]) == Typed.HitEmployee(hits[i]))
  {
    var rendered := seq(|hits|, i requires 0 <= i < |hits| => RenderHit(hits[i], encode));
    forall i | 0 <= i < |hits|
      ensures Raw.DecodeHit(rendered[i], decode) ==
                if hits[i].source.Some? then Ok(Typed.HitEmployee(hits[i]).value) else Err(NullNode("_source"))
    {
      RenderedHit(hits[i], encode, decode);
    }
    Raw.DecodeHitsInOrder(rendered, decode);
  }

  /** A typed get reply as the engine writes it in JSON. */
  function RenderGet(response: Typed.GetResponse, encode: Employee -> Json): Json
  {
    var source := if response.source.Some? then [("_source", encode(response.source.value))] else [];
    JObject([("_index", JString("employees")), ("_id", JString(response.id)), ("found", JBool(response.found))] + source)
  }

  /** What the raw adapter finds in a rendered get reply. */
  lemma RenderedGet(response: Typed.GetResponse, encode: Employee -> Json)
    ensures !IsEmpty(RenderGet(response, encode))
    ensures Get(RenderGet(response, encode), "found") == Some(JBool(response.found))
    ensures Get(RenderGet(response, encode), "_source") ==
              if response.source.Some? then Some(encode(response.source.value)) else None
  {
    var ms := RenderGet(response, encode).members;
    var tail := ms[1..][1..][1..];
    assert ms[0].0 == "_index" && ms[1..][0].0 == "_id" && ms[1..][1..][0] == ("found", JBool(response.found));
    assert Lookup(ms, "_source") == Lookup(tail, "_source");
    if response.source.Some? {
      assert tail == [("_source", encode(response.source.value))];
    } else {
      assert tail == [];
    }
  }

  /** On the same get reply, the corrected raw reading agrees with the typed
      adapter, while the raw adapter as written fails on every reply without a
      source. */
  lemma GetDecodersAgree(response: Typed.GetResponse, encode: Employee -> Json, decode: Json -> Option<Employee>)
    requires RoundTrips(encode, decode)
    ensures Raw.GetReply(response.id, RenderGet(response, encode), decode) == Ok(Typed.FoundEmployee(response))
    ensures response.source.None? ==>
              Raw.GetReplyAsWritten(response.id, RenderGet(response, encode), decode) == Err(NullNode("_source"))
  {
    RenderedGet(response, encode);
  }
}
