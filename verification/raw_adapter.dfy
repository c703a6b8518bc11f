/** The raw-HTTP adapter (EmployeeServiceImpl): it writes request paths and JSON
    bodies by hand and decodes the engine's replies by walking the JSON tree.
    Each operation takes the engine's reply body, already parsed, and yields the
    request it sends together with what it returns to its caller. */
module RawAdapter {
  import opened Wrappers
  import opened Json
  import opened Dto

  const EmployeesDoc: string := "/employees/_doc/"
  const EmployeesSearch: string := "/employees/_search"

  datatype Verb = GET | POST | DELETE

  /** An HTTP request to the engine: verb, path and JSON entity. */
  datatype Request = Request(verb: Verb, path: string, entity: Option<Json>)

  /** The path of one document: the document prefix followed by the id, which can
      be read back from it, and never the search path. */
  function DocPath(id: string): (p: string)
    ensures |p| == |EmployeesDoc| + |id|
    ensures p[..|EmployeesDoc|] == EmployeesDoc && p[|EmployeesDoc|..] == id
    ensures p != EmployeesSearch
  {
    var p := EmployeesDoc + id;
    assert EmployeesDoc == "/employees/_" + "doc/";
    assert EmployeesSearch == "/employees/_" + "search";
    assert p[12] == "doc/"[0] == 'd';
    assert EmployeesSearch[12] == "search"[0] == 's';
    p
  }

  // ---------------------------------------------------------------------------
  // Request bodies

  /** The search body: {query: {<type>: {<field>: {value: <value>}}}} for a term
      query, {query: {<type>: {<field>: <value>}}} for any other type, whose name
      is used verbatim as the query key. */
  function SearchBodyOf(field: string, value: string, kind: string): Json
  {
    var desc := if kind == "term" then JObject([("value", JString(value))]) else JString(value);
    JObject([("query", JObject([(kind, JObject([(field, desc)]))]))])
  }

  /** Builds the search body node by node, as the source does. */
  method SearchBody(field: string, value: string, kind: string) returns (body: Json)
    ensures body == SearchBodyOf(field, value, kind)
  {
    var json := new ObjectNode();
    var queryNode := new ObjectNode();
    var descNode := new ObjectNode();
    if kind == "term" {
      var valueNode := new ObjectNode();
      valueNode.Put("value", value);
      descNode.Set(field, valueNode);
    } else {
      descNode.Put(field, value);
    }
    queryNode.Set(kind, descNode);
    json.Set("query", queryNode);
    body := json.Value();
  }

  /** What a search body asks for: the query key, the field and the value. */
  datatype SearchClause = SearchClause(key: string, field: string, value: string)

  /** Reads a search body of exactly the shape SearchBodyOf writes. */
  function ReadSearchBody(body: Json): Option<SearchClause>
  {
    var top := Single(body);
    if top.None? || top.value.0 != "query" then None
    else
      var kind := Single(top.value.1);
      if kind.None? then None
      else
        var desc := Single(kind.value.1);
        if desc.None? then None
        else
          var key, field, node := kind.value.0, desc.value.0, desc.value.1;
          if key == "term" then
            var inner := Single(node);
            if inner.Some? && inner.value.0 == "value" && inner.value.1.JString?
            then Some(SearchClause(key, field, inner.value.1.s))
            else None
          else if node.JString? then Some(SearchClause(key, field, node.s))
          else None
  }

  /** Reading a search body back recovers the type, field and value it was built
      from; the type string is the query key, whatever it is. */
  lemma SearchBodyRoundTrip(field: string, value: string, kind: string)
    ensures ReadSearchBody(SearchBodyOf(field, value, kind)) == Some(SearchClause(kind, field, value))
  {
  }

  /** Every body ReadSearchBody accepts is the one SearchBodyOf writes for it. */
  lemma ReadSearchBodyExact(body: Json)
    requires ReadSearchBody(body).Some?
    ensures var c := ReadSearchBody(body).value; SearchBodyOf(c.field, c.value, c.key) == body
  {
  }

  /** The aggregation body: {aggs: {<name>: {<type>: {field: <field>}}}}. */
  function AggregationBodyOf(name: string, field: string, kind: string): Json
  {
    JObject([("aggs", JObject([(name, JObject([(kind, JObject([("field", JString(field))]))]))]))])
  }

  /** Builds the aggregation body node by node, as the source does. */
  method AggregationBody(name: string, field: string, kind: string) returns (body: Json)
    ensures body == AggregationBodyOf(name, field, kind)
  {
    var json := new ObjectNode();
    var queryNode := new ObjectNode();
    var descNode := new ObjectNode();
    var childNode := new ObjectNode();
    descNode.Put("field", field);
    queryNode.Set(kind, descNode);
    childNode.Set(name, queryNode);
    json.Set("aggs", childNode);
    body := json.Value();
  }

  /** What an aggregation body asks for: its name, the aggregation key and the field. */
  datatype AggregationClause = AggregationClause(name: string, key: string, field: string)

  /** Reads an aggregation body of exactly the shape AggregationBodyOf writes. */
  function ReadAggregationBody(body: Json): Option<AggregationClause>
  {
    var top := Single(body);
    if top.None? || top.value.0 != "aggs" then None
    else
      var named := Single(top.value.1);
      if named.None? then None
      else
        var kind := Single(named.value.1);
        if kind.None? then None
        else
          var desc := Single(kind.value.1);
          if desc.Some? && desc.value.0 == "field" && desc.value.1.JString?
          then Some(AggregationClause(named.value.0, kind.value.0, desc.value.1.s))
          else None
  }

  /** The aggregation body carries no query clause, and reading it back recovers
      the name, the type (verbatim, as the aggregation key) and the field. */
  lemma AggregationBodyRoundTrip(name: string, field: string, kind: string)
    ensures Get(AggregationBodyOf(name, field, kind), "query").None?
    ensures ReadAggregationBody(AggregationBodyOf(name, field, kind)) == Some(AggregationClause(name, kind, field))
  {
  }

  /** Every body ReadAggregationBody accepts is the one AggregationBodyOf writes for it. */
  lemma ReadAggregationBodyExact(body: Json)
    requires ReadAggregationBody(body).Some?
    ensures var c := ReadAggregationBody(body).value; AggregationBodyOf(c.name, c.field, c.key) == body
  {
  }

  // ---------------------------------------------------------------------------
  // Decoding search hits

  /** One hit: its `_source` decoded by the JSON library, then its id set to the
      text of `_id`. A `_source` that does not decode raises first; a missing `_id`
      or `_source` is a null dereference. */
  function DecodeHit(hit: Json, decode: Json -> Option<Employee>): Result<Employee, Error>
  {
    var source := Get(hit, "_source");
    if source.Some? && decode(source.value).None? then Err(Deserialization)
    else
      var curId := Get(hit, "_id");
      if curId.None? then Err(NullNode("_id"))
      else if source.None? then Err(NullNode("_source"))
      else Ok(WithId(decode(source.value).value, AsText(curId.value)))
  }

  /** A decoded hit is the decoded `_source` with its id, and only its id, replaced
      by the text of the hit's `_id`. */
  lemma HitIdOverridesSource(hit: Json, decode: Json -> Option<Employee>)
    requires DecodeHit(hit, decode).Ok?
    ensures Get(hit, "_id").Some? && Get(hit, "_source").Some?
    ensures decode(Get(hit, "_source").value).Some?
    ensures var e := DecodeHit(hit, decode).value;
            var stored := decode(Get(hit, "_source").value).value;
            e.id == Some(AsText(Get(hit, "_id").value)) && e.(id := stored.id) == stored
  {
  }

  /** The hit decoder as a value, for CollectAll. */
  function HitDecoder(decode: Json -> Option<Employee>): Json -> Result<Employee, Error>
  {
    hit => DecodeHit(hit, decode)
  }

  /** The loop shape of parseEmployees: each element turned into an employee in
      order, the first failure ending the walk. */
  function CollectAll<A>(xs: seq<A>, f: A -> Result<Employee, Error>): Result<seq<Employee>, Error>
  {
    if xs == [] then Ok([])
    else
      match CollectAll(xs[..|xs| - 1], f)
      case Err(e) => Err(e)
      case Ok(prefix) =>
        match f(xs[|xs| - 1])
        case Err(e) => Err(e)
        case Ok(employee) => Ok(prefix + [employee])
  }

  /** The hits in order, stopping at the first hit that fails. */
  function DecodeHits(hits: seq<Json>, decode: Json -> Option<Employee>): Result<seq<Employee>, Error>
  {
    CollectAll(hits, HitDecoder(decode))
  }

  /** Collecting succeeds exactly when every element succeeds. */
  lemma {:induction false} CollectAllOkIff<A>(xs: seq<A>, f: A -> Result<Employee, Error>)
    ensures CollectAll(xs, f).Ok? <==> forall i :: 0 <= i < |xs| ==> f(xs[i]).Ok?
  {
    if xs != [] {
      var n := |xs| - 1;
      var prefix := xs[..n];
      CollectAllOkIff(prefix, f);
      assert forall i :: 0 <= i < n ==> prefix[i] == xs[i];
    }
  }

  /** A successful collection has one result per element, in element order. */
  lemma {:induction false} CollectAllPointwise<A>(xs: seq<A>, f: A -> Result<Employee, Error>)
    requires CollectAll(xs, f).Ok?
    ensures |CollectAll(xs, f).value| == |xs|
    ensures forall i :: 0 <= i < |xs| ==> f(xs[i]).Ok? && CollectAll(xs, f).value[i] == f(xs[i]).value
  {
    if xs != [] {
      var n := |xs| - 1;
      var prefix := xs[..n];
      CollectAllPointwise(prefix, f);
      assert forall i :: 0 <= i < n ==> prefix[i] == xs[i];
    }
  }

  /** A failed collection reports the error of the first element that fails. */
  lemma {:induction false} CollectAllFirstFailure<A>(xs: seq<A>, f: A -> Result<Employee, Error>)
    requires CollectAll(xs, f).Err?
    ensures exists i :: 0 <= i < |xs| && f(xs[i]) == Err(CollectAll(xs, f).error) &&
                        forall j :: 0 <= j < i ==> f(xs[j]).Ok?
  {
    var n := |xs| - 1;
    var prefix := xs[..n];
    var e := CollectAll(xs, f).error;
    if CollectAll(prefix, f).Err? {
      CollectAllFirstFailure(prefix, f);
      var i :| 0 <= i < n && f(prefix[i]) == Err(e) && forall j :: 0 <= j < i ==> f(prefix[j]).Ok?;
      assert prefix[i] == xs[i];
      assert forall j :: 0 <= j < i ==> prefix[j] == xs[j];
    } else {
      CollectAllOkIff(prefix, f);
      assert forall j :: 0 <= j < n ==> prefix[j] == xs[j];
      assert f(xs[n]) == Err(e);
    }
  }

  /** Collecting one more element: a failed prefix stays failed, otherwise the
      element's own result is appended or its error reported. */
  lemma CollectAllStep<A>(xs: seq<A>, k: nat, f: A -> Result<Employee, Error>)
    requires k < |xs|
    ensures CollectAll(xs[..k + 1], f) ==
              if CollectAll(xs[..k], f).Err? then CollectAll(xs[..k], f)
              else if f(xs[k]).Err? then Err(f(xs[k]).error)
              else Ok(CollectAll(xs[..k], f).value + [f(xs[k]).value])
  {
    assert xs[..k + 1][..k] == xs[..k];
  }

  /** Once a prefix fails, the whole collection fails the same way. */
  lemma {:induction false} CollectAllFailureSticks<A>(xs: seq<A>, k: nat, f: A -> Result<Employee, Error>)
    requires k <= |xs|
    requires CollectAll(xs[..k], f).Err?
    ensures CollectAll(xs, f) == CollectAll(xs[..k], f)
    decreases |xs| - k
  {
    if k < |xs| {
      assert xs[..k + 1][..k] == xs[..k];
      CollectAllFailureSticks(xs, k + 1, f);
    } else {
      assert xs[..k] == xs;
    }
  }

  /** Decoding the hits succeeds exactly when every hit decodes; it then yields one
      employee per hit, in hit order, each the decoding of its own hit; otherwise
      it reports the error of the first hit that fails. */
  lemma DecodeHitsInOrder(hits: seq<Json>, decode: Json -> Option<Employee>)
    ensures DecodeHits(hits, decode).Ok? <==> forall i :: 0 <= i < |hits| ==> DecodeHit(hits[i], decode).Ok?
    ensures DecodeHits(hits, decode).Ok? ==>
              |DecodeHits(hits, decode).value| == |hits| &&
              forall i :: 0 <= i < |hits| ==> DecodeHits(hits, decode).value[i] == DecodeHit(hits[i], decode).value
    ensures DecodeHits(hits, decode).Err? ==>
              exists i :: 0 <= i < |hits| && DecodeHit(hits[i], decode) == Err(DecodeHits(hits, decode).error) &&
                          forall j :: 0 <= j < i ==> DecodeHit(hits[j], decode).Ok?
  {
    var f := HitDecoder(decode);
    CollectAllOkIff(hits, f);
    if CollectAll(hits, f).Ok? {
      CollectAllPointwise(hits, f);
    } else {
      CollectAllFirstFailure(hits, f);
    }
  }

  /** The whole search reply: the list at `hits.hits` (a missing level is a null
      dereference), decoded hit by hit. */
  function HitsOf(reply: Json, decode: Json -> Option<Employee>): Result<seq<Employee>, Error>
  {
    var outer := Get(reply, "hits");
    if outer.None? then Err(NullNode("hits"))
    else
      var inner := Get(outer.value, "hits");
      if inner.None? then Err(NullNode("hits.hits"))
      else DecodeHits(Elements(inner.value), decode)
  }

  /** parseEmployees: walks the hits with a loop, appending each decoded employee. */
  method ParseEmployees(reply: Json, decode: Json -> Option<Employee>) returns (r: Result<seq<Employee>, Error>)
    ensures r == HitsOf(reply, decode)
  {
    var outer := Get(reply, "hits");
    if outer.None? {
      return Err(NullNode("hits"));
    }
    var elements := Get(outer.value, "hits");
    if elements.None? {
      return Err(NullNode("hits.hits"));
    }
    var data := Elements(elements.value);
    var employees: seq<Employee> := [];
    var i := 0;
    while i < |data|
      invariant 0 <= i <= |data|
      invariant DecodeHits(data[..i], decode) == Ok(employees)
    {
      var curEmployee := data[i];
      CollectAllStep(data, i, HitDecoder(decode));
      var curId := Get(curEmployee, "_id");
      var source := Get(curEmployee, "_source");
      if source.Some? && decode(source.value).None? {
        CollectAllFailureSticks(data, i + 1, HitDecoder(decode));
        return Err(Deserialization);
      }
      if curId.None? || source.None? {
        CollectAllFailureSticks(data, i + 1, HitDecoder(decode));
        return Err(NullNode(if curId.None? then "_id" else "_source"));
      }
      var employee := decode(source.value).value;
      employee := WithId(employee, AsText(curId.value));
      employees := employees + [employee];
      i := i + 1;
    }
    assert data[..|data|] == data;
    r := Ok(employees);
  }

  // ---------------------------------------------------------------------------
  // Decoding aggregation replies

  /** The text of each named member of a node, later names last. */
  function TextsOf(stats: Json, keys: seq<string>): map<string, Option<string>>
    requires forall k :: k in keys ==> Get(stats, k).Some?
  {
    if keys == [] then map[]
    else
      var last := keys[|keys| - 1];
      TextsOf(stats, keys[..|keys| - 1])[last := Some(AsText(Get(stats, last).value))]
  }

  /** One more name: its text is put over the texts of the names before it. */
  lemma TextsOfStep(stats: Json, keys: seq<string>, i: nat)
    requires i < |keys|
    requires forall k :: k in keys ==> Get(stats, k).Some?
    ensures forall k :: k in keys[..i] ==> Get(stats, k).Some?
    ensures forall k :: k in keys[..i + 1] ==> Get(stats, k).Some?
    ensures TextsOf(stats, keys[..i + 1]) == TextsOf(stats, keys[..i])[keys[i] := Some(AsText(Get(stats, keys[i]).value))]
  {
    assert forall k :: k in keys[..i] ==> k in keys;
    assert forall k :: k in keys[..i + 1] ==> k in keys;
    assert keys[..i + 1][..i] == keys[..i];
  }

  /** The texts map has exactly the given names as keys, each mapped to the text of
      that member. */
  lemma {:induction false} TextsOfShape(stats: Json, keys: seq<string>)
    requires forall k :: k in keys ==> Get(stats, k).Some?
    ensures forall k :: k in TextsOf(stats, keys) <==> k in keys
    ensures forall k :: k in TextsOf(stats, keys) ==> TextsOf(stats, keys)[k] == Some(AsText(Get(stats, k).value))
  {
    if keys != [] {
      var n := |keys| - 1;
      assert forall k :: k in keys <==> k in keys[..n] || k == keys[n];
      TextsOfShape(stats, keys[..n]);
    }
  }

  /** Every member of a node, mapped to its text. */
  function FieldTexts(stats: Json): map<string, Option<string>>
  {
    TextsOf(stats, FieldNames(stats))
  }

  /** The aggregation reply: the node at `aggregations.<name>` (a missing level is
      a null dereference) turned into a MetricDto named after the aggregation. */
  function MetricOf(name: string, reply: Json): Result<MetricDto, Error>
  {
    var aggregations := Get(reply, "aggregations");
    if aggregations.None? then Err(NullNode("aggregations"))
    else
      var stats := Get(aggregations.value, name);
      if stats.None? then Err(NullNode(name))
      else Ok(MetricDto(name, FieldTexts(stats.value)))
  }

  /** The MetricDto carries the requested name as its field, and its data keys are
      exactly the member names of `aggregations.<name>`, each mapped to its text;
      the decoding fails exactly when that node is missing. */
  lemma MetricOfShape(name: string, reply: Json)
    ensures MetricOf(name, reply).Ok? <==>
              Get(reply, "aggregations").Some? && Get(Get(reply, "aggregations").value, name).Some?
    ensures MetricOf(name, reply).Ok? ==>
              var stats := Get(Get(reply, "aggregations").value, name).value;
              var dto := MetricOf(name, reply).value;
              && dto.field == name
              && (forall k :: k in dto.data <==> k in FieldNames(stats))
              && (forall k :: k in dto.data ==> dto.data[k] == Some(AsText(Get(stats, k).value)))
  {
    var aggregations := Get(reply, "aggregations");
    if aggregations.Some? && Get(aggregations.value, name).Some? {
      var stats := Get(aggregations.value, name).value;
      TextsOfShape(stats, FieldNames(stats));
    }
  }

  /** parseMetricDto: a loop over the member names of the aggregation node. */
  method ParseMetricDto(name: string, reply: Json) returns (r: Result<MetricDto, Error>)
    ensures r == MetricOf(name, reply)
  {
    var aggregations := Get(reply, "aggregations");
    if aggregations.None? {
      return Err(NullNode("aggregations"));
    }
    var found := Get(aggregations.value, name);
    if found.None? {
      return Err(NullNode(name));
    }
    var stats := found.value;
    var keys := FieldNames(stats);
    var data: map<string, Option<string>> := map[];
    var i := 0;
    while i < |keys|
      invariant 0 <= i <= |keys|
      invariant forall k :: k in keys[..i] ==> Get(stats, k).Some?
      invariant data == TextsOf(stats, keys[..i])
    {
      var key := keys[i];
      TextsOfStep(stats, keys, i);
      data := data[key := Some(AsText(Get(stats, key).value))];
      i := i + 1;
    }
    assert keys[..|keys|] == keys;
    r := Ok(MetricDto(name, data));
  }

  // ---------------------------------------------------------------------------
  // Decoding a get reply

  /** findById as written: an empty reply is absence; otherwise `_source` is decoded
      and its id set to the requested id. A reply without `_source` yields a null
      from the JSON library, which setId then dereferences. */
  function GetReplyAsWritten(id: string, reply: Json, decode: Json -> Option<Employee>): Result<Option<Employee>, Error>
  {
    if IsEmpty(reply) then Ok(None)
    else
      var source := Get(reply, "_source");
      if source.None? then Err(NullNode("_source"))
      else if decode(source.value).None? then Err(Deserialization)
      else Ok(Some(WithId(decode(source.value).value, id)))
  }

  /** As written, findById is absent exactly for an empty reply, and a present
      employee is the decoded `_source` with its id replaced by the requested id. */
  lemma GetReplyAsWrittenShape(id: string, reply: Json, decode: Json -> Option<Employee>)
    ensures GetReplyAsWritten(id, reply, decode) == Ok(None) <==> IsEmpty(reply)
    ensures GetReplyAsWritten(id, reply, decode).Ok? && GetReplyAsWritten(id, reply, decode).value.Some? ==>
              var e := GetReplyAsWritten(id, reply, decode).value.value;
              var stored := decode(Get(reply, "_source").value).value;
              e.id == Some(id) && e.(id := stored.id) == stored
  {
  }

  /** The body the engine sends for a document it does not hold. */
  function NotFoundReply(id: string): Json
  {
    JObject([("_index", JString("employees")), ("_id", JString(id)), ("found", JBool(false))])
  }

  /** As written, the engine's not-found body is not empty, so findById never
      reports absence for it: it dereferences the missing `_source` instead. */
  lemma NotFoundReplyFailsAsWritten(id: string, decode: Json -> Option<Employee>)
    ensures GetReplyAsWritten(id, NotFoundReply(id), decode) == Err(NullNode("_source"))
  {
  }

  /** findById as evidently intended: absent unless the reply says `found: true`
      and carries a `_source`. */
  function GetReply(id: string, reply: Json, decode: Json -> Option<Employee>): (r: Result<Option<Employee>, Error>)
    ensures r.Err? ==> r.error == Deserialization
    ensures r.Ok? && r.value.Some? <==>
              Get(reply, "found") == Some(JBool(true)) && Get(reply, "_source").Some? &&
              decode(Get(reply, "_source").value).Some?
    ensures r.Ok? && r.value.Some? ==> r.value.value == WithId(decode(Get(reply, "_source").value).value, id)
  {
    if Get(reply, "found") != Some(JBool(true)) then Ok(None)
    else
      var source := Get(reply, "_source");
      if source.None? then Ok(None)
      else if decode(source.value).None? then Err(Deserialization)
      else Ok(Some(WithId(decode(source.value).value, id)))
  }

  /** The corrected decoding reports absence for every not-found reply and for an
      empty one, and agrees with the code as written on every reply that holds a
      found document. */
  lemma GetReplyCorrectsAsWritten(id: string, reply: Json, decode: Json -> Option<Employee>)
    ensures GetReply(id, NotFoundReply(id), decode) == Ok(None)
    ensures IsEmpty(reply) ==> GetReply(id, reply, decode) == GetReplyAsWritten(id, reply, decode) == Ok(None)
    ensures Get(reply, "found") == Some(JBool(true)) && Get(reply, "_source").Some? ==>
              GetReply(id, reply, decode) == GetReplyAsWritten(id, reply, decode)
  {
    var ms := NotFoundReply(id).members;
    assert ms[1..][1..] == [("found", JBool(false))];
    assert Lookup(ms, "found") == Some(JBool(false));
  }

  // ---------------------------------------------------------------------------
  // The service operations

  /** findAll: GET on the search path without a body; the reply's hits in order. */
  method FindAll(reply: Json, decode: Json -> Option<Employee>) returns (request: Request, result: Result<seq<Employee>, Error>)
    ensures request == Request(GET, EmployeesSearch, None)
    ensures result == HitsOf(reply, decode)
  {
    request := Request(GET, EmployeesSearch, None);
    result := ParseEmployees(reply, decode);
  }

  /** create: POST of the serialised employee to the document path. */
  method Create(id: string, employee: Employee, encode: Employee -> Json) returns (request: Request)
    ensures request.verb == POST && request.path == DocPath(id)
    ensures request.entity == Some(encode(employee))
  {
    request := Request(POST, EmployeesDoc + id, Some(encode(employee)));
  }

  /** findById: GET on the document path, then the reply decoded as written. */
  method FindById(id: string, reply: Json, decode: Json -> Option<Employee>) returns (request: Request, result: Result<Option<Employee>, Error>)
    ensures request == Request(GET, DocPath(id), None)
    ensures result == GetReplyAsWritten(id, reply, decode)
  {
    request := Request(GET, EmployeesDoc + id, None);
    if IsEmpty(reply) {
      return request, Ok(None);
    }
    var source := Get(reply, "_source");
    if source.None? {
      return request, Err(NullNode("_source"));
    }
    var employee := decode(source.value);
    if employee.None? {
      return request, Err(Deserialization);
    }
    var e := WithId(employee.value, id);
    result := Ok(Some(e));
  }

  /** delete: DELETE on the document path without a body. */
  method Delete(id: string) returns (request: Request)
    ensures request.verb == DELETE && request.path == DocPath(id)
    ensures request.entity.None?
  {
    request := Request(DELETE, EmployeesDoc + id, None);
  }

  /** search: GET on the search path with the search body; the reply's hits in order. */
  method Search(field: string, value: string, kind: string, reply: Json, decode: Json -> Option<Employee>)
    returns (request: Request, result: Result<seq<Employee>, Error>)
    ensures request == Request(GET, EmployeesSearch, Some(SearchBodyOf(field, value, kind)))
    ensures result == HitsOf(reply, decode)
  {
    var body := SearchBody(field, value, kind);
    request := Request(GET, EmployeesSearch, Some(body));
    result := ParseEmployees(reply, decode);
  }

  /** aggregate: GET on the search path with the aggregation body; the reply's
      `aggregations.<name>` as a MetricDto. */
  method Aggregate(name: string, field: string, kind: string, reply: Json)
    returns (request: Request, result: Result<MetricDto, Error>)
    ensures request == Request(GET, EmployeesSearch, Some(AggregationBodyOf(name, field, kind)))
    ensures result == MetricOf(name, reply)
  {
    var body := AggregationBody(name, field, kind);
    request := Request(GET, EmployeesSearch, Some(body));
    result := ParseMetricDto(name, reply);
  }
}
