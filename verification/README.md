# Employee search client: a Dafny model of its two service adapters

The system is a thin HTTP service over a search engine that stores "employee"
documents. It has two interchangeable implementations of one `EmployeeService`
contract (find all, find by id, create, delete, search by field, aggregate a
field):

- the **raw adapter** (`EmployeeServiceImpl`) writes request paths and JSON
  bodies by hand and decodes the engine's JSON replies by walking the tree;
- the **typed adapter** (`DefaultEmployeeService`) hands typed query and
  aggregation values to the engine's client library and reads the typed values
  it gets back.

This project models the request encoding and reply decoding of both adapters.
The engine and the transport are opaque. Every service operation takes the
engine's reply as a parameter and returns two things: the request it sends and
the value it returns to its caller. The JSON library's conversion of an
`Employee` is also a parameter: `decode: Json -> Option<Employee>` and
`encode: Employee -> Json`.

Modules:

- `Wrappers`: `Option` (Java null / `Optional`) and `Result` (an exception that
  escapes a call).
- `Json`: the JSON tree (null, bool, number, string, array, object with ordered
  members); the Jackson node operations the raw adapter uses (`get`,
  `elements`, `fieldNames`, `asText`, `isEmpty`); and `ObjectNode`, a class
  whose `Put` and `Set` methods fill an object member by member.
- `Dto`: the `Employee` record (fields of `Employee.java`), `MetricDto`, and
  the `Error` kinds that escape a call.
- `RawAdapter`: paths, body builders written step by step on `ObjectNode`s, the
  `parseEmployees` and `parseMetricDto` loops, `findById`, and the six
  operations.
- `TypedAdapter`: query-kind and aggregation-kind selection, `findById`, the
  `parseEmployees` and `parseMetricDto` loops, and the six operations.
- `Adapters`: lemmas relating the two adapters.

Where the adapters differ, the model follows the code:

- **Search type.** The raw adapter uses the caller's search type verbatim as
  the query key. The typed adapter sends a match query for every type except
  `"term"`. The intended contract says every non-term type is a match query;
  that holds only for the typed adapter. `Adapters.SearchKindsAgreeIff`
  proves the two ask for the same query exactly when the type is `"term"` or
  `"match"`.
- **Aggregation type.** The same happens for aggregation types; see
  `Adapters.AggregationKindsAgreeIff`.
- **Id of a found document.** The raw `findById` sets the id to the requested
  id. The typed one sets it to the id in the engine's reply.
- **Null sources.** The typed `parseEmployees` keeps a hit with a null source
  as a null entry. The raw one fails on it; see `Adapters.HitDecodersAgree`.

## Model

| member | source | states |
|---|---|---|
| `Json.Lookup` | src/main/java/com/epam/task3/search/service/impl/EmployeeServiceImpl.java:152 | a member lookup finds nothing exactly when no member has the name, and what it finds is a member of the object |
| `Json.Upsert` | src/main/java/com/epam/task3/search/service/impl/EmployeeServiceImpl.java:114 | after put/set the name holds the new value |
| `Json.UpsertKeepsOthers` | src/main/java/com/epam/task3/search/service/impl/EmployeeServiceImpl.java:116-118 | put/set leaves every other member's value unchanged |
| `Json.UpsertNames` | src/main/java/com/epam/task3/search/service/impl/EmployeeServiceImpl.java:116-118 | put/set keeps existing names in place and appends a new name at the end |
| `Json.FieldNames` | src/main/java/com/epam/task3/search/service/impl/EmployeeServiceImpl.java:159 | the names walked are exactly the names the object has a member for, and every one of them can be read back |
| `Json.ObjectNode.Put` | src/main/java/com/epam/task3/search/service/impl/EmployeeServiceImpl.java:92 | put adds or replaces a string member and nothing else changes |
| `Json.ObjectNode.Set` | src/main/java/com/epam/task3/search/service/impl/EmployeeServiceImpl.java:95-96 | set adds or replaces a member holding the child object as it stands |
| `Dto.WithId` | src/main/java/com/epam/task3/search/service/impl/EmployeeServiceImpl.java:140 | setId changes the id and no other field |
| `RawAdapter.DocPath` | src/main/java/com/epam/task3/search/service/impl/EmployeeServiceImpl.java:27-28 | a document path is "/employees/_doc/" followed by the id, the id can be read back from it, and it is never the search path |
| `RawAdapter.SearchBody` | src/main/java/com/epam/task3/search/service/impl/EmployeeServiceImpl.java:82-96 | the search body is exactly {query:{term:{field:{value:v}}}} for "term" and {query:{type:{field:v}}} for any other type |
| `RawAdapter.SearchBodyRoundTrip` | src/main/java/com/epam/task3/search/service/impl/EmployeeServiceImpl.java:87-96 | reading the search body back gives the caller's type (verbatim, as the query key), field and value |
| `RawAdapter.ReadSearchBodyExact` | src/main/java/com/epam/task3/search/service/impl/EmployeeServiceImpl.java:87-96 | any body of the search shape is the one built from the clause read from it |
| `RawAdapter.AggregationBody` | src/main/java/com/epam/task3/search/service/impl/EmployeeServiceImpl.java:108-118 | the aggregation body is exactly {aggs:{name:{type:{field:f}}}} |
| `RawAdapter.AggregationBodyRoundTrip` | src/main/java/com/epam/task3/search/service/impl/EmployeeServiceImpl.java:108-118 | the aggregation body has no query clause, and reading it back gives the name, the type verbatim and the field |
| `RawAdapter.ReadAggregationBodyExact` | src/main/java/com/epam/task3/search/service/impl/EmployeeServiceImpl.java:108-118 | any body of the aggregation shape is the one built from the clause read from it |
| `RawAdapter.HitIdOverridesSource` | src/main/java/com/epam/task3/search/service/impl/EmployeeServiceImpl.java:137-140 | a decoded hit is its decoded `_source` with the id, and only the id, replaced by the text of `_id` |
| `RawAdapter.CollectAllOkIff` | src/main/java/com/epam/task3/search/service/impl/EmployeeServiceImpl.java:136-142 | the hit loop completes exactly when every element decodes |
| `RawAdapter.CollectAllPointwise` | src/main/java/com/epam/task3/search/service/impl/EmployeeServiceImpl.java:136-142 | a completed hit loop yields one result per element, in element order |
| `RawAdapter.CollectAllFirstFailure` | src/main/java/com/epam/task3/search/service/impl/EmployeeServiceImpl.java:136-142 | a failed hit loop reports the error of the first element that fails |
| `RawAdapter.CollectAllStep` | src/main/java/com/epam/task3/search/service/impl/EmployeeServiceImpl.java:137-141 | one loop turn: a failure stays a failure, otherwise the element's employee is appended or its error reported |
| `RawAdapter.CollectAllFailureSticks` | src/main/java/com/epam/task3/search/service/impl/EmployeeServiceImpl.java:136-142 | once a prefix fails, the whole loop fails with the same error |
| `RawAdapter.DecodeHitsInOrder` | src/main/java/com/epam/task3/search/service/impl/EmployeeServiceImpl.java:132-144 | parseEmployees succeeds exactly when every hit decodes, and then returns one employee per hit of `hits.hits`, in order; otherwise the first failing hit's error |
| `RawAdapter.ParseEmployees` | src/main/java/com/epam/task3/search/service/impl/EmployeeServiceImpl.java:128-145 | the loop returns the hits of `hits.hits` decoded in order, or a null dereference when either level is missing |
| `RawAdapter.TextsOfStep` | src/main/java/com/epam/task3/search/service/impl/EmployeeServiceImpl.java:161-162 | one loop turn puts the next name's text over the map so far |
| `RawAdapter.TextsOfShape` | src/main/java/com/epam/task3/search/service/impl/EmployeeServiceImpl.java:159-163 | the data keys are exactly the names walked, each mapped to that member's text |
| `RawAdapter.MetricOfShape` | src/main/java/com/epam/task3/search/service/impl/EmployeeServiceImpl.java:152-165 | the MetricDto's field is the requested name; its data keys are exactly the member names of `aggregations.<name>`, each with its text; the call fails exactly when that node is missing |
| `RawAdapter.ParseMetricDto` | src/main/java/com/epam/task3/search/service/impl/EmployeeServiceImpl.java:148-167 | the loop over the field names builds that MetricDto |
| `RawAdapter.GetReplyAsWrittenShape` | src/main/java/com/epam/task3/search/service/impl/EmployeeServiceImpl.java:60-68 | findById is absent exactly for an empty reply; a present employee is the decoded `_source` with its id, and only its id, set to the requested id |
| `RawAdapter.NotFoundReplyFailsAsWritten` | src/main/java/com/epam/task3/search/service/impl/EmployeeServiceImpl.java:61-66 | the engine's not-found reply is not empty, so findById dereferences the missing `_source` instead of reporting absence |
| `RawAdapter.GetReply` | src/main/java/com/epam/task3/search/service/impl/EmployeeServiceImpl.java:60-68 | corrected findById: present exactly when the reply says found and its `_source` decodes, with the requested id; it never fails on a null |
| `RawAdapter.GetReplyCorrectsAsWritten` | src/main/java/com/epam/task3/search/service/impl/EmployeeServiceImpl.java:60-68 | the correction is absent on the not-found reply and on an empty reply, and agrees with the code as written on every reply holding a found document |
| `RawAdapter.FindAll` | src/main/java/com/epam/task3/search/service/impl/EmployeeServiceImpl.java:36-41 | GET "/employees/_search" without a body; the reply's hits in order |
| `RawAdapter.Create` | src/main/java/com/epam/task3/search/service/impl/EmployeeServiceImpl.java:45-50 | POST to "/employees/_doc/" + id carrying the serialised employee |
| `RawAdapter.FindById` | src/main/java/com/epam/task3/search/service/impl/EmployeeServiceImpl.java:54-69 | GET "/employees/_doc/" + id; the reply decoded as written |
| `RawAdapter.Delete` | src/main/java/com/epam/task3/search/service/impl/EmployeeServiceImpl.java:73-76 | DELETE "/employees/_doc/" + id without a body |
| `RawAdapter.Search` | src/main/java/com/epam/task3/search/service/impl/EmployeeServiceImpl.java:80-102 | GET "/employees/_search" with the search body; the reply's hits in order |
| `RawAdapter.Aggregate` | src/main/java/com/epam/task3/search/service/impl/EmployeeServiceImpl.java:106-125 | GET "/employees/_search" with the aggregation body; the reply's `aggregations.<name>` as a MetricDto |
| `TypedAdapter.QueryFor` | src/main/java/com/epam/task3/search/service/impl/DefaultEmployeeService.java:75-78 | a term query exactly when the type is "term"; every other type, unknown strings included, is a match query; both on the caller's field and value |
| `TypedAdapter.AggregationFor` | src/main/java/com/epam/task3/search/service/impl/DefaultEmployeeService.java:90-96 | "min", "max", "sum" and "avg" select that metric and every other type selects stats, always over the caller's field |
| `TypedAdapter.FoundEmployee` | src/main/java/com/epam/task3/search/service/impl/DefaultEmployeeService.java:58-63 | present exactly when the document was found and its source is non-null; the employee is the source with its id, and only its id, set to the reply's id |
| `TypedAdapter.HitEmployee` | src/main/java/com/epam/task3/search/service/impl/DefaultEmployeeService.java:109-113 | a null source stays a null entry; otherwise the source with its id, and only its id, set to the hit's id |
| `TypedAdapter.ParseEmployees` | src/main/java/com/epam/task3/search/service/impl/DefaultEmployeeService.java:106-116 | one entry per hit, same length and order, null placeholders kept in position |
| `TypedAdapter.ParseMetricDto` | src/main/java/com/epam/task3/search/service/impl/DefaultEmployeeService.java:119-139 | the loop over the reply's aggregates builds the MetricDto as written, named after the caller's name |
| `TypedAdapter.MetricFrom` | src/main/java/com/epam/task3/search/service/impl/DefaultEmployeeService.java:120-121 | the MetricDto exists exactly when the walk succeeded; its field is always the caller's name and its data is the walk's map; a failed walk's error escapes unchanged |
| `TypedAdapter.AsWrittenShape` | src/main/java/com/epam/task3/search/service/impl/DefaultEmployeeService.java:123-134 | as written, the walk succeeds exactly when every aggregate is a stats or a simple-value aggregate, and the data keys are then exactly the labels they contribute |
| `TypedAdapter.FoldFailureSticks` | src/main/java/com/epam/task3/search/service/impl/DefaultEmployeeService.java:124-134 | once an aggregate throws, the whole walk fails with that error |
| `TypedAdapter.StatsReply` | src/main/java/com/epam/task3/search/service/impl/DefaultEmployeeService.java:125-130 | a stats aggregate gives exactly the keys min, max, avg and sum with its four values; the field is the caller's name, never the reply's key |
| `TypedAdapter.SingleValueReplyFailsAsWritten` | src/main/java/com/epam/task3/search/service/impl/DefaultEmployeeService.java:131-133 | as written, a single-value aggregate other than the simple-value variant makes parseMetricDto fail |
| `TypedAdapter.SingleValueReply` | src/main/java/com/epam/task3/search/service/impl/DefaultEmployeeService.java:131-133 | corrected, a non-stats single-value aggregate of any variant gives exactly one entry, keyed by the aggregate's own key and holding its value-as-string (possibly null), as the simple-value variant does as written |
| `TypedAdapter.FoldShape` | src/main/java/com/epam/task3/search/service/impl/DefaultEmployeeService.java:123-134 | corrected, the walk succeeds exactly when no aggregate lacks a single value, and the data keys are exactly the labels the aggregates contribute |
| `TypedAdapter.CorrectionKeepsOtherReplies` | src/main/java/com/epam/task3/search/service/impl/DefaultEmployeeService.java:124-134 | the correction changes nothing on any reply the code as written handles: stats, simple-value and unknown aggregates in any mix |
| `TypedAdapter.AggregateOutcome` | src/main/java/com/epam/task3/search/service/impl/DefaultEmployeeService.java:89-102 | on the engine's answer, as written the call fails for min, max, sum and avg; corrected, the data keys are exactly {name} for those types and exactly min, max, avg and sum otherwise |
| `TypedAdapter.FindAll` | src/main/java/com/epam/task3/search/service/impl/DefaultEmployeeService.java:36-39 | a search of the "employees" index with no query and no aggregation; the hits in order |
| `TypedAdapter.Create` | src/main/java/com/epam/task3/search/service/impl/DefaultEmployeeService.java:43-49 | a create of the employee under the id in the "employees" index |
| `TypedAdapter.FindById` | src/main/java/com/epam/task3/search/service/impl/DefaultEmployeeService.java:53-64 | a get of the id in the "employees" index; the found source with the reply's id |
| `TypedAdapter.Delete` | src/main/java/com/epam/task3/search/service/impl/DefaultEmployeeService.java:68-70 | a delete of the id in the "employees" index |
| `TypedAdapter.Search` | src/main/java/com/epam/task3/search/service/impl/DefaultEmployeeService.java:74-85 | a search of the "employees" index with the selected query; the hits in order |
| `TypedAdapter.Aggregate` | src/main/java/com/epam/task3/search/service/impl/DefaultEmployeeService.java:89-103 | a search of the "employees" index with one aggregation registered under the caller's name and no query; the reply decoded as written |
| `Adapters.SearchKindsAgreeIff` | src/main/java/com/epam/task3/search/service/impl/EmployeeServiceImpl.java:95 | both adapters search the same field for the same value, and they ask for the same query kind exactly when the type is "term" or "match" |
| `Adapters.AggregationKindsAgreeIff` | src/main/java/com/epam/task3/search/service/impl/EmployeeServiceImpl.java:116 | both adapters aggregate the same field under the same name, and they ask for the same metric exactly when the type is min, max, sum, avg or stats |
| `Adapters.RenderedHit` | src/main/java/com/epam/task3/search/service/impl/EmployeeServiceImpl.java:137-141 | the raw adapter reads a hit as the typed adapter keeps it, except that a null source fails |
| `Adapters.HitDecodersAgree` | src/main/java/com/epam/task3/search/service/impl/DefaultEmployeeService.java:106-115 | on the same hits the raw adapter succeeds exactly when no source is null, and then yields the typed adapter's employees in the same order |
| `Adapters.RenderedGet` | src/main/java/com/epam/task3/search/service/impl/EmployeeServiceImpl.java:61-65 | a get reply is never empty, and its `found` and `_source` members are read back |
| `Adapters.GetDecodersAgree` | src/main/java/com/epam/task3/search/service/impl/DefaultEmployeeService.java:58-63 | on the same get reply the corrected raw findById equals the typed one; as written, the raw one fails on every reply without a source |

## Left out

- Transport: `RestClient.performRequest`, `EntityUtils.toString` and the typed client's calls are not modelled. The engine's reply is a parameter. A non-2xx status, which the transport raises before any decoding, is not modelled.
- JSON text: `readTree` and `writeValueAsString` of a tree are not modelled. Bodies and replies are trees. An empty reply text, which Jackson reads as a missing node, is not modelled either.
- Employee conversion: `treeToValue` and `writeValueAsString` of an `Employee` are the `decode` and `encode` parameters. A `_source` that is JSON null is left to `decode`.
- Exception kinds: `Error` only approximates Java's exception classes. A hit missing both `_id` and `_source` reports the missing `_id`.
- `Json.ObjectNode.Set`: stores the child's members as they stand. Jackson stores a reference. The two agree here because the source never changes a child after setting it.
- `Dto.WithId`: setId is a record update. When the typed adapter changes the id of the source object held by the client's reply, the reply sees the change too; that sharing is not captured.
- Numbers: a number node keeps its literal text, and `asText` returns that text. Jackson renders some doubles differently, such as `1.0E10`. The stats values (`String.valueOf` of doubles), `rating` (double) and `salary` (BigDecimal) are opaque strings.
- JSON objects: taken to have distinct member names, as every Jackson `ObjectNode` does. On a tree with a repeated name, `Json.Lookup` returns the first value and `Json.FieldNames` lists the name twice.
- `Address` is not part of this model. The `address` field keeps its JSON sub-object.
- `TypedAdapter.Hit`: the hit id is treated as non-null.
- Map ordering: `MetricDto.data` is a Dafny `map`. The typed adapter's aggregates are a sequence in iteration order.
- Engine-side behaviour is not modelled: create-then-find, delete, and duplicate-id overwrite. The typed create uses the engine's create operation, which rejects an existing id; that rejection is not modelled either.
- The HTTP controller (`EmployeeController`: routing, status codes, the not-found exception, the fixed `javaSearch` and default parameters) is not modelled. Neither are `AppConfig` wiring and the `EmployeeService` interface; they only forward calls or wire objects.

## Findings

| source | as written | input that shows it | evidently intended | confidence | as-written member | corrected member |
|---|---|---|---|---|---|---|
| src/main/java/com/epam/task3/search/service/impl/EmployeeServiceImpl.java:61-66 | findById reports absence only for an empty reply; any other reply without `_source` dereferences the null the JSON library returns | findById("7") with the engine's not-found body {"_index":"employees","_id":"7","found":false} | absence whenever the reply does not report `found: true` with a `_source`, as the typed adapter does | medium, not executed (the engine also sends status 404, which the transport raises first; either way absence is never reported) | `RawAdapter.NotFoundReplyFailsAsWritten` | `RawAdapter.GetReply` |
| src/main/java/com/epam/task3/search/service/impl/DefaultEmployeeService.java:131-133 | every non-stats aggregate is read through the simple-value accessor, which rejects the min, max, sum and avg variants | aggregate("m", "salary", "min"), answered with a min aggregate | one entry under the aggregate's key holding its value-as-string, as the simple-value variant already gets; nothing else changes | medium, not executed (rests on the client library returning tagged variants) | `TypedAdapter.SingleValueReplyFailsAsWritten` | `TypedAdapter.SingleValueReply` |
