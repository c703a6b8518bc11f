/** The typed-client adapter (DefaultEmployeeService): it hands typed query and
    aggregation values to the engine's client library and reads the typed values
    that library gives back. Each operation takes the library's typed reply and
    yields the request it sends together with what it returns to its caller. */
module TypedAdapter {
  import opened Wrappers
  import opened Dto

  const Employees: string := "employees"

  /** The two query kinds the adapter asks for. */
  datatype Query = Term(field: string, value: string) | Match(field: string, query: string)

  /** The metric aggregations the adapter asks for. */
  datatype Metric = Min | Max | Sum | Avg | Stats

  function MetricName(m: Metric): string
  {
    match m
    case Min => "min"
    case Max => "max"
    case Sum => "sum"
    case Avg => "avg"
    case Stats => "stats"
  }

  /** One metric aggregation over a field. */
  datatype Aggregation = Aggregation(metric: Metric, field: string)

  /** The requests the adapter hands to the client library. */
  datatype Request =
    | SearchRequest(index: string, query: Option<Query>, aggregations: map<string, Aggregation>)
    | GetRequest(index: string, id: string)
    | CreateRequest(index: string, id: string, document: Employee)
    | DeleteRequest(index: string, id: string)

  /** One search hit: the engine's id and the stored document, which may be null. */
  datatype Hit = Hit(id: string, source: Option<Employee>)

  /** The reply to a get: whether the document was found, its id and its source. */
  datatype GetResponse = GetResponse(found: bool, id: string, source: Option<Employee>)

  /** The variant of a single-value aggregate the client library reports. */
  datatype ValueKind = MinValue | MaxValue | SumValue | AvgValue | SimpleValue

  /** One aggregate of a reply, as the client library's tagged variants give it:
      numbers are kept as their text. */
  datatype AggregateVariant =
    | StatsAggregate(min: string, max: string, avg: string, sum: string)
    | SingleValueAggregate(kind: ValueKind, value: string, valueAsString: Option<string>)
    | OtherAggregate(kindName: string)

  /** The variant the client library reports for the answer to a metric. */
  function AnswerKind(m: Metric): ValueKind
    requires m != Stats
  {
    match m
    case Min => MinValue
    case Max => MaxValue
    case Sum => SumValue
    case Avg => AvgValue
  }

  /** The reply the engine gives for one aggregation registered under `name`. */
  predicate Answers(reply: seq<(string, AggregateVariant)>, name: string, a: Aggregation)
  {
    |reply| == 1 && reply[0].0 == name &&
    if a.metric == Stats then reply[0].1.StatsAggregate?
    else reply[0].1.SingleValueAggregate? && reply[0].1.kind == AnswerKind(a.metric)
  }

  // ---------------------------------------------------------------------------
  // Requests

  /** The query of a search: a term query exactly for the type "term"; every other
      type, unknown strings included, is a match query; both on the given field
      and value. */
  function QueryFor(field: string, value: string, kind: string): (q: Query)
    ensures q.Term? <==> kind == "term"
    ensures q == Term(field, value) || q == Match(field, value)
  {
    if kind == "term" then Term(field, value) else Match(field, value)
  }

  /** The aggregation of an aggregate call: the named metric for "min", "max",
      "sum" and "avg", stats for every other type; always over the given field. */
  function AggregationFor(field: string, kind: string): (a: Aggregation)
    ensures a.field == field
    ensures a.metric != Stats <==> kind in {"min", "max", "sum", "avg"}
    ensures a.metric != Stats ==> MetricName(a.metric) == kind
  {
    var metric :=
      if kind == "min" then Min
      else if kind == "max" then Max
      else if kind == "sum" then Sum
      else if kind == "avg" then Avg
      else Stats;
    Aggregation(metric, field)
  }

  // ---------------------------------------------------------------------------
  // Decoding replies

  /** findById's reading of a get reply: the source, with the reply's id, when the
      document was found and has a source; absent otherwise. */
  function FoundEmployee(response: GetResponse): (r: Option<Employee>)
    ensures r.Some? <==> response.found && response.source.Some?
    ensures r.Some? ==> r.value.id == Some(response.id) && r.value.(id := response.source.value.id) == response.source.value
  {
    if response.found && response.source.Some? then Some(WithId(response.source.value, response.id)) else None
  }

  /** One hit as parseEmployees keeps it: a null source stays null; otherwise the
      source with its id, and only its id, replaced by the hit's id. */
  function HitEmployee(hit: Hit): (r: Option<Employee>)
    ensures r.None? <==> hit.source.None?
    ensures r.Some? ==> r.value.id == Some(hit.id) && r.value.(id := hit.source.value.id) == hit.source.value
  {
    match hit.source
    case None => None
    case Some(e) => Some(WithId(e, hit.id))
  }

  /** parseEmployees: one entry per hit, in hit order, null placeholders kept. */
  method ParseEmployees(hits: seq<Hit>) returns (employees: seq<Option<Employee>>)
    ensures |employees| == |hits|
    ensures forall i :: 0 <= i < |hits| ==> employees[i] == HitEmployee(hits[i])
  {
    employees := [];
    for i := 0 to |hits|
      invariant |employees| == i
      invariant forall j :: 0 <= j < i ==> employees[j] == HitEmployee(hits[j])
    {
      var curEmployee := hits[i].source;
      if curEmployee.Some? {
        curEmployee := Some(WithId(curEmployee.value, hits[i].id));
      }
      employees := employees + [curEmployee];
    }
  }

  /** A MetricDto's data: metric label to text, None where Java stores null. */
  type Data = map<string, Option<string>>

  /** One aggregate of the reply put into the data as parseMetricDto is written: a
      stats aggregate puts its four values under fixed labels; any other aggregate
      is read through the simple-value accessor, which only the simple-value
      variant passes, and its value-as-string (possibly null) goes under the
      aggregate's own key. */
  function ContributeAsWritten(data: Data, key: string, agg: AggregateVariant): Result<Data, Error>
  {
    match agg
    case StatsAggregate(mn, mx, av, sm) =>
      Ok(data["min" := Some(mn)]["max" := Some(mx)]["avg" := Some(av)]["sum" := Some(sm)])
    case SingleValueAggregate(kind, _, valueAsString) =>
      if kind == SimpleValue then Ok(data[key := valueAsString]) else Err(WrongVariant(KindName(kind)))
    case OtherAggregate(kindName) => Err(WrongVariant(kindName))
  }

  /** The variant names the client library uses. */
  function KindName(kind: ValueKind): string
  {
    match kind
    case MinValue => "min"
    case MaxValue => "max"
    case SumValue => "sum"
    case AvgValue => "avg"
    case SimpleValue => "simple_value"
  }

  /** One aggregate put into the data as evidently intended: the four stats values
      under fixed labels, or the value-as-string (possibly null) of any
      single-value aggregate under the aggregate's own key, the entry the code
      already makes for the simple-value variant. */
  function Contribute(data: Data, key: string, agg: AggregateVariant): Result<Data, Error>
  {
    match agg
    case StatsAggregate(mn, mx, av, sm) =>
      Ok(data["min" := Some(mn)]["max" := Some(mx)]["avg" := Some(av)]["sum" := Some(sm)])
    case SingleValueAggregate(_, _, valueAsString) => Ok(data[key := valueAsString])
    case OtherAggregate(kindName) => Err(WrongVariant(kindName))
  }

  /** The forEach over the aggregates, in iteration order, each one putting its
      entries into the data; an exception ends the walk. */
  function FoldAggregates(entries: seq<(string, AggregateVariant)>, step: (Data, string, AggregateVariant) -> Result<Data, Error>): Result<Data, Error>
  {
    if entries == [] then Ok(map[])
    else
      match FoldAggregates(entries[..|entries| - 1], step)
      case Err(e) => Err(e)
      case Ok(data) => step(data, entries[|entries| - 1].0, entries[|entries| - 1].1)
  }

  /** The MetricDto named after the caller's aggregation name. */
  function MetricFrom(name: string, data: Result<Data, Error>): (r: Result<MetricDto, Error>)
    ensures r.Ok? <==> data.Ok?
    ensures r.Ok? ==> r.value.field == name && r.value.data == data.value
    ensures r.Err? ==> r.error == data.error
  {
    match data
    case Ok(m) => Ok(MetricDto(name, m))
    case Err(e) => Err(e)
  }

  /** parseMetricDto as written: a loop over the reply's aggregates. */
  method ParseMetricDto(name: string, entries: seq<(string, AggregateVariant)>) returns (r: Result<MetricDto, Error>)
    ensures r == MetricFrom(name, FoldAggregates(entries, ContributeAsWritten))
  {
    var data: Data := map[];
    for i := 0 to |entries|
      invariant FoldAggregates(entries[..i], ContributeAsWritten) == Ok(data)
    {
      var key, value := entries[i].0, entries[i].1;
      assert entries[..i + 1][..i] == entries[..i];
      if value.StatsAggregate? {
        data := data["min" := Some(value.min)];
        data := data["max" := Some(value.max)];
        data := data["avg" := Some(value.avg)];
        data := data["sum" := Some(value.sum)];
      } else if value.SingleValueAggregate? && value.kind == SimpleValue {
        data := data[key := value.valueAsString];
      } else {
        var failure := ContributeAsWritten(data, key, value).error;
        FoldFailureSticks(entries, i + 1, ContributeAsWritten);
        return Err(failure);
      }
    }
    assert entries[..|entries|] == entries;
    r := Ok(MetricDto(name, data));
  }

  /** Once a prefix of the aggregates fails, the whole walk fails the same way. */
  lemma {:induction false} FoldFailureSticks(entries: seq<(string, AggregateVariant)>, k: nat, step: (Data, string, AggregateVariant) -> Result<Data, Error>)
    requires k <= |entries|
    requires FoldAggregates(entries[..k], step).Err?
    ensures FoldAggregates(entries, step) == FoldAggregates(entries[..k], step)
    decreases |entries| - k
  {
    if k < |entries| {
      assert entries[..k + 1][..k] == entries[..k];
      FoldFailureSticks(entries, k + 1, step);
    } else {
      assert entries[..k] == entries;
    }
  }

  /** The labels one aggregate contributes: the four stats labels, or its own key. */
  function Labels(key: string, agg: AggregateVariant): set<string>
  {
    if agg.StatsAggregate? then {"min", "max", "avg", "sum"} else {key}
  }

  /** A stats reply gives exactly the keys min, max, avg and sum, holding the four
      stats values, both as written and corrected; the field is the caller's name,
      never the reply's key. */
  lemma StatsReply(name: string, key: string, mn: string, mx: string, av: string, sm: string)
    ensures var reply := [(key, StatsAggregate(mn, mx, av, sm))];
            var expected := MetricDto(name, map["min" := Some(mn), "max" := Some(mx), "avg" := Some(av), "sum" := Some(sm)]);
            && MetricFrom(name, FoldAggregates(reply, ContributeAsWritten)) == Ok(expected)
            && MetricFrom(name, FoldAggregates(reply, Contribute)) == Ok(expected)
            && expected.data.Keys == {"min", "max", "avg", "sum"}
  {
    var reply := [(key, StatsAggregate(mn, mx, av, sm))];
    assert reply[..0] == [];
  }

  /** As written, a single-value aggregate other than the simple-value variant
      (the variant a min, max, sum or avg aggregation comes back as) makes
      parseMetricDto fail. */
  lemma SingleValueReplyFailsAsWritten(name: string, key: string, kind: ValueKind, value: string, valueAsString: Option<string>)
    requires kind != SimpleValue
    ensures MetricFrom(name, FoldAggregates([(key, SingleValueAggregate(kind, value, valueAsString))], ContributeAsWritten))
            == Err(WrongVariant(KindName(kind)))
  {
    var reply := [(key, SingleValueAggregate(kind, value, valueAsString))];
    assert reply[..0] == [];
  }

  /** Corrected, any single-value aggregate gives exactly one entry, keyed by the
      aggregate's own key and holding its value-as-string, as the simple-value
      variant does in the code as written. */
  lemma SingleValueReply(name: string, key: string, kind: ValueKind, value: string, valueAsString: Option<string>)
    ensures MetricFrom(name, FoldAggregates([(key, SingleValueAggregate(kind, value, valueAsString))], Contribute))
            == Ok(MetricDto(name, map[key := valueAsString]))
  {
    var reply := [(key, SingleValueAggregate(kind, value, valueAsString))];
    assert reply[..0] == [];
  }

  /** Corrected, the walk succeeds exactly when no aggregate is of a kind without
      a single value, and the data then has exactly the labels the aggregates
      contribute. */
  lemma {:induction false} FoldShape(entries: seq<(string, AggregateVariant)>)
    ensures FoldAggregates(entries, Contribute).Ok? <==> forall i :: 0 <= i < |entries| ==> !entries[i].1.OtherAggregate?
    ensures FoldAggregates(entries, Contribute).Ok? ==>
              FoldAggregates(entries, Contribute).value.Keys ==
              set i, k | 0 <= i < |entries| && k in Labels(entries[i].0, entries[i].1) :: k
  {
    if entries != [] {
      var n := |entries| - 1;
      var prefix := entries[..n];
      FoldShape(prefix);
      assert forall i :: 0 <= i < n ==> prefix[i] == entries[i];
      if FoldAggregates(entries, Contribute).Ok? {
        var before := set i, k | 0 <= i < n && k in Labels(entries[i].0, entries[i].1) :: k;
        var after := set i, k | 0 <= i < |entries| && k in Labels(entries[i].0, entries[i].1) :: k;
        assert after == before + Labels(entries[n].0, entries[n].1);
      }
    }
  }

  /** The correction changes nothing for replies the code as written handles: stats,
      simple-value and unknown aggregates in any mix. */
  lemma {:induction false} CorrectionKeepsOtherReplies(entries: seq<(string, AggregateVariant)>)
    requires forall i :: 0 <= i < |entries| ==> !(entries[i].1.SingleValueAggregate? && entries[i].1.kind != SimpleValue)
    ensures FoldAggregates(entries, ContributeAsWritten) == FoldAggregates(entries, Contribute)
  {
    if entries != [] {
      var n := |entries| - 1;
      var prefix := entries[..n];
      assert forall i :: 0 <= i < n ==> prefix[i] == entries[i];
      CorrectionKeepsOtherReplies(prefix);
    }
  }

  /** The aggregates parseMetricDto as written reads without throwing. */
  predicate HandledAsWritten(agg: AggregateVariant)
  {
    agg.StatsAggregate? || (agg.SingleValueAggregate? && agg.kind == SimpleValue)
  }

  /** As written, the walk succeeds exactly when every aggregate is a stats or a
      simple-value aggregate, and the data then has exactly the labels they
      contribute. */
  lemma {:induction false} AsWrittenShape(entries: seq<(string, AggregateVariant)>)
    ensures FoldAggregates(entries, ContributeAsWritten).Ok? <==> forall i :: 0 <= i < |entries| ==> HandledAsWritten(entries[i].1)
    ensures FoldAggregates(entries, ContributeAsWritten).Ok? ==>
              FoldAggregates(entries, ContributeAsWritten).value.Keys ==
              set i, k | 0 <= i < |entries| && k in Labels(entries[i].0, entries[i].1) :: k
  {
    if entries != [] {
      var n := |entries| - 1;
      var prefix := entries[..n];
      AsWrittenShape(prefix);
      assert forall i :: 0 <= i < n ==> prefix[i] == entries[i];
    }
    if forall i :: 0 <= i < |entries| ==> HandledAsWritten(entries[i].1) {
      CorrectionKeepsOtherReplies(entries);
      FoldShape(entries);
    }
  }

  /** For the engine's reply to aggregate(name, field, type): as written the call
      fails for min, max, sum and avg; corrected it yields a MetricDto named
      `name` whose data holds exactly the key `name` for those four types and
      exactly min, max, avg and sum for every other type. */
  lemma AggregateOutcome(name: string, field: string, kind: string, reply: seq<(string, AggregateVariant)>)
    requires Answers(reply, name, AggregationFor(field, kind))
    ensures kind in {"min", "max", "sum", "avg"} ==>
              MetricFrom(name, FoldAggregates(reply, ContributeAsWritten)) == Err(WrongVariant(kind))
    ensures var r := MetricFrom(name, FoldAggregates(reply, Contribute));
            && r.Ok? && r.value.field == name
            && r.value.data.Keys == if kind in {"min", "max", "sum", "avg"} then {name} else {"min", "max", "avg", "sum"}
  {
    var a := AggregationFor(field, kind);
    var agg := reply[0].1;
    assert reply == [(name, agg)];
    match agg {
      case StatsAggregate(mn, mx, av, sm) =>
        StatsReply(name, name, mn, mx, av, sm);
      case SingleValueAggregate(k, value, valueAsString) =>
        assert KindName(k) == kind by {
          assert k == AnswerKind(a.metric);
          assert MetricName(a.metric) == kind;
        }
        SingleValueReplyFailsAsWritten(name, name, k, value, valueAsString);
        SingleValueReply(name, name, k, value, valueAsString);
    }
  }

  // ---------------------------------------------------------------------------
  // The service operations

  /** findAll: a search of the employees index with no query; the hits in order. */
  method FindAll(hits: seq<Hit>) returns (request: Request, result: seq<Option<Employee>>)
    ensures request == SearchRequest(Employees, None, map[])
    ensures |result| == |hits| && forall i :: 0 <= i < |hits| ==> result[i] == HitEmployee(hits[i])
  {
    request := SearchRequest(Employees, None, map[]);
    result := ParseEmployees(hits);
  }

  /** create: the employee as the document under the given id. */
  method Create(id: string, employee: Employee) returns (request: Request)
    ensures request == CreateRequest(Employees, id, employee)
  {
    request := CreateRequest(Employees, id, employee);
  }

  /** findById: a get of the id; the found source with the reply's id. */
  method FindById(id: string, response: GetResponse) returns (request: Request, result: Option<Employee>)
    ensures request == GetRequest(Employees, id)
    ensures result == FoundEmployee(response)
  {
    request := GetRequest(Employees, id);
    if response.found && response.source.Some? {
      var employee := response.source.value;
      employee := WithId(employee, response.id);
      return request, Some(employee);
    }
    result := None;
  }

  /** delete: the document under the given id. */
  method Delete(id: string) returns (request: Request)
    ensures request == DeleteRequest(Employees, id)
  {
    request := DeleteRequest(Employees, id);
  }

  /** search: a search of the employees index with the chosen query; the hits in order. */
  method Search(field: string, value: string, kind: string, hits: seq<Hit>) returns (request: Request, result: seq<Option<Employee>>)
    ensures request == SearchRequest(Employees, Some(QueryFor(field, value, kind)), map[])
    ensures |result| == |hits| && forall i :: 0 <= i < |hits| ==> result[i] == HitEmployee(hits[i])
  {
    var query := QueryFor(field, value, kind);
    request := SearchRequest(Employees, Some(query), map[]);
    result := ParseEmployees(hits);
  }

  /** aggregate: a search of the employees index with one aggregation registered
      under the caller's name; the reply's aggregates as a MetricDto. */
  method Aggregate(name: string, field: string, kind: string, reply: seq<(string, AggregateVariant)>)
    returns (request: Request, result: Result<MetricDto, Error>)
    ensures request == SearchRequest(Employees, None, map[name := AggregationFor(field, kind)])
    ensures result == MetricFrom(name, FoldAggregates(reply, ContributeAsWritten))
  {
    var aggregation := AggregationFor(field, kind);
    request := SearchRequest(Employees, None, map[name := aggregation]);
    result := ParseMetricDto(name, reply);
  }
}
