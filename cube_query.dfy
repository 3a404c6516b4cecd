/**
 * Query execution (`run_cube_query`): flat caller parameters become the
 * backend's query object, which is posted as `{"query": ...}`; the rows are
 * the reply's `data` field. Optional parameters follow Python truthiness.
 */
module CubeQuery {
  import opened Wrappers
  import opened Json

  /** The caller's parameters; `None` stands for an argument left at its default `None`. */
  datatype Params = Params(
    measures: seq<string>,
    dimensions: Option<seq<string>>,
    timeDimension: Option<string>,
    dateRange: Option<seq<string>>,
    limit: Option<int>)

  /** Python truthiness of an optional list: present and non-empty. */
  predicate TruthyList<T>(o: Option<seq<T>>)
  {
    o.Some? && o.value != []
  }

  /** Python truthiness of an optional string: present and non-empty. */
  predicate TruthyString(o: Option<string>)
  {
    o.Some? && o.value != ""
  }

  /** Python truthiness of an optional integer: present and non-zero (negative values are truthy). */
  predicate TruthyInt(o: Option<int>)
  {
    o.Some? && o.value != 0
  }

  /** Both halves of the time filter were given: `time_dimension and date_range`. */
  predicate HasTimeRange(p: Params)
  {
    TruthyString(p.timeDimension) && TruthyList(p.dateRange)
  }

  /** The keys the backend query object may carry. */
  const QUERY_KEYS: set<string> := {"measures", "dimensions", "timeDimensions", "limit"}

  /** The single-entry `timeDimensions` list `[{"dimension": ..., "dateRange": ...}]`. */
  function TimeDimensionEntry(dimension: string, dateRange: seq<string>): (entry: Json)
  {
    JArr([JObj(map["dimension" := JStr(dimension), "dateRange" := StringArray(dateRange)])])
  }

  /** The backend query object built from the caller's parameters. */
  function BuildQuery(p: Params): (q: map<string, Json>)
    ensures "measures" in q && q["measures"] == StringArray(p.measures)
    ensures "dimensions" in q && q["dimensions"] == StringArray(p.dimensions.GetOr([]))
    ensures !TruthyList(p.dimensions) ==> q["dimensions"] == JArr([])
    ensures "timeDimensions" in q <==> HasTimeRange(p)
    ensures HasTimeRange(p) ==>
      q["timeDimensions"] == TimeDimensionEntry(p.timeDimension.value, p.dateRange.value)
    ensures "limit" in q <==> TruthyInt(p.limit)
    ensures TruthyInt(p.limit) ==> q["limit"] == JNum(p.limit.value)
    ensures q.Keys <= QUERY_KEYS
  {
    var query := map[
      "measures" := StringArray(p.measures),
      "dimensions" := StringArray(if TruthyList(p.dimensions) then p.dimensions.value else [])];
    var query := if HasTimeRange(p)
      then query["timeDimensions" := TimeDimensionEntry(p.timeDimension.value, p.dateRange.value)]
      else query;
    if TruthyInt(p.limit) then query["limit" := JNum(p.limit.value)] else query
  }

  /**
   * The parameters as the query sees them: every falsy optional argument, and a
   * time dimension or date range given without its partner, replaced by `None`.
   */
  function Normalize(p: Params): (n: Params)
  {
    Params(
      p.measures,
      if TruthyList(p.dimensions) then p.dimensions else None,
      if HasTimeRange(p) then p.timeDimension else None,
      if HasTimeRange(p) then p.dateRange else None,
      if TruthyInt(p.limit) then p.limit else None)
  }

  /** Reads a `timeDimensions` value back as its dimension and date range. */
  function ReadTimeDimension(j: Json): (r: Option<(string, seq<string>)>)
  {
    if j.JArr? && |j.items| == 1 && j.items[0].JObj? then
      var f := j.items[0].fields;
      if "dimension" in f && f["dimension"].JStr? && "dateRange" in f then
        match AsStrings(f["dateRange"])
        case Some(range) => Some((f["dimension"].s, range))
        case None => None
      else None
    else None
  }

  /** Reads a query object back as the parameters it carries; `None` if it is malformed. */
  function ReadQuery(q: map<string, Json>): (r: Option<Params>)
  {
    if "measures" !in q || "dimensions" !in q then None
    else
      match (AsStrings(q["measures"]), AsStrings(q["dimensions"]))
      case (Some(ms), Some(ds)) =>
        var td := if "timeDimensions" in q then ReadTimeDimension(q["timeDimensions"]) else None;
        if "timeDimensions" in q && td.None? then None
        else if "limit" in q && !q["limit"].JNum? then None
        else Some(Params(
          ms,
          if ds == [] then None else Some(ds),
          if td.Some? then Some(td.value.0) else None,
          if td.Some? then Some(td.value.1) else None,
          if "limit" in q then Some(q["limit"].n) else None))
      case _ => None
  }

  /** Reading the query object back gives exactly the parameters it keeps, `Normalize(p)`. */
  lemma QueryRoundTrip(p: Params)
    ensures ReadQuery(BuildQuery(p)) == Some(Normalize(p))
  {
    StringArrayRoundTrip(p.measures);
    StringArrayRoundTrip(p.dimensions.GetOr([]));
    if HasTimeRange(p) {
      StringArrayRoundTrip(p.dateRange.value);
    }
  }

  /** Dropping the arguments the query ignores does not change it. */
  lemma BuildQueryNormalized(p: Params)
    ensures BuildQuery(Normalize(p)) == BuildQuery(p)
  {
  }

  /**
   * Two calls build the same query if and only if they agree on measures, on
   * truthy `dimensions`, on the time pair when both halves are truthy, and on a
   * non-zero `limit`.
   */
  lemma SameQueryIff(p1: Params, p2: Params)
    ensures BuildQuery(p1) == BuildQuery(p2) <==> Normalize(p1) == Normalize(p2)
  {
    if BuildQuery(p1) == BuildQuery(p2) {
      QueryRoundTrip(p1);
      QueryRoundTrip(p2);
    }
    if Normalize(p1) == Normalize(p2) {
      BuildQueryNormalized(p1);
      BuildQueryNormalized(p2);
    }
  }

  /** The request body posted to the backend: `{"query": <built query>}`. */
  function RequestBody(p: Params): (body: Json)
    ensures body.JObj? && body.fields.Keys == {"query"}
    ensures body.fields["query"] == JObj(BuildQuery(p))
    ensures body.fields["query"].JObj? && ReadQuery(body.fields["query"].fields) == Some(Normalize(p))
  {
    QueryRoundTrip(p);
    JObj(map["query" := JObj(BuildQuery(p))])
  }

  /**
   * `run_cube_query` against a backend given as a function from request body
   * to reply object: the reply's `data` value, or an empty list without one.
   */
  function RunCubeQuery(p: Params, backend: Json -> map<string, Json>): (rows: Json)
    ensures var reply := backend(RequestBody(p));
      ("data" in reply ==> rows == reply["data"]) && ("data" !in reply ==> rows == JArr([]))
  {
    var result := backend(RequestBody(p));
    if "data" in result then result["data"] else JArr([])
  }

  /** Calls with the same normalized parameters send the same request and return the same rows. */
  lemma RunCubeQueryNormalized(p1: Params, p2: Params, backend: Json -> map<string, Json>)
    requires Normalize(p1) == Normalize(p2)
    ensures RequestBody(p1) == RequestBody(p2)
    ensures RunCubeQuery(p1, backend) == RunCubeQuery(p2, backend)
  {
  }

  /** A full time filter and no limit: one `timeDimensions` entry, no `limit` key. */
  lemma ExampleFullTimeRange()
    ensures BuildQuery(Params(["m1"], None, Some("created_at"), Some(["2020-01-01", "2020-01-31"]), None))
      == map[
        "measures" := JArr([JStr("m1")]),
        "dimensions" := JArr([]),
        "timeDimensions" := JArr([JObj(map[
          "dimension" := JStr("created_at"),
          "dateRange" := JArr([JStr("2020-01-01"), JStr("2020-01-31")])])])]
  {
    var p := Params(["m1"], None, Some("created_at"), Some(["2020-01-01", "2020-01-31"]), None);
    var q := BuildQuery(p);
    assert StringArray(["m1"]) == JArr([JStr("m1")]);
    assert StringArray(["2020-01-01", "2020-01-31"]) == JArr([JStr("2020-01-01"), JStr("2020-01-31")]);
    assert q.Keys == {"measures", "dimensions", "timeDimensions"};
  }

  /** A time dimension without a date range, and a zero limit, add nothing and raise nothing. */
  lemma ExamplePartialPairAndZeroLimit()
    ensures BuildQuery(Params(["m1"], None, Some("created_at"), None, Some(0))).Keys
      == {"measures", "dimensions"}
  {
  }
}
