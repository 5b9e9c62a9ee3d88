/** The query API (services/api/index.js): `GET /records` lists curated records a page at
    a time, `GET /records/{id}` returns one, `GET /analytics` aggregates the whole table,
    and the handler strips the stage prefix from the path and routes. DynamoDB is a
    `Table` of pure functions from request to outcome. */
module Api {
  import opened Outcomes
  import opened Text
  import opened Domain
  import opened Cursor
  import opened Analytics

  // ---------------------------------------------------------------------------
  // Responses (`response(statusCode, body)`)
  // ---------------------------------------------------------------------------

  /** The headers every response carries. */
  const CorsHeaders: seq<(string, string)> := [
    ("Content-Type", "application/json"),
    ("Access-Control-Allow-Origin", "*"),
    ("Access-Control-Allow-Headers", "Content-Type,X-Api-Key"),
    ("Access-Control-Allow-Methods", "GET,OPTIONS")
  ]

  /** The JSON bodies the API sends; `None` fields are `undefined` and left out, except
      `lastKey`, where `None` is `null`. */
  datatype Body =
    | EmptyObject
    | Failure(error: string, message: string)
    | RecordNotFound(id: Option<string>)
    | RouteNotFound(path: string, requestMethod: Option<string>, originalPath: Option<string>)
    | QueryPage(records: seq<Record>, count: nat, scannedCount: nat)
    | ScanPage(records: seq<Record>, count: nat, lastKey: Option<string>)
    | Item(record: Record)
    | AnalyticsPage(report: Report)

  datatype Response = Response(statusCode: int, headers: seq<(string, string)>, body: Body)

  function Respond(statusCode: int, body: Body): Response {
    Response(statusCode, CorsHeaders, body)
  }

  // ---------------------------------------------------------------------------
  // The table
  // ---------------------------------------------------------------------------

  /** The request object handed to `query` and `scan`; `None` is a field never set. */
  datatype Params = Params(
    tableName: string,
    limit: Option<int>,
    indexName: Option<string>,
    keyConditionExpression: Option<string>,
    expressionAttributeNames: Option<seq<(string, string)>>,
    expressionAttributeValues: Option<seq<(string, string)>>,
    exclusiveStartKey: Option<Key>)

  /** One page of a query or a scan. */
  datatype Page = Page(items: seq<Record>, count: nat, scannedCount: nat, lastEvaluatedKey: Option<Key>)

  /** The curated table as the API sees it: each call's outcome, `Err` carrying the
      message of the error it throws. */
  datatype Table = Table(
    name: string,                                   // CURATED_TABLE_NAME
    get: Option<string> -> Result<Option<Record>>,
    query: Params -> Result<Page>,
    scan: Params -> Result<Page>)

  // ---------------------------------------------------------------------------
  // Query string parameters
  // ---------------------------------------------------------------------------

  /** `queryParams?.[name]`: `None` for a missing parameter or no parameters at all. */
  function Param(query: Option<map<string, string>>, name: string): Option<string> {
    if query.Some? && name in query.value then Some(query.value[name]) else None
  }

  /** A parameter that is present and not empty (truthy). */
  predicate IsSet(p: Option<string>) {
    p.Some? && p.value != ""
  }

  /** `parseInt(queryParams?.limit) || 20`. */
  function Limit(query: Option<map<string, string>>): int {
    var parsed := match Param(query, "limit")
      case None => None
      case Some(text) => ParseIntPrefix(text);
    if parsed.None? || parsed.value == 0 then 20 else parsed.value
  }

  /** The page size is 20 exactly when the parameter is missing, not a number, or zero. */
  lemma LimitDefault(query: Option<map<string, string>>)
    ensures Limit(query) != 0
    ensures Param(query, "limit").None? ==> Limit(query) == 20
    ensures Param(query, "limit").Some? && ParseIntPrefix(Param(query, "limit").value) in {None, Some(0)} ==>
              Limit(query) == 20
    ensures Param(query, "limit").Some? && ParseIntPrefix(Param(query, "limit").value).Some? &&
            ParseIntPrefix(Param(query, "limit").value).value != 0 ==>
              Limit(query) == ParseIntPrefix(Param(query, "limit").value).value
  {
  }

  /** Any non-zero integer asked for is used as the page size as it is: no upper bound, and
      negative values pass through. */
  lemma LimitUncapped(n: int, query: map<string, string>)
    requires n != 0 && "limit" in query && query["limit"] == IntToDecimal(n)
    ensures Limit(Some(query)) == n
  {
    ParseIntOfDecimal(n);
  }

  // ---------------------------------------------------------------------------
  // GET /records
  // ---------------------------------------------------------------------------

  datatype Request = QueryRequest(params: Params) | ScanRequest(params: Params)

  /** The message of the error a cursor that does not decode to a key raises. */
  const InvalidCursor: string := "Unexpected token in JSON"

  /** The request `listRecords` sends: a query on the source index when `source` is set,
      otherwise a scan, resumed at the decoded `lastKey` when one is given. */
  function PlanList(query: Option<map<string, string>>, tableName: string): Result<Request> {
    var source := Param(query, "source");
    var lastKey := Param(query, "lastKey");
    var limit := Some(Limit(query));
    if IsSet(source) then
      Ok(QueryRequest(Params(tableName, limit, Some("SourceIndex"), Some("#source = :source"),
                             Some([("#source", "source")]), Some([(":source", source.value)]), None)))
    else if !IsSet(lastKey) then
      Ok(ScanRequest(Params(tableName, limit, None, None, None, None, None)))
    else
      match DecodeCursor(lastKey.value)
      case None => Err(InvalidCursor)
      case Some(k) => Ok(ScanRequest(Params(tableName, limit, None, None, None, None, Some(k))))
  }

  function ListFailure(message: string): Response {
    Respond(500, Failure("Failed to list records", message))
  }

  function QueryResponse(outcome: Result<Page>): Response {
    match outcome
    case Err(m) => ListFailure(m)
    case Ok(page) => Respond(200, QueryPage(page.items, page.count, page.scannedCount))
  }

  /** The page of a scan, with the resume key written as a cursor. */
  function ScanResponse(outcome: Result<Page>): (r: Response)
    ensures outcome.Ok? ==>
              (r.statusCode == 200 && r.body.ScanPage? && r.body.records == outcome.value.items &&
               (r.body.lastKey.None? <==> outcome.value.lastEvaluatedKey.None?))
  {
    match outcome
    case Err(m) => ListFailure(m)
    case Ok(page) =>
      var cursor := match page.lastEvaluatedKey
        case None => None
        case Some(k) => Some(EncodeCursor(k));
      Respond(200, ScanPage(page.items, page.count, cursor))
  }

  /** What `listRecords` answers. */
  function ListResponse(query: Option<map<string, string>>, table: Table): Response {
    match PlanList(query, table.name)
    case Err(m) => ListFailure(m)
    case Ok(QueryRequest(params)) => QueryResponse(table.query(params))
    case Ok(ScanRequest(params)) => ScanResponse(table.scan(params))
  }

  /** `listRecords`: the request parameters are filled in one field at a time. */
  method ListRecords(query: Option<map<string, string>>, table: Table) returns (resp: Response)
    ensures resp == ListResponse(query, table)
  {
    var limit := Limit(query);
    var source := Param(query, "source");
    var params := Params(table.name, Some(limit), None, None, None, None, None);
    if IsSet(source) {
      params := params.(indexName := Some("SourceIndex"));
      params := params.(keyConditionExpression := Some("#source = :source"));
      params := params.(expressionAttributeNames := Some([("#source", "source")]));
      params := params.(expressionAttributeValues := Some([(":source", source.value)]));
      resp := QueryResponse(table.query(params));
      return;
    }
    var lastKey := Param(query, "lastKey");
    if IsSet(lastKey) {
      var key := DecodeCursor(lastKey.value);
      if key.None? {
        resp := ListFailure(InvalidCursor);
        return;
      }
      params := params.(exclusiveStartKey := key);
    }
    resp := ScanResponse(table.scan(params));
  }

  /** Every listing request carries the page size, and a source filter always becomes a
      query on `SourceIndex` for that source, whatever cursor is given with it. */
  lemma ListRequestShape(query: Option<map<string, string>>, tableName: string)
    ensures PlanList(query, tableName).Ok? ==>
              PlanList(query, tableName).value.params.limit == Some(Limit(query)) &&
              PlanList(query, tableName).value.params.tableName == tableName
    ensures PlanList(query, tableName).Ok? && PlanList(query, tableName).value.QueryRequest? <==>
              IsSet(Param(query, "source"))
    ensures IsSet(Param(query, "source")) ==>
              PlanList(query, tableName).value.params.indexName == Some("SourceIndex") &&
              PlanList(query, tableName).value.params.expressionAttributeValues ==
                Some([(":source", Param(query, "source").value)]) &&
              PlanList(query, tableName).value.params.exclusiveStartKey.None?
    ensures PlanList(query, tableName).Err? <==>
              !IsSet(Param(query, "source")) && IsSet(Param(query, "lastKey")) &&
              DecodeCursor(Param(query, "lastKey").value).None?
  {
  }

  /** The cursor a scan page hands out resumes the next scan exactly after that page. */
  lemma NextPageResumes(page: Page, table: Table, query: map<string, string>)
    requires page.lastEvaluatedKey.Some?
    requires ScanResponse(Ok(page)).body.lastKey.Some?
    requires "lastKey" in query && query["lastKey"] == ScanResponse(Ok(page)).body.lastKey.value
    requires !IsSet(Param(Some(query), "source"))
    ensures PlanList(Some(query), table.name) ==
              Ok(ScanRequest(Params(table.name, Some(Limit(Some(query))), None, None, None, None,
                                    page.lastEvaluatedKey)))
  {
    var k := page.lastEvaluatedKey.value;
    CursorRoundTrip(k);
    CursorNonEmpty(k);
    assert query["lastKey"] == EncodeCursor(k);
  }

  // ---------------------------------------------------------------------------
  // GET /records/{id} and GET /analytics
  // ---------------------------------------------------------------------------

  /** `getRecord(id)`: 404 when the table has no item with that id, the item when it has. */
  function GetRecord(id: Option<string>, table: Table): (r: Response)
    ensures r.statusCode == 404 <==> table.get(id) == Ok(None)
    ensures r.statusCode == 404 ==> r.body == RecordNotFound(id)
    ensures r.statusCode == 200 <==> table.get(id).Ok? && table.get(id).value.Some?
    ensures r.statusCode == 200 ==> r.body == Item(table.get(id).value.value)
    ensures r.statusCode == 500 <==> table.get(id).Err?
  {
    match table.get(id)
    case Err(m) => Respond(500, Failure("Failed to get record", m))
    case Ok(None) => Respond(404, RecordNotFound(id))
    case Ok(Some(item)) => Respond(200, Item(item))
  }

  /** `getAnalytics()`: one scan of the whole table, aggregated, or a 500 carrying the
      scan's error message. */
  function GetAnalytics(table: Table): (r: Response)
    ensures r.statusCode == 200 <==> table.scan(ScanAll(table.name)).Ok?
    ensures r.statusCode == 200 ==>
              r.body == AnalyticsPage(Aggregate(table.scan(ScanAll(table.name)).value.items))
    ensures table.scan(ScanAll(table.name)).Err? ==>
              r == Respond(500, Failure("Failed to get analytics", table.scan(ScanAll(table.name)).message))
  {
    match table.scan(ScanAll(table.name))
    case Err(m) => Respond(500, Failure("Failed to get analytics", m))
    case Ok(page) => Respond(200, AnalyticsPage(Aggregate(page.items)))
  }

  function ScanAll(tableName: string): Params {
    Params(tableName, None, None, None, None, None, None)
  }

  // ---------------------------------------------------------------------------
  // Routing
  // ---------------------------------------------------------------------------

  /** The fields of the Lambda event the handler reads; `None` is `undefined`. */
  datatype Event = Event(
    httpMethod: Option<string>,
    path: Option<string>,
    rawPath: Option<string>,
    contextMethod: Option<string>,       // requestContext.http.method
    queryStringParameters: Option<map<string, string>>)

  /** `path.replace(/^\/[^\/]+/, '')`: drops a leading slash and the segment after it. */
  function StripStage(path: string): string {
    if |path| >= 2 && path[0] == '/' && path[1] != '/' then
      path[1 + |BeforeFirst(path[1..], '/')|..]
    else path
  }

  /** What is left is what followed the first segment: nothing, or a slash and more. */
  lemma StripStageShape(path: string)
    ensures var r := StripStage(path);
      (|path| >= 2 && path[0] == '/' && path[1] != '/' ==>
         exists stage :: stage != "" && '/' !in stage && path == "/" + stage + r &&
                         (r == "" || r[0] == '/')) &&
      (!(|path| >= 2 && path[0] == '/' && path[1] != '/') ==> r == path)
  {
    if |path| >= 2 && path[0] == '/' && path[1] != '/' {
      var stage := BeforeFirst(path[1..], '/');
      assert path == "/" + stage + path[1 + |stage|..];
    }
  }

  /** The stripped segment is the first one, whatever it is. */
  lemma StripStageOf(stage: string, rest: string)
    requires stage != "" && '/' !in stage && (rest == "" || rest[0] == '/')
    ensures StripStage("/" + stage + rest) == rest
  {
    var path := "/" + stage + rest;
    assert path[1..] == stage + rest;
    BeforeFirstOf(stage, '/', rest);
    assert path[1 + |stage|..] == rest;
  }

  /** `event.rawPath || event.path || ''`. */
  function RequestPath(event: Event): string {
    if IsSet(event.rawPath) then event.rawPath.value
    else if IsSet(event.path) then event.path.value
    else ""
  }

  /** `event.httpMethod || event.requestContext?.http?.method`. */
  function RequestMethod(event: Event): Option<string> {
    if IsSet(event.httpMethod) then event.httpMethod else event.contextMethod
  }

  /** The path routed on: the request path with its first segment stripped, `/` if nothing is
      left. */
  function RoutedPath(event: Event): string {
    var p := StripStage(RequestPath(event));
    if p == "" then "/" else p
  }

  /** `path.split('/').filter(p => p)`. */
  function Segments(path: string): seq<string>
    decreases |path|
  {
    if path == [] then []
    else if path[0] == '/' then Segments(path[1..])
    else
      var segment := BeforeFirst(path, '/');
      [segment] + Segments(path[|segment|..])
  }

  /** The second non-empty segment, `None` when there is none. */
  function SecondSegment(path: string): Option<string> {
    var segments := Segments(path);
    if |segments| >= 2 then Some(segments[1]) else None
  }

  datatype Route = ListRoute | GetRoute(id: Option<string>) | AnalyticsRoute | NoRoute

  function RouteOf(verb: Option<string>, path: string): Route {
    if verb == Some("GET") && path == "/records" then ListRoute
    else if verb == Some("GET") && "/records/" <= path then GetRoute(SecondSegment(path))
    else if verb == Some("GET") && path == "/analytics" then AnalyticsRoute
    else NoRoute
  }

  /** What the handler answers. */
  function HandlerResponse(event: Event, table: Table): Response {
    if event.httpMethod == Some("OPTIONS") then Respond(200, EmptyObject)
    else RouteResponse(RouteOf(RequestMethod(event), RoutedPath(event)), event, table)
  }

  /** The answer of the handler once the route is known. */
  function RouteResponse(route: Route, event: Event, table: Table): Response {
    match route
    case ListRoute => ListResponse(event.queryStringParameters, table)
    case GetRoute(id) => GetRecord(id, table)
    case AnalyticsRoute => GetAnalytics(table)
    case NoRoute => Respond(404, RouteNotFound(RoutedPath(event), RequestMethod(event), event.path))
  }

  /** The first statements of `exports.handler`: the path, reassigned with its first segment
      stripped, and the method. */
  method ReadRequest(event: Event) returns (path: string, verb: Option<string>)
    ensures path == RoutedPath(event) && verb == RequestMethod(event)
  {
    path := if IsSet(event.rawPath) then event.rawPath.value
            else if IsSet(event.path) then event.path.value
            else "";
    verb := if IsSet(event.httpMethod) then event.httpMethod else event.contextMethod;
    path := StripStage(path);
    if path == "" {
      path := "/";
    }
  }

  /** `exports.handler`: dispatches with early returns. */
  method Handle(event: Event, table: Table) returns (resp: Response)
    ensures resp == HandlerResponse(event, table)
  {
    if event.httpMethod == Some("OPTIONS") {
      return Respond(200, EmptyObject);
    }
    var path, verb := ReadRequest(event);
    ghost var route := RouteOf(verb, path);
    assert HandlerResponse(event, table) == RouteResponse(route, event, table);
    if verb == Some("GET") && path == "/records" {
      assert route == ListRoute;
      resp := ListRecords(event.queryStringParameters, table);
      return;
    }
    if verb == Some("GET") && "/records/" <= path {
      var id := SecondSegment(path);
      assert route == GetRoute(id);
      return GetRecord(id, table);
    }
    if verb == Some("GET") && path == "/analytics" {
      assert route == AnalyticsRoute;
      return GetAnalytics(table);
    }
    assert route == NoRoute;
    return Respond(404, RouteNotFound(path, verb, event.path));
  }

  // ---------------------------------------------------------------------------
  // What the routing promises
  // ---------------------------------------------------------------------------

  /** Every answer carries the CORS headers and is a 200, a 404 or a 500. */
  lemma HandlerAnswers(event: Event, table: Table)
    ensures HandlerResponse(event, table).headers == CorsHeaders
    ensures HandlerResponse(event, table).statusCode in {200, 404, 500}
  {
    if event.httpMethod != Some("OPTIONS") {
      match RouteOf(RequestMethod(event), RoutedPath(event))
      case ListRoute => ListAnswers(event.queryStringParameters, table);
      case GetRoute(id) =>
      case AnalyticsRoute =>
      case NoRoute =>
    }
  }

  lemma ListAnswers(query: Option<map<string, string>>, table: Table)
    ensures ListResponse(query, table).headers == CorsHeaders
    ensures ListResponse(query, table).statusCode in {200, 500}
  {
  }

  /** A preflight request is answered with 200 and `{}` whatever its path. */
  lemma OptionsAlwaysOk(event: Event, table: Table)
    requires event.httpMethod == Some("OPTIONS")
    ensures HandlerResponse(event, table) == Respond(200, EmptyObject)
  {
  }

  /** A bare `/records`, with no stage in front, loses `records` as if it were the stage
      and is not found, whether it comes as `rawPath` or as `path`. */
  lemma BareRecordsNotFound(event: Event, table: Table)
    requires event.httpMethod != Some("OPTIONS") && RequestMethod(event) == Some("GET")
    requires RequestPath(event) == "/records"
    ensures HandlerResponse(event, table) == Respond(404, RouteNotFound("/", Some("GET"), event.path))
  {
    assert "/records" == "/" + "records" + "";
    RoutedPathOf(event, "records", "");
    RootNotRouted();
    GetRouted(event, table, "/");
  }

  /** The path routed on for a request path `/{stage}{rest}`. */
  lemma RoutedPathOf(event: Event, stage: string, rest: string)
    requires stage != "" && '/' !in stage && (rest == "" || rest[0] == '/')
    requires RequestPath(event) == "/" + stage + rest
    ensures RoutedPath(event) == if rest == "" then "/" else rest
  {
    StripStageOf(stage, rest);
  }

  /** A `GET` is answered by the route of its routed path. */
  lemma GetRouted(event: Event, table: Table, path: string)
    requires event.httpMethod != Some("OPTIONS") && RequestMethod(event) == Some("GET") && RoutedPath(event) == path
    ensures HandlerResponse(event, table) == RouteResponse(RouteOf(Some("GET"), path), event, table)
  {
  }

  lemma RootNotRouted()
    ensures RouteOf(Some("GET"), "/") == NoRoute
  {
    assert !("/records/" <= "/") by {
      assert |"/"| < |"/records/"|;
    }
  }

  lemma AnalyticsRouted()
    ensures RouteOf(Some("GET"), "/analytics") == AnalyticsRoute
  {
    assert !("/records/" <= "/analytics") by {
      assert "/analytics"[1] != "/records/"[1];
    }
  }

  /** `/{stage}/records` lists records. */
  lemma StagedListing(event: Event, table: Table, stage: string)
    requires stage != "" && '/' !in stage
    requires event.httpMethod != Some("OPTIONS") && RequestMethod(event) == Some("GET")
    requires RequestPath(event) == "/" + stage + "/records"
    ensures HandlerResponse(event, table) == ListResponse(event.queryStringParameters, table)
  {
    RoutedPathOf(event, stage, "/records");
    GetRouted(event, table, "/records");
  }

  /** `/{stage}/analytics` aggregates. */
  lemma StagedAnalytics(event: Event, table: Table, stage: string)
    requires stage != "" && '/' !in stage
    requires event.httpMethod != Some("OPTIONS") && RequestMethod(event) == Some("GET")
    requires RequestPath(event) == "/" + stage + "/analytics"
    ensures HandlerResponse(event, table) == GetAnalytics(table)
  {
    RoutedPathOf(event, stage, "/analytics");
    AnalyticsRouted();
    GetRouted(event, table, "/analytics");
  }

  /** `/{stage}/records/{id}` and anything below it fetch the record `id`. */
  lemma StagedRecord(event: Event, table: Table, stage: string, id: string, tail: string)
    requires stage != "" && '/' !in stage && id != "" && '/' !in id && (tail == "" || tail[0] == '/')
    requires event.httpMethod != Some("OPTIONS") && RequestMethod(event) == Some("GET")
    requires RequestPath(event) == "/" + stage + "/records/" + id + tail
    ensures HandlerResponse(event, table) == GetRecord(Some(id), table)
  {
    var rest := "/records/" + id + tail;
    assert "/" + stage + "/records/" + id + tail == "/" + stage + rest;
    RoutedPathOf(event, stage, rest);
    assert rest != "/records" by { assert |rest| > |"/records"|; }
    assert "/records/" <= rest;
    SegmentsOfRecordPath(id, tail);
    GetRouted(event, table, rest);
  }

  lemma SegmentsAfterSlash(s: string)
    ensures Segments("/" + s) == Segments(s)
  {
    assert ("/" + s)[1..] == s;
  }

  lemma SegmentsOfWord(w: string, rest: string)
    requires w != "" && '/' !in w && (rest == "" || rest[0] == '/')
    ensures Segments(w + rest) == [w] + Segments(rest)
  {
    BeforeFirstOf(w, '/', rest);
    assert (w + rest)[0] == w[0];
    assert (w + rest)[|w|..] == rest;
  }

  lemma SegmentsOfRecordPath(id: string, tail: string)
    requires id != "" && '/' !in id && (tail == "" || tail[0] == '/')
    ensures SecondSegment("/records/" + id + tail) == Some(id)
  {
    assert "/records/" + id + tail == "/" + ("records" + ("/" + (id + tail)));
    SegmentsAfterSlash("records" + ("/" + (id + tail)));
    SegmentsOfWord("records", "/" + (id + tail));
    SegmentsAfterSlash(id + tail);
    SegmentsOfWord(id, tail);
  }

  lemma SegmentsOfRecordsSlash()
    ensures SecondSegment("/records/") == None
  {
    assert "/records/" == "/" + ("records" + "/");
    SegmentsAfterSlash("records" + "/");
    SegmentsOfWord("records", "/");
    SegmentsAfterSlash("");
  }

  /** `/{stage}/records/` with no id fetches the record `undefined`. */
  lemma StagedRecordWithoutId(event: Event, table: Table, stage: string)
    requires stage != "" && '/' !in stage
    requires event.httpMethod != Some("OPTIONS") && RequestMethod(event) == Some("GET")
    requires RequestPath(event) == "/" + stage + "/records/"
    ensures HandlerResponse(event, table) == GetRecord(None, table)
  {
    RoutedPathOf(event, stage, "/records/");
    SegmentsOfRecordsSlash();
    GetRouted(event, table, "/records/");
    assert RouteOf(Some("GET"), "/records/") == GetRoute(None) by {
      assert |"/records/"| != |"/records"|;
      assert "/records/" <= "/records/";
    }
  }

  /** Only GET is routed: any other method (OPTIONS aside) is not found. */
  lemma OnlyGetRouted(event: Event, table: Table)
    requires event.httpMethod != Some("OPTIONS") && RequestMethod(event) != Some("GET")
    ensures HandlerResponse(event, table).statusCode == 404
    ensures HandlerResponse(event, table).body.RouteNotFound?
  {
  }
}
