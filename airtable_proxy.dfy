/** What the two Airtable proxy handlers (netlify/functions/airtable-proxy.js and
    api/airtable-proxy.js) have in common: their inputs, the request they send to
    the Airtable REST API, the `get`/`create` branches of their action switch and
    the way they turn Airtable's answer into their own response.

    A handler invocation is a small state machine whose exits are the early
    `return`s of the source. Its pure description is a `Plan`: either it replies
    without contacting Airtable, or it forwards exactly one request and then maps
    the single upstream result with `Complete`. */
module AirtableProxy {
  import opened Js
  import opened Uri
  import opened Http

  const ApiRoot := "https://api.airtable.com/v0/"
  const MethodNotAllowedMessage := "Method not allowed"
  const ConfigErrorMessage := "Server configuration error: Missing Airtable credentials"
  const RecordIdRequiredMessage := "recordId required for get action"
  const FieldsRequiredMessage := "data.fields required for create action"
  const InvalidActionMessage := "Invalid action. Use: list, get, or create"
  const UpstreamErrorFallback := "Airtable API error"

  /** `process.env.AIRTABLE_BASE_ID` and `process.env.AIRTABLE_API_KEY`; `None`
      when the variable is unset. */
  datatype Env = Env(baseId: Option<string>, apiKey: Option<string>)

  /** The inbound request: its method and its body once parsed as JSON. */
  datatype Event = Event(httpMethod: string, body: JsonText)

  /** The properties the handlers destructure from the request body. */
  datatype RequestFields = RequestFields(
    action: JsValue, table: JsValue, data: JsValue,
    recordId: JsValue, sort: JsValue, filter: JsValue)

  /** The `options` object handed to `fetch`. */
  datatype RequestInit = RequestInit(httpMethod: Option<string>, headers: Headers, body: Option<JsValue>)

  /** One call `fetch(url, options)`. */
  datatype Outbound = Outbound(url: string, init: RequestInit)

  /** What that call yields: a rejected promise, or a status and the outcome of
      `response.json()`. */
  datatype Upstream = Unreachable(message: string) | Answered(status: int, json: JsonText)

  datatype Plan = Reply(response: Response) | Forward(request: Outbound)

  /** `!VALUE` is false: the variable is set to a non-empty string. */
  predicate IsSet(v: Option<string>) {
    v.Some? && v.value != ""
  }

  predicate Configured(env: Env) {
    IsSet(env.baseId) && IsSet(env.apiKey)
  }

  const PreflightHeaders: Headers :=
    map[AllowOrigin := "*", AllowHeaders := "Content-Type", AllowMethods := "POST, OPTIONS"]

  const PreflightResponse := Response(200, PreflightHeaders, NoBody)

  const MethodNotAllowedResponse :=
    Response(405, map[AllowOrigin := "*"], ErrorBody(Str(MethodNotAllowedMessage)))

  const ConfigErrorResponse := Response(500, map[], ErrorBody(Str(ConfigErrorMessage)))

  /** A `{ error: message }` exit without headers. */
  function ErrorResponse(status: int, message: string): Response {
    Response(status, map[], ErrorBody(Str(message)))
  }

  /** The exit of the `catch` block: 500 with the exception's message. */
  function ThrownResponse(e: Exception): Response {
    Response(500, map[], Thrown(e))
  }

  /** `const { action, table, data, recordId, sort, filter } = body`: a body that
      did not parse, or that is null, throws. */
  function Destructure(body: JsonText): (r: Result<RequestFields, Exception>)
    ensures r.Failure? <==> body.Malformed? || Nullish(body.value)
  {
    match body
    case Malformed(m) => Failure(Raised(m))
    case Parsed(v) =>
      if Nullish(v) then Failure(NullAccess("action"))
      else Success(RequestFields(Get(v, "action"), Get(v, "table"), Get(v, "data"),
                                 Get(v, "recordId"), Get(v, "sort"), Get(v, "filter")))
  }

  /** The headers of every outbound request. */
  function AuthHeaders(apiKey: string): Headers {
    map["Authorization" := "Bearer " + apiKey, ContentType := "application/json"]
  }

  /** The table's endpoint, with the table name percent-encoded after the base
      id. */
  function BaseUrl(baseId: string, table: JsValue): (url: string)
    ensures ApiRoot + baseId + "/" <= url
  {
    ApiRoot + baseId + "/" + EncodeUriComponent(ToString(table))
  }

  /** The query parameter for `filter`: its value is encoded, so it holds no
      `&`, `=` or `#` and cannot end the parameter early. */
  function FilterParam(filter: JsValue): (param: string)
    ensures var value := EncodeUriComponent(ToString(filter));
      param == "filterByFormula=" + value && InEncodedCharset(value)
  {
    EncodedCharset(ToString(filter));
    "filterByFormula=" + EncodeUriComponent(ToString(filter))
  }

  /** The direction written into the sort parameter: `sort.direction || 'desc'`,
      not encoded. */
  function SortDirection(sort: JsValue): (d: string)
    requires Truthy(sort)
    ensures !Truthy(Get(sort, "direction")) ==> d == "desc"
    ensures Truthy(Get(sort, "direction")) ==> d == ToString(Get(sort, "direction"))
  {
    ToString(Or(Get(sort, "direction"), Str("desc")))
  }

  /** The two query parameters for `sort`: the field, percent-encoded so that it
      holds no `&`, `=` or `#`, then the direction as it is, unencoded. */
  function SortParam(sort: JsValue): (param: string)
    requires Truthy(sort)
    ensures var field := EncodeUriComponent(ToString(Get(sort, "field")));
            var direction := Get(sort, "direction");
      && param == "sort[0][field]=" + field + "&sort[0][direction]="
                  + (if Truthy(direction) then ToString(direction) else "desc")
      && InEncodedCharset(field)
  {
    EncodedCharset(ToString(Get(sort, "field")));
    "sort[0][field]=" + EncodeUriComponent(ToString(Get(sort, "field")))
    + "&sort[0][direction]=" + SortDirection(sort)
  }

  /** The `get` branch: no `recordId` means 400; otherwise the record's URL,
      with `recordId` appended as it is, not encoded. */
  function GetPlan(apiKey: string, baseUrl: string, recordId: JsValue): (p: Plan)
    ensures p.Forward? <==> Truthy(recordId)
    ensures p.Forward? ==>
      && baseUrl + "/" <= p.request.url
      && p.request.init == RequestInit(Some("GET"), AuthHeaders(apiKey), None)
  {
    if !Truthy(recordId) then Reply(ErrorResponse(400, RecordIdRequiredMessage))
    else Forward(Outbound(baseUrl + "/" + ToString(recordId),
                          RequestInit(Some("GET"), AuthHeaders(apiKey), None)))
  }

  /** The `create` branch: `data` and `data.fields` must be truthy; the whole of
      `data` is the body of the POST. */
  function CreatePlan(apiKey: string, baseUrl: string, data: JsValue): (p: Plan)
    ensures p.Forward? <==> Truthy(data) && Truthy(Get(data, "fields"))
    ensures p.Forward? ==> p.request.url == baseUrl && p.request.init.body == Some(data)
  {
    if !Truthy(data) || !Truthy(Get(data, "fields")) then Reply(ErrorResponse(400, FieldsRequiredMessage))
    else Forward(Outbound(baseUrl, RequestInit(Some("POST"), AuthHeaders(apiKey), Some(data))))
  }

  /** The `switch (action)`, given the URL the handler builds for `list`. */
  function Dispatch(apiKey: string, baseUrl: string, req: RequestFields, listUrl: string): (p: Plan)
    ensures p.Reply? ==> p.response.status == 400 && p.response.headers == map[] && p.response.body.ErrorBody?
    ensures p.Forward? ==>
      && (req.action == Str("list") || req.action == Str("get") || req.action == Str("create"))
      && p.request.init.headers == AuthHeaders(apiKey)
  {
    if req.action == Str("list") then
      Forward(Outbound(listUrl, RequestInit(Some("GET"), AuthHeaders(apiKey), None)))
    else if req.action == Str("get") then GetPlan(apiKey, baseUrl, req.recordId)
    else if req.action == Str("create") then CreatePlan(apiKey, baseUrl, req.data)
    else Reply(ErrorResponse(400, InvalidActionMessage))
  }

  /** `responseData.error?.message || 'Airtable API error'` */
  function UpstreamErrorMessage(error: JsValue): (m: JsValue)
    ensures Truthy(m)
  {
    Or(if Nullish(error) then Undefined else Get(error, "message"), Str(UpstreamErrorFallback))
  }

  /** What the handler answers once `fetch` has settled; `successHeaders` are the
      headers each handler puts on its 200 exit. */
  function Complete(u: Upstream, successHeaders: Headers): (r: Response)
    ensures IsOk(r.status) <==> r.body.Payload?
    ensures r.body.Payload? ==> r.status == 200 && r.headers == successHeaders
    ensures r.body.ErrorBody? ==> u.Answered? && r.status == u.status
  {
    match u
    case Unreachable(m) => ThrownResponse(Raised(m))
    case Answered(status, Malformed(m)) => ThrownResponse(Raised(m))
    case Answered(status, Parsed(data)) =>
      if !IsOk(status) then
        if Nullish(data) then ThrownResponse(NullAccess("error"))
        else Response(status, map[], ErrorBody(UpstreamErrorMessage(Get(data, "error"))))
      else Response(200, successHeaders, Payload(data))
  }

  /** The requests a plan sends: none, or exactly one. */
  function Sent(p: Plan): (s: seq<Outbound>)
    ensures |s| <= 1
    ensures s == [] <==> p.Reply?
  {
    if p.Forward? then [p.request] else []
  }

  /** The response of a whole invocation, `fetch` standing for the network. */
  function Run(p: Plan, fetch: Outbound -> Upstream, successHeaders: Headers): Response {
    match p
    case Reply(r) => r
    case Forward(q) => Complete(fetch(q), successHeaders)
  }

  // ---------------------------------------------------------------------------
  // Properties shared by both handlers

  /** The table name cannot leave its path segment: the segment after the base id
      holds no `/`, `?`, `&`, `=` or `#`, and decodes back to the table name. */
  lemma TableSegmentIsEncoded(baseId: string, table: JsValue)
    ensures var segment := BaseUrl(baseId, table)[|ApiRoot + baseId + "/"|..];
      && segment == EncodeUriComponent(ToString(table))
      && (forall i | 0 <= i < |segment| :: segment[i] !in "/?&=#")
      && DecodeUriComponent(segment) == Some(ToString(table))
  {
    var prefix, segment := ApiRoot + baseId + "/", EncodeUriComponent(ToString(table));
    assert BaseUrl(baseId, table) == prefix + segment;
    assert (prefix + segment)[|prefix|..] == segment;
    DecodeEncode(ToString(table));
    EncodedCharset(ToString(table));
    NoDelimiters(segment);
  }

  /** The values the proxies encode into the `list` query read back, on the
      server, as the filter text and the sort field. */
  lemma QueryValuesDecode(filter: JsValue, sort: JsValue)
    requires Truthy(sort)
    ensures FilterParam(filter) == "filterByFormula=" + EncodeUriComponent(ToString(filter))
    ensures DecodeUriComponent(EncodeUriComponent(ToString(filter))) == Some(ToString(filter))
    ensures DecodeUriComponent(EncodeUriComponent(ToString(Get(sort, "field")))) == Some(ToString(Get(sort, "field")))
  {
    DecodeEncode(ToString(filter));
    DecodeEncode(ToString(Get(sort, "field")));
  }

  /** Mapping Airtable's answer: a failed fetch or unreadable JSON gives 500 with
      the exception's message; a non-2xx status with an object passes through
      with Airtable's error message or the fallback, while a non-2xx status with
      a JSON `null` throws on `responseData.error` and gives 500; a 2xx gives 200
      with the payload verbatim. */
  lemma CompleteCases(u: Upstream, successHeaders: Headers)
    ensures u.Unreachable? ==> Complete(u, successHeaders) == Response(500, map[], Thrown(Raised(u.message)))
    ensures u.Answered? && u.json.Malformed? ==>
      Complete(u, successHeaders) == Response(500, map[], Thrown(Raised(u.json.message)))
    ensures u.Answered? && u.json.Parsed? && !IsOk(u.status) && !Nullish(u.json.value) ==>
      var error := Get(u.json.value, "error");
      && Complete(u, successHeaders).status == u.status
      && Complete(u, successHeaders).headers == map[]
      && (!Nullish(error) && Truthy(Get(error, "message")) ==>
            Complete(u, successHeaders).body == ErrorBody(Get(error, "message")))
      && (Nullish(error) || !Truthy(Get(error, "message")) ==>
            Complete(u, successHeaders).body == ErrorBody(Str(UpstreamErrorFallback)))
    ensures u.Answered? && u.json.Parsed? && !IsOk(u.status) && Nullish(u.json.value) ==>
      Complete(u, successHeaders) == Response(500, map[], Thrown(NullAccess("error")))
    ensures u.Answered? && u.json.Parsed? && IsOk(u.status) ==>
      Complete(u, successHeaders) == Response(200, successHeaders, Payload(u.json.value))
  {
  }

  /** Only the 200 exit of `Complete` carries headers. */
  lemma CompleteHeaders(u: Upstream, successHeaders: Headers)
    ensures var r := Complete(u, successHeaders);
      r.headers == map[] || (r.status == 200 && r.headers == successHeaders && r.body.Payload?)
  {
  }
}
