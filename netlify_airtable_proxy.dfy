/** The Netlify function netlify/functions/airtable-proxy.js: `Plan` is the
    decision procedure as a function of the method, the environment and the parsed
    body; `Handler` is the handler itself, step by step, proved to follow it. */
module NetlifyAirtableProxy {
  import opened Js
  import opened Uri
  import opened Http
  import opened AirtableProxy

  /** The headers of the 200 exit after a successful Airtable call. */
  const SuccessHeaders: Headers :=
    map[ContentType := "application/json", AllowOrigin := "*", AllowHeaders := "Content-Type"]

  /** The query parameters of `list`, in the order they are pushed: the filter
      first, then the sort. */
  function ListParams(filter: JsValue, sort: JsValue): seq<string> {
    (if Truthy(filter) then [FilterParam(filter)] else [])
    + (if Truthy(sort) then [SortParam(sort)] else [])
  }

  /** The `list` URL: `?` and the `&`-joined parameters only when there are any. */
  function ListUrl(baseUrl: string, filter: JsValue, sort: JsValue): (url: string)
    ensures baseUrl <= url
    ensures url == baseUrl <==> !Truthy(filter) && !Truthy(sort)
  {
    var params := ListParams(filter, sort);
    if |params| > 0 then baseUrl + "?" + Join(params, "&") else baseUrl
  }

  /** The whole decision procedure of one invocation: OPTIONS is answered
      first, and only a configured POST with a readable body reaches Airtable,
      with the credentials' headers and at a URL under its base. */
  function Plan(httpMethod: string, env: Env, body: JsonText): (p: AirtableProxy.Plan)
    ensures httpMethod == "OPTIONS" ==> p == Reply(PreflightResponse)
    ensures p.Forward? ==>
      && httpMethod == "POST" && Configured(env) && Destructure(body).Success?
      && p.request.init.headers == AuthHeaders(env.apiKey.value)
      && ApiRoot + env.baseId.value + "/" <= p.request.url
  {
    if httpMethod == "OPTIONS" then Reply(PreflightResponse)
    else if httpMethod != "POST" then Reply(MethodNotAllowedResponse)
    else if !Configured(env) then Reply(ConfigErrorResponse)
    else match Destructure(body)
      case Failure(e) => Reply(ThrownResponse(e))
      case Success(req) =>
        var baseUrl := BaseUrl(env.baseId.value, req.table);
        Dispatch(env.apiKey.value, baseUrl, req, ListUrl(baseUrl, req.filter, req.sort))
  }

  /** `exports.handler`: `fetch` stands for the network; `sent` lists the requests
      made to Airtable. */
  method Handler(event: Event, env: Env, fetch: Outbound -> Upstream)
    returns (response: Response, sent: seq<Outbound>)
    ensures sent == Sent(Plan(event.httpMethod, env, event.body))
    ensures response == Run(Plan(event.httpMethod, env, event.body), fetch, SuccessHeaders)
  {
    ghost var plan := Plan(event.httpMethod, env, event.body);
    sent := [];
    if event.httpMethod == "OPTIONS" {
      response := Response(200, map[AllowOrigin := "*", AllowHeaders := "Content-Type",
                                    AllowMethods := "POST, OPTIONS"], NoBody);
      return;
    }
    if event.httpMethod != "POST" {
      response := Response(405, map[AllowOrigin := "*"], ErrorBody(Str(MethodNotAllowedMessage)));
      return;
    }
    if !IsSet(env.baseId) || !IsSet(env.apiKey) {
      response := ErrorResponse(500, ConfigErrorMessage);
      return;
    }
    var baseId, apiKey := env.baseId.value, env.apiKey.value;

    // try {
    var fields := Destructure(event.body);
    if fields.Failure? {
      response := ThrownResponse(fields.error);
      return;
    }
    var req := fields.value;
    assert Destructure(event.body) == Success(req);
    var tableName := EncodeUriComponent(ToString(req.table));
    var baseUrl := ApiRoot + baseId + "/" + tableName;
    assert baseUrl == BaseUrl(baseId, req.table);
    response, sent := Act(req, apiKey, baseUrl, fetch);
    // } catch (error) { … }: every throwing step above returns ThrownResponse
  }

  /** The handler's `switch (action)` and the call to Airtable it leads to. */
  method Act(req: RequestFields, apiKey: string, baseUrl: string, fetch: Outbound -> Upstream)
    returns (response: Response, sent: seq<Outbound>)
    ensures sent == Sent(Dispatch(apiKey, baseUrl, req, ListUrl(baseUrl, req.filter, req.sort)))
    ensures response == Run(Dispatch(apiKey, baseUrl, req, ListUrl(baseUrl, req.filter, req.sort)), fetch, SuccessHeaders)
  {
    ghost var plan := Dispatch(apiKey, baseUrl, req, ListUrl(baseUrl, req.filter, req.sort));
    sent := [];
    var url: string;
    var options := RequestInit(None, AuthHeaders(apiKey), None);

    if req.action == Str("list") {
      url := baseUrl;
      var queryParams: seq<string> := [];
      if Truthy(req.filter) {
        queryParams := queryParams + [FilterParam(req.filter)];
      }
      if Truthy(req.sort) {
        queryParams := queryParams + [SortParam(req.sort)];
      }
      if |queryParams| > 0 {
        url := url + "?" + Join(queryParams, "&");
      }
      options := options.(httpMethod := Some("GET"));
      assert queryParams == ListParams(req.filter, req.sort);
    } else if req.action == Str("get") {
      if !Truthy(req.recordId) {
        response := ErrorResponse(400, RecordIdRequiredMessage);
        return;
      }
      url := baseUrl + "/" + ToString(req.recordId);
      options := options.(httpMethod := Some("GET"));
    } else if req.action == Str("create") {
      if !Truthy(req.data) || !Truthy(Get(req.data, "fields")) {
        response := ErrorResponse(400, FieldsRequiredMessage);
        return;
      }
      url := baseUrl;
      options := options.(httpMethod := Some("POST"), body := Some(req.data));
    } else {
      response := ErrorResponse(400, InvalidActionMessage);
      return;
    }

    var request := Outbound(url, options);
    assert plan == Forward(request);
    sent := [request];
    var upstream := fetch(request);
    response := Answer(upstream);
  }

  /** The handler's steps once `fetch` has settled: Airtable's answer, or the
      failure to get one, as the function's response. */
  method Answer(upstream: Upstream) returns (response: Response)
    ensures response == Complete(upstream, SuccessHeaders)
  {
    if upstream.Unreachable? {
      response := ThrownResponse(Raised(upstream.message));
      return;
    }
    if upstream.json.Malformed? {
      response := ThrownResponse(Raised(upstream.json.message));
      return;
    }
    var responseData := upstream.json.value;
    if !IsOk(upstream.status) {
      if Nullish(responseData) {
        response := ThrownResponse(NullAccess("error"));
        return;
      }
      response := Response(upstream.status, map[],
                           ErrorBody(UpstreamErrorMessage(Get(responseData, "error"))));
      return;
    }
    response := Response(200, map[ContentType := "application/json", AllowOrigin := "*",
                                  AllowHeaders := "Content-Type"], Payload(responseData));
  }

  // ---------------------------------------------------------------------------
  // Properties of the decision procedure

  /** OPTIONS answers 200 with an empty body and the three CORS headers, before
      the credentials or the body are looked at. */
  lemma OptionsIsPreflight(env: Env, body: JsonText)
    ensures Plan("OPTIONS", env, body) == Reply(Response(200, PreflightHeaders, NoBody))
    ensures PreflightHeaders[AllowOrigin] == "*" && PreflightHeaders[AllowMethods] == "POST, OPTIONS"
  {
  }

  /** Any method other than POST and OPTIONS gets 405 and nothing is forwarded;
      only POST ever reaches Airtable. */
  lemma OnlyPostIsForwarded(httpMethod: string, env: Env, body: JsonText)
    ensures httpMethod != "POST" && httpMethod != "OPTIONS" ==>
      Plan(httpMethod, env, body) == Reply(Response(405, map[AllowOrigin := "*"],
                                                    ErrorBody(Str("Method not allowed"))))
    ensures Plan(httpMethod, env, body).Forward? ==> httpMethod == "POST"
  {
  }

  /** Missing credentials give 500 with the fixed message whatever the body:
      the check comes before the body is parsed. */
  lemma MissingCredentials(env: Env, body: JsonText)
    requires !Configured(env)
    ensures Plan("POST", env, body) ==
      Reply(Response(500, map[], ErrorBody(Str("Server configuration error: Missing Airtable credentials"))))
  {
  }

  /** A body that does not parse, or parses to null, gives 500 with the
      exception; nothing is forwarded. */
  lemma UnreadableBody(env: Env, body: JsonText)
    requires Configured(env)
    requires body.Malformed? || Nullish(body.value)
    ensures Plan("POST", env, body) ==
      Reply(Response(500, map[], Thrown(if body.Malformed? then Raised(body.message) else NullAccess("action"))))
  {
  }

  /** `list` forwards a GET to the table's URL, the table name encoded, with the
      query `ListUrl` builds from `filter` and `sort`. */
  lemma ListRequest(env: Env, v: JsValue)
    requires Configured(env) && !Nullish(v) && Get(v, "action") == Str("list")
    ensures Plan("POST", env, Parsed(v)) ==
      Forward(Outbound(ListUrl(BaseUrl(env.baseId.value, Get(v, "table")), Get(v, "filter"), Get(v, "sort")),
                       RequestInit(Some("GET"), AuthHeaders(env.apiKey.value), None)))
  {
  }

  /** `get` without a truthy `recordId` answers 400 and forwards nothing;
      otherwise it forwards a GET to the table's URL, `/` and the record id as
      given, not encoded. */
  lemma GetRequest(env: Env, v: JsValue)
    requires Configured(env) && !Nullish(v) && Get(v, "action") == Str("get")
    ensures var recordId := Get(v, "recordId");
      && (!Truthy(recordId) ==>
            Plan("POST", env, Parsed(v)) == Reply(Response(400, map[], ErrorBody(Str("recordId required for get action")))))
      && (Truthy(recordId) ==>
            Plan("POST", env, Parsed(v)) ==
              Forward(Outbound(BaseUrl(env.baseId.value, Get(v, "table")) + "/" + ToString(recordId),
                               RequestInit(Some("GET"), AuthHeaders(env.apiKey.value), None))))
  {
  }

  /** `create` without a truthy `data.fields` answers 400 and forwards nothing;
      otherwise it forwards a POST whose body is the whole `data` object. */
  lemma CreateRequest(env: Env, v: JsValue)
    requires Configured(env) && !Nullish(v) && Get(v, "action") == Str("create")
    ensures var data := Get(v, "data");
      && (!Truthy(data) || !Truthy(Get(data, "fields")) ==>
            Plan("POST", env, Parsed(v)) == Reply(Response(400, map[], ErrorBody(Str("data.fields required for create action")))))
      && (Truthy(data) && Truthy(Get(data, "fields")) ==>
            Plan("POST", env, Parsed(v)) ==
              Forward(Outbound(BaseUrl(env.baseId.value, Get(v, "table")),
                               RequestInit(Some("POST"), AuthHeaders(env.apiKey.value), Some(data)))))
  {
  }

  /** Any other action answers 400 with the list of valid actions. */
  lemma UnknownAction(env: Env, v: JsValue)
    requires Configured(env) && !Nullish(v)
    requires Get(v, "action") !in {Str("list"), Str("get"), Str("create")}
    ensures Plan("POST", env, Parsed(v)) ==
      Reply(Response(400, map[], ErrorBody(Str("Invalid action. Use: list, get, or create"))))
  {
  }

  /** CORS headers sit on three exits only: the preflight, the 405 and the 200
      after a successful Airtable call; every other exit has no headers. */
  lemma CorsExits(httpMethod: string, env: Env, body: JsonText, fetch: Outbound -> Upstream)
    ensures var r := Run(Plan(httpMethod, env, body), fetch, SuccessHeaders);
      || r.headers == map[]
      || r == PreflightResponse
      || r == MethodNotAllowedResponse
      || (r.status == 200 && r.headers == SuccessHeaders && r.body.Payload?)
  {
    var p := Plan(httpMethod, env, body);
    if p.Forward? {
      CompleteHeaders(fetch(p.request), SuccessHeaders);
    }
  }
}
