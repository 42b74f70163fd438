/** The Vercel function api/airtable-proxy.js: the same machine as the Netlify
    proxy, except that it never reads `filter`, and that it writes its answer by
    mutating the platform's response object (`res.setHeader`, `res.status`,
    `res.json`, `res.end`). */
module VercelAirtableProxy {
  import opened Js
  import opened Uri
  import opened Http
  import opened AirtableProxy
  import NetlifyAirtableProxy

  /** The response object the platform hands to the handler. */
  class ServerResponse {
    var statusCode: int
    var headers: Headers
    var body: Body
    var finished: bool

    constructor ()
      ensures statusCode == 200 && headers == map[] && body == NoBody && !finished
    {
      statusCode, headers, body, finished := 200, map[], NoBody, false;
    }

    /** What the client receives once the response is finished. */
    function AsResponse(): Response
      reads this
    {
      Response(statusCode, headers, body)
    }

    /** `res.setHeader(name, value)`: replaces any earlier value of that header. */
    method SetHeader(name: string, value: string)
      requires !finished
      modifies this
      ensures headers == old(headers)[name := value]
      ensures statusCode == old(statusCode) && body == old(body) && !finished
    {
      headers := headers[name := value];
    }

    /** `res.status(code)` */
    method Status(code: int)
      requires !finished
      modifies this
      ensures statusCode == code
      ensures headers == old(headers) && body == old(body) && !finished
    {
      statusCode := code;
    }

    /** `res.json(value)`: sends the body and finishes the response. */
    method Json(value: Body)
      requires !finished
      modifies this
      ensures finished && body == value
      ensures statusCode == old(statusCode) && headers == old(headers)
    {
      body, finished := value, true;
    }

    /** `res.end()`: finishes the response with an empty body. */
    method End()
      requires !finished
      modifies this
      ensures finished && body == NoBody
      ensures statusCode == old(statusCode) && headers == old(headers)
    {
      body, finished := NoBody, true;
    }
  }

  /** The headers set before the 200 exit after a successful Airtable call. */
  const SuccessHeaders: Headers :=
    map[AllowOrigin := "*", AllowMethods := "POST", AllowHeaders := "Content-Type"]

  /** The `list` URL: only a truthy `sort` adds a query. */
  function ListUrl(baseUrl: string, sort: JsValue): (url: string)
    ensures baseUrl <= url
    ensures url == baseUrl <==> !Truthy(sort)
  {
    if Truthy(sort) then baseUrl + "?" + SortParam(sort) else baseUrl
  }

  /** The whole decision procedure of one invocation: OPTIONS is answered
      first, and only a configured POST with a readable body reaches Airtable,
      with the credentials' headers and at a URL under its base. */
  function Plan(httpMethod: string, env: Env, body: JsonText): (p: AirtableProxy.Plan)
    ensures httpMethod == "OPTIONS" ==> p == Reply(PreflightResponse)
    ensures p.Forward? ==>
      && httpMethod == "POST" && Configured(env) && Destructure(body).Success?
      && p.request.init.headers == AuthHeaders(env.apiKey.value)
      && ApiRoot + env.baseId.value + "/" <= p.request.url
  {
    if httpMethod == "OPTIONS" then Reply(PreflightResponse)
    else if httpMethod != "POST" then Reply(MethodNotAllowedResponse)
    else if !Configured(env) then Reply(ConfigErrorResponse)
    else Attempt(env.baseId.value, env.apiKey.value, body)
  }

  /** The `try` block of a configured POST: destructure the body, build the
      table's URL and switch on the action. */
  function Attempt(baseId: string, apiKey: string, body: JsonText): (p: AirtableProxy.Plan)
    ensures p.Forward? ==> Destructure(body).Success? && p.request.init.headers == AuthHeaders(apiKey)
    ensures p.Forward? ==> ApiRoot + baseId + "/" <= p.request.url
  {
    match Destructure(body)
    case Failure(e) => Reply(ThrownResponse(e))
    case Success(req) =>
      var baseUrl := BaseUrl(baseId, req.table);
      Dispatch(apiKey, baseUrl, req, ListUrl(baseUrl, req.sort))
  }

  /** `handler(req, res)`, for a response on which nothing has been written yet;
      `sent` lists the requests made to Airtable. */
  method Handler(req: Event, env: Env, res: ServerResponse, fetch: Outbound -> Upstream)
    returns (sent: seq<Outbound>)
    requires res.headers == map[] && !res.finished
    modifies res
    ensures res.finished
    ensures sent == Sent(Plan(req.httpMethod, env, req.body))
    ensures res.AsResponse() == Run(Plan(req.httpMethod, env, req.body), fetch, SuccessHeaders)
  {
    ghost var plan := Plan(req.httpMethod, env, req.body);
    sent := [];
    if req.httpMethod == "OPTIONS" {
      res.SetHeader(AllowOrigin, "*");
      res.SetHeader(AllowMethods, "POST, OPTIONS");
      res.SetHeader(AllowHeaders, "Content-Type");
      res.Status(200);
      res.End();
      assert res.headers == PreflightHeaders;
      assert plan == Reply(PreflightResponse);
      return;
    }
    if req.httpMethod != "POST" {
      res.SetHeader(AllowOrigin, "*");
      res.Status(405);
      res.Json(ErrorBody(Str(MethodNotAllowedMessage)));
      assert plan == Reply(MethodNotAllowedResponse);
      return;
    }
    if !IsSet(env.baseId) || !IsSet(env.apiKey) {
      res.Status(500);
      res.Json(ErrorBody(Str(ConfigErrorMessage)));
      assert plan == Reply(ConfigErrorResponse);
      return;
    }
    assert plan == Attempt(env.baseId.value, env.apiKey.value, req.body);
    sent := Try(req.body, env.baseId.value, env.apiKey.value, res, fetch);
  }

  /** The handler's `try` block and its `catch`, for a configured POST. */
  method Try(body: JsonText, baseId: string, apiKey: string, res: ServerResponse, fetch: Outbound -> Upstream)
    returns (sent: seq<Outbound>)
    requires res.headers == map[] && !res.finished
    modifies res
    ensures res.finished
    ensures sent == Sent(Attempt(baseId, apiKey, body))
    ensures res.AsResponse() == Run(Attempt(baseId, apiKey, body), fetch, SuccessHeaders)
  {
    ghost var plan := Attempt(baseId, apiKey, body);
    sent := [];
    // try {
    var fields := Destructure(body);
    if fields.Failure? {
      res.Status(500);
      res.Json(Thrown(fields.error));
      assert plan == Reply(ThrownResponse(fields.error));
      return;
    }
    var request := fields.value;
    assert Destructure(body) == Success(request);
    var tableName := EncodeUriComponent(ToString(request.table));
    var baseUrl := ApiRoot + baseId + "/" + tableName;
    assert baseUrl == BaseUrl(baseId, request.table);
    assert plan == Dispatch(apiKey, baseUrl, request, ListUrl(baseUrl, request.sort));
    sent := Act(request, apiKey, baseUrl, res, fetch);
    // } catch (error) { … }: every throwing step above answers 500 with the exception
  }

  /** The handler's `switch (action)` and the call to Airtable it leads to. */
  method Act(request: RequestFields, apiKey: string, baseUrl: string, res: ServerResponse, fetch: Outbound -> Upstream)
    returns (sent: seq<Outbound>)
    requires res.headers == map[] && !res.finished
    modifies res
    ensures res.finished
    ensures sent == Sent(Dispatch(apiKey, baseUrl, request, ListUrl(baseUrl, request.sort)))
    ensures res.AsResponse() == Run(Dispatch(apiKey, baseUrl, request, ListUrl(baseUrl, request.sort)), fetch, SuccessHeaders)
  {
    ghost var plan := Dispatch(apiKey, baseUrl, request, ListUrl(baseUrl, request.sort));
    sent := [];
    var url: string;
    var options := RequestInit(None, AuthHeaders(apiKey), None);

    if request.action == Str("list") {
      url := baseUrl;
      if Truthy(request.sort) {
        url := url + "?" + SortParam(request.sort);
      }
      options := options.(httpMethod := Some("GET"));
    } else if request.action == Str("get") {
      if !Truthy(request.recordId) {
        res.Status(400);
        res.Json(ErrorBody(Str(RecordIdRequiredMessage)));
        return;
      }
      url := baseUrl + "/" + ToString(request.recordId);
      options := options.(httpMethod := Some("GET"));
    } else if request.action == Str("create") {
      if !Truthy(request.data) || !Truthy(Get(request.data, "fields")) {
        res.Status(400);
        res.Json(ErrorBody(Str(FieldsRequiredMessage)));
        return;
      }
      url := baseUrl;
      options := options.(httpMethod := Some("POST"), body := Some(request.data));
    } else {
      res.Status(400);
      res.Json(ErrorBody(Str(InvalidActionMessage)));
      return;
    }

    var outbound := Outbound(url, options);
    assert plan == Forward(outbound);
    sent := [outbound];
    var upstream := fetch(outbound);
    Answer(res, upstream);
  }

  /** The handler's steps once `fetch` has settled: Airtable's answer, or the
      failure to get one, written into `res`. */
  method Answer(res: ServerResponse, upstream: Upstream)
    requires res.headers == map[] && !res.finished
    modifies res
    ensures res.finished
    ensures res.AsResponse() == Complete(upstream, SuccessHeaders)
  {
    if upstream.Unreachable? {
      res.Status(500);
      res.Json(Thrown(Raised(upstream.message)));
      return;
    }
    if upstream.json.Malformed? {
      res.Status(500);
      res.Json(Thrown(Raised(upstream.json.message)));
      return;
    }
    var responseData := upstream.json.value;
    if !IsOk(upstream.status) {
      if Nullish(responseData) {
        res.Status(500);
        res.Json(Thrown(NullAccess("error")));
        return;
      }
      res.Status(upstream.status);
      res.Json(ErrorBody(UpstreamErrorMessage(Get(responseData, "error"))));
      return;
    }
    res.SetHeader(AllowOrigin, "*");
    res.SetHeader(AllowMethods, "POST");
    res.SetHeader(AllowHeaders, "Content-Type");
    res.Status(200);
    res.Json(Payload(responseData));
    assert res.headers == SuccessHeaders;
  }

  // ---------------------------------------------------------------------------
  // Properties, and how this handler differs from the Netlify one

  /** OPTIONS answers 200 with an empty body and the three CORS headers; any
      other method but POST answers 405 with `Access-Control-Allow-Origin: *`;
      missing credentials answer 500 before the body is read. None forwards. */
  lemma EarlyExits(httpMethod: string, env: Env, body: JsonText)
    ensures Plan("OPTIONS", env, body) == Reply(Response(200, PreflightHeaders, NoBody))
    ensures httpMethod != "POST" && httpMethod != "OPTIONS" ==>
      Plan(httpMethod, env, body) ==
        Reply(Response(405, map[AllowOrigin := "*"], ErrorBody(Str("Method not allowed"))))
    ensures !Configured(env) ==>
      Plan("POST", env, body) ==
        Reply(Response(500, map[], ErrorBody(Str("Server configuration error: Missing Airtable credentials"))))
  {
  }

  /** `list` forwards a GET to the table's URL, which gains
      `?sort[0][field]=…&sort[0][direction]=…` only when `sort` is truthy. */
  lemma ListRequest(env: Env, v: JsValue)
    requires Configured(env) && !Nullish(v) && Get(v, "action") == Str("list")
    ensures var baseUrl := BaseUrl(env.baseId.value, Get(v, "table"));
      var sort := Get(v, "sort");
      Plan("POST", env, Parsed(v)) ==
        Forward(Outbound(if Truthy(sort) then baseUrl + "?" + SortParam(sort) else baseUrl,
                         RequestInit(Some("GET"), AuthHeaders(env.apiKey.value), None)))
  {
  }

  /** `get` and `create` validate and forward exactly as in the Netlify proxy:
      400 without a truthy `recordId` or `data.fields`, and otherwise one
      request to the record's URL or a POST of the whole `data`; any other
      action answers 400 with the list of valid actions. */
  lemma GetCreateAndUnknownActions(env: Env, v: JsValue)
    requires Configured(env) && !Nullish(v) && Get(v, "action") != Str("list")
    ensures var baseUrl := BaseUrl(env.baseId.value, Get(v, "table"));
      var recordId, data, action := Get(v, "recordId"), Get(v, "data"), Get(v, "action");
      var plan := Plan("POST", env, Parsed(v));
      && (action == Str("get") && !Truthy(recordId) ==>
            plan == Reply(Response(400, map[], ErrorBody(Str("recordId required for get action")))))
      && (action == Str("get") && Truthy(recordId) ==>
            plan == Forward(Outbound(baseUrl + "/" + ToString(recordId),
                                     RequestInit(Some("GET"), AuthHeaders(env.apiKey.value), None))))
      && (action == Str("create") && (!Truthy(data) || !Truthy(Get(data, "fields"))) ==>
            plan == Reply(Response(400, map[], ErrorBody(Str("data.fields required for create action")))))
      && (action == Str("create") && Truthy(data) && Truthy(Get(data, "fields")) ==>
            plan == Forward(Outbound(baseUrl, RequestInit(Some("POST"), AuthHeaders(env.apiKey.value), Some(data)))))
      && (action != Str("get") && action != Str("create") ==>
            plan == Reply(Response(400, map[], ErrorBody(Str("Invalid action. Use: list, get, or create")))))
  {
    var body := Parsed(v);
    SamePlanAsNetlifyWithoutFilter("POST", env, body);
    var w := WithoutFilter(body).value;
    DestructureWithoutFilter(body);
    assert !Nullish(w) && Get(w, "action") == Get(v, "action") && Get(w, "table") == Get(v, "table");
    assert Get(w, "recordId") == Get(v, "recordId") && Get(w, "data") == Get(v, "data");
    var action := Get(v, "action");
    if action == Str("get") {
      NetlifyAirtableProxy.GetRequest(env, w);
    } else if action == Str("create") {
      NetlifyAirtableProxy.CreateRequest(env, w);
    } else {
      NetlifyAirtableProxy.UnknownAction(env, w);
    }
  }

  /** The request body with any `filter` property removed. */
  function WithoutFilter(body: JsonText): JsonText {
    if body.Parsed? && body.value.Obj? then Parsed(Obj(body.value.props - {"filter"})) else body
  }

  /** Apart from `filter`, the two proxies decide alike: on every input this
      handler replies or forwards exactly as the Netlify one does on the same
      body with `filter` removed. */
  lemma SamePlanAsNetlifyWithoutFilter(httpMethod: string, env: Env, body: JsonText)
    ensures Plan(httpMethod, env, body) == NetlifyAirtableProxy.Plan(httpMethod, env, WithoutFilter(body))
  {
    if httpMethod == "POST" && Configured(env) && body.Parsed? && !Nullish(body.value) {
      SameDispatchWithoutFilter(env, body);
    }
  }

  /** A body object without `filter` gets the same plan from both proxies. */
  lemma SamePlanWithoutFilterKey(httpMethod: string, env: Env, v: JsValue)
    requires v.Obj? && "filter" !in v.props
    ensures Plan(httpMethod, env, Parsed(v)) == NetlifyAirtableProxy.Plan(httpMethod, env, Parsed(v))
  {
    assert v.props - {"filter"} == v.props;
    assert WithoutFilter(Parsed(v)) == Parsed(v);
    SamePlanAsNetlifyWithoutFilter(httpMethod, env, Parsed(v));
  }

  /** The switch of a configured POST with a readable body. */
  lemma SameDispatchWithoutFilter(env: Env, body: JsonText)
    requires Configured(env) && body.Parsed? && !Nullish(body.value)
    ensures Plan("POST", env, body) == NetlifyAirtableProxy.Plan("POST", env, WithoutFilter(body))
  {
    var req := Destructure(body).value;
    DestructureWithoutFilter(body);
    var baseUrl := BaseUrl(env.baseId.value, req.table);
    ListUrlsAgree(baseUrl, req.sort);
    var listUrl := ListUrl(baseUrl, req.sort);
    assert Plan("POST", env, body) == Dispatch(env.apiKey.value, baseUrl, req, listUrl);
    assert NetlifyAirtableProxy.Plan("POST", env, WithoutFilter(body))
        == Dispatch(env.apiKey.value, baseUrl, req.(filter := Undefined), listUrl);
    DispatchIgnoresFilter(env.apiKey.value, baseUrl, req, listUrl);
  }

  /** The action switch does not read `filter`. */
  lemma DispatchIgnoresFilter(apiKey: string, baseUrl: string, req: RequestFields, listUrl: string)
    ensures Dispatch(apiKey, baseUrl, req, listUrl) == Dispatch(apiKey, baseUrl, req.(filter := Undefined), listUrl)
  {
  }

  lemma DestructureWithoutFilter(body: JsonText)
    requires body.Parsed? && !Nullish(body.value)
    ensures Destructure(WithoutFilter(body)) == Success(Destructure(body).value.(filter := Undefined))
  {
    var v := body.value;
    var w := WithoutFilter(body).value;
    if v.Obj? {
      assert "filter" !in w.props;
      forall key | key != "filter" ensures Get(w, key) == Get(v, key) {
      }
    }
  }

  /** With no filter, the Netlify `list` URL is this handler's. */
  lemma ListUrlsAgree(baseUrl: string, sort: JsValue)
    ensures NetlifyAirtableProxy.ListUrl(baseUrl, Undefined, sort) == ListUrl(baseUrl, sort)
  {
    if Truthy(sort) {
      assert NetlifyAirtableProxy.ListParams(Undefined, sort) == [SortParam(sort)];
    } else {
      assert NetlifyAirtableProxy.ListParams(Undefined, sort) == [];
    }
  }

  /** This handler never reads `filter`: removing it changes nothing. */
  lemma FilterIgnored(httpMethod: string, env: Env, body: JsonText)
    ensures Plan(httpMethod, env, body) == Plan(httpMethod, env, WithoutFilter(body))
  {
    SamePlanAsNetlifyWithoutFilter(httpMethod, env, body);
    SamePlanAsNetlifyWithoutFilter(httpMethod, env, WithoutFilter(body));
    assert WithoutFilter(WithoutFilter(body)) == WithoutFilter(body) by {
      if body.Parsed? && body.value.Obj? {
        assert body.value.props - {"filter"} - {"filter"} == body.value.props - {"filter"};
      }
    }
  }

  /** CORS headers sit on the same three exits as in the Netlify proxy (the
      preflight, the 405 and the 200 after a successful Airtable call); only the
      200 exit's header set differs: `Access-Control-Allow-Methods: POST` here,
      `Content-Type: application/json` there. */
  lemma CorsExits(httpMethod: string, env: Env, body: JsonText, fetch: Outbound -> Upstream)
    ensures var r := Run(Plan(httpMethod, env, body), fetch, SuccessHeaders);
      || r.headers == map[]
      || r == PreflightResponse
      || r == MethodNotAllowedResponse
      || (r.status == 200 && r.headers == SuccessHeaders && r.body.Payload?)
    ensures SuccessHeaders.Keys - NetlifyAirtableProxy.SuccessHeaders.Keys == {AllowMethods}
    ensures NetlifyAirtableProxy.SuccessHeaders.Keys - SuccessHeaders.Keys == {ContentType}
  {
    assert AllowMethods != AllowOrigin && AllowMethods != AllowHeaders && AllowMethods != ContentType;
    assert ContentType != AllowOrigin && ContentType != AllowHeaders;
    assert SuccessHeaders.Keys == {AllowOrigin, AllowMethods, AllowHeaders};
    assert NetlifyAirtableProxy.SuccessHeaders.Keys == {ContentType, AllowOrigin, AllowHeaders};
    var p := Plan(httpMethod, env, body);
    if p.Forward? {
      CompleteHeaders(fetch(p.request), SuccessHeaders);
    }
  }
}
