/** The page and the proxies together, a module with no single source file of
    its own: what each request app.js sends becomes at the Airtable API, and how
    the proxies' answers surface in the page.
    A request body is taken to reach the proxy as the value the page built
    (`JSON.stringify` followed by `JSON.parse`). */
module ClientAndProxies {
  import opened Js
  import opened Http
  import opened AirtableProxy
  import opened App
  import Netlify = NetlifyAirtableProxy
  import Vercel = VercelAirtableProxy
  import ListQueries

  /** The `sort` option of `loadBrews`: by `Brew Date`, newest first. */
  const BrewSort := Obj(map["field" := Str("Brew Date"), "direction" := Str("desc")])

  /** The request body of the page never carries `filter`, so the two proxies
      plan alike for everything the page sends. */
  lemma PlatformsAgreeOnPageRequests(
    httpMethod: string, env: Env, action: string, table: string, data: JsValue, recordId: JsValue, sort: JsValue)
    ensures var body := Parsed(ProxyRequestBody(action, table, data, recordId, sort));
      Vercel.Plan(httpMethod, env, body) == Netlify.Plan(httpMethod, env, body)
  {
    var v := ProxyRequestBody(action, table, data, recordId, sort);
    Vercel.SamePlanWithoutFilterKey(httpMethod, env, v);
  }

  /** `loadBrews` asks for a GET of the brews table sorted by `Brew Date`, newest
      first, on either platform. */
  lemma BrewListRequest(env: Env)
    requires Configured(env)
    ensures var body := Parsed(ProxyRequestBody("list", BrewTable, Undefined, Undefined, BrewSort));
      && Netlify.Plan("POST", env, body) == Vercel.Plan("POST", env, body)
      && Netlify.Plan("POST", env, body) ==
           Forward(Outbound(BaseUrl(env.baseId.value, Str(BrewTable)) + "?" + SortParam(BrewSort),
                            RequestInit(Some("GET"), AuthHeaders(env.apiKey.value), None)))
  {
    var v := ProxyRequestBody("list", BrewTable, Undefined, Undefined, BrewSort);
    PlatformsAgreeOnPageRequests("POST", env, "list", BrewTable, Undefined, Undefined, BrewSort);
    Netlify.ListRequest(env, v);
    assert Truthy(BrewSort) && !Truthy(Undefined);
    ListQueries.ListUrlShape(BaseUrl(env.baseId.value, Str(BrewTable)), Undefined, BrewSort);
  }

  /** The brews' sort parameters name `Brew Date`, in descending order. */
  lemma BrewSortIsNewestFirst()
    ensures Get(BrewSort, "field") == Str("Brew Date") && SortDirection(BrewSort) == "desc"
  {
  }

  /** `loadCoffees` asks for a GET of the whole coffee table, with no query. */
  lemma CoffeeListRequest(env: Env)
    requires Configured(env)
    ensures var body := Parsed(ProxyRequestBody("list", CoffeeTable, Undefined, Undefined, Undefined));
      && Netlify.Plan("POST", env, body) == Vercel.Plan("POST", env, body)
      && Netlify.Plan("POST", env, body) ==
           Forward(Outbound(BaseUrl(env.baseId.value, Str(CoffeeTable)),
                            RequestInit(Some("GET"), AuthHeaders(env.apiKey.value), None)))
  {
    var v := ProxyRequestBody("list", CoffeeTable, Undefined, Undefined, Undefined);
    PlatformsAgreeOnPageRequests("POST", env, "list", CoffeeTable, Undefined, Undefined, Undefined);
    Netlify.ListRequest(env, v);
    ListQueries.ListUrlShape(BaseUrl(env.baseId.value, Str(CoffeeTable)), Undefined, Undefined);
  }

  /** A card's coffee lookup is a GET of that coffee record; a falsy id is
      answered 400 by the proxy, which the card turns into `Unknown Coffee`. */
  lemma CoffeeLookupRequest(env: Env, id: JsValue)
    requires Configured(env)
    ensures var body := Parsed(ProxyRequestBody("get", CoffeeTable, Undefined, id, Undefined));
      && Netlify.Plan("POST", env, body) == Vercel.Plan("POST", env, body)
      && (Truthy(id) ==>
            Netlify.Plan("POST", env, body) ==
              Forward(Outbound(BaseUrl(env.baseId.value, Str(CoffeeTable)) + "/" + ToString(id),
                               RequestInit(Some("GET"), AuthHeaders(env.apiKey.value), None))))
      && (!Truthy(id) ==> Netlify.Plan("POST", env, body) == Reply(ErrorResponse(400, RecordIdRequiredMessage)))
  {
    var v := ProxyRequestBody("get", CoffeeTable, Undefined, id, Undefined);
    PlatformsAgreeOnPageRequests("POST", env, "get", CoffeeTable, Undefined, id, Undefined);
    Netlify.GetRequest(env, v);
  }

  /** A brew built by the form always passes the proxies' `create` check and is
      POSTed verbatim to the brews table. */
  lemma SubmittedBrewIsForwarded(env: Env, brewData: JsValue)
    requires Configured(env) && IsBrewPayload(brewData)
    ensures var body := Parsed(ProxyRequestBody("create", BrewTable, brewData, Undefined, Undefined));
      && Netlify.Plan("POST", env, body) == Vercel.Plan("POST", env, body)
      && Netlify.Plan("POST", env, body) ==
           Forward(Outbound(BaseUrl(env.baseId.value, Str(BrewTable)),
                            RequestInit(Some("POST"), AuthHeaders(env.apiKey.value), Some(brewData))))
  {
    var v := ProxyRequestBody("create", BrewTable, brewData, Undefined, Undefined);
    PlatformsAgreeOnPageRequests("POST", env, "create", BrewTable, brewData, Undefined, Undefined);
    assert Get(v, "action") == Str("create") && Get(v, "data") == brewData;
    assert Truthy(brewData) && Truthy(Get(brewData, "fields"));
    Netlify.CreateRequest(env, v);
  }

  /** One of the answers a proxy gives without asking Airtable. */
  predicate IsFixedReply(r: Response) {
    || r in {PreflightResponse, MethodNotAllowedResponse, ConfigErrorResponse}
    || r in {ErrorResponse(400, RecordIdRequiredMessage), ErrorResponse(400, FieldsRequiredMessage),
             ErrorResponse(400, InvalidActionMessage)}
    || (r.status == 500 && r.body.Thrown?)
  }

  /** The JSON the page reads back from a proxy's body: the handler's
      `JSON.stringify` parsed again by `response.json()`. A caught exception was
      sent as `{ error: error.message }`; an empty body does not parse. */
  function BodyJson(b: Body): (json: JsonText)
    ensures b.NoBody? <==> json.Malformed?
    ensures b.ErrorBody? ==> json.Parsed? && json.value.Obj? && Get(json.value, "error") == b.error
    ensures b.Thrown? ==> json.Parsed? && json.value.Obj? && Get(json.value, "error") == Str(Message(b.exception))
    ensures b.Payload? ==> json == Parsed(b.value)
  {
    match b
    case NoBody => Malformed("Unexpected end of JSON input")
    case ErrorBody(e) => Parsed(Obj(map["error" := e]))
    case Thrown(e) => Parsed(Obj(map["error" := Str(Message(e))]))
    case Payload(v) => Parsed(v)
  }

  /** A plan's answer is non-ok exactly when it carries an error: an explicit
      `{ error }` with a truthy message, or a caught exception with status 500. */
  lemma ErrorAnswersAreExplained(p: AirtableProxy.Plan, fetch: Outbound -> Upstream, successHeaders: Headers)
    requires p.Reply? ==> IsFixedReply(p.response)
    ensures var r := Run(p, fetch, successHeaders);
      && (!IsOk(r.status) <==> r.body.ErrorBody? || r.body.Thrown?)
      && (r.body.ErrorBody? ==> Truthy(r.body.error))
      && (r.body.Thrown? ==> r.status == 500)
  {
  }

  /** The plans of both proxies reply only with their fixed answers or a caught
      exception. */
  lemma RepliesAreFixed(httpMethod: string, env: Env, body: JsonText)
    ensures var p := Netlify.Plan(httpMethod, env, body);
      p.Reply? ==> IsFixedReply(p.response)
  {
  }

  /** A `{ error }` answer with a non-ok status and a truthy message makes the
      page throw exactly that message. */
  lemma ExplainedErrorReachesPage(r: Response, statusText: string)
    requires r.body.ErrorBody? && !IsOk(r.status) && Truthy(r.body.error)
    ensures CallProxy(Received(r.status, statusText, BodyJson(r.body))) == Threw(Raised(ToString(r.body.error)))
  {
  }

  /** A caught exception reaches the page as its message; only an exception
      whose message is empty, which no engine `TypeError` has, leaves the page
      with `Request failed: ` and the status text. */
  lemma ThrownErrorReachesPage(r: Response, statusText: string)
    requires r.body.Thrown? && !IsOk(r.status)
    ensures var message := Message(r.body.exception);
      && (message != "" ==> CallProxy(Received(r.status, statusText, BodyJson(r.body))) == Threw(Raised(message)))
      && (message == "" ==>
            CallProxy(Received(r.status, statusText, BodyJson(r.body))) == Threw(Raised("Request failed: " + statusText)))
  {
    assert Truthy(Str(Message(r.body.exception))) <==> Message(r.body.exception) != "";
  }

  /** How the page sees an answer of a plan whose direct replies are the fixed
      ones: every non-ok answer makes it throw, with the proxy's `error` text,
      or the status text for an exception without a message; a payload is
      returned as it is. */
  lemma AnswerReachesPage(p: AirtableProxy.Plan, fetch: Outbound -> Upstream, successHeaders: Headers, statusText: string)
    requires p.Reply? ==> IsFixedReply(p.response)
    ensures var r := Run(p, fetch, successHeaders);
            var seen := CallProxy(Received(r.status, statusText, BodyJson(r.body)));
      && (!IsOk(r.status) ==> r.body.ErrorBody? || r.body.Thrown?)
      && (r.body.ErrorBody? ==> seen == Threw(Raised(ToString(r.body.error))))
      && (r.body.Thrown? ==>
            seen == Threw(Raised(if Message(r.body.exception) != "" then Message(r.body.exception)
                                 else "Request failed: " + statusText)))
      && (r.body.Payload? ==> seen == Returned(r.body.value))
  {
    var r := Run(p, fetch, successHeaders);
    ErrorAnswersAreExplained(p, fetch, successHeaders);
    if r.body.ErrorBody? {
      ExplainedErrorReachesPage(r, statusText);
    } else if r.body.Thrown? {
      ThrownErrorReachesPage(r, statusText);
    }
  }

  /** Whatever the Netlify proxy answers, a non-ok answer surfaces in the page
      as the proxy's own message: the `{ error }` text, or the caught
      exception's message when it has one; a payload is returned. */
  lemma NetlifyErrorsReachThePage(
    httpMethod: string, env: Env, body: JsonText, fetch: Outbound -> Upstream, statusText: string)
    ensures var r := Run(Netlify.Plan(httpMethod, env, body), fetch, Netlify.SuccessHeaders);
            var seen := CallProxy(Received(r.status, statusText, BodyJson(r.body)));
      && (!IsOk(r.status) ==> r.body.ErrorBody? || r.body.Thrown?)
      && (r.body.ErrorBody? ==> seen == Threw(Raised(ToString(r.body.error))))
      && (r.body.Thrown? ==>
            seen == Threw(Raised(if Message(r.body.exception) != "" then Message(r.body.exception)
                                 else "Request failed: " + statusText)))
      && (r.body.Payload? ==> seen == Returned(r.body.value))
  {
    RepliesAreFixed(httpMethod, env, body);
    AnswerReachesPage(Netlify.Plan(httpMethod, env, body), fetch, Netlify.SuccessHeaders, statusText);
  }

  /** The same for the Vercel proxy. */
  lemma VercelErrorsReachThePage(
    httpMethod: string, env: Env, body: JsonText, fetch: Outbound -> Upstream, statusText: string)
    ensures var r := Run(Vercel.Plan(httpMethod, env, body), fetch, Vercel.SuccessHeaders);
            var seen := CallProxy(Received(r.status, statusText, BodyJson(r.body)));
      && (!IsOk(r.status) ==> r.body.ErrorBody? || r.body.Thrown?)
      && (r.body.ErrorBody? ==> seen == Threw(Raised(ToString(r.body.error))))
      && (r.body.Thrown? ==>
            seen == Threw(Raised(if Message(r.body.exception) != "" then Message(r.body.exception)
                                 else "Request failed: " + statusText)))
      && (r.body.Payload? ==> seen == Returned(r.body.value))
  {
    Vercel.SamePlanAsNetlifyWithoutFilter(httpMethod, env, body);
    RepliesAreFixed(httpMethod, env, Vercel.WithoutFilter(body));
    AnswerReachesPage(Vercel.Plan(httpMethod, env, body), fetch, Vercel.SuccessHeaders, statusText);
  }
}
