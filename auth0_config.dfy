/** The Netlify function netlify/functions/auth0-config.js: a method gate in front
    of the public Auth0 settings, read from `AUTH0_DOMAIN` and `AUTH0_CLIENT_ID`. */
module Auth0Config {
  import opened Js
  import opened Http

  const PreflightHeaders: Headers :=
    map[AllowOrigin := "*", AllowHeaders := "Content-Type", AllowMethods := "GET, OPTIONS"]

  const ConfigHeaders: Headers :=
    map[ContentType := "application/json", AllowOrigin := "*", CacheControl := "public, max-age=3600"]

  /** `process.env.NAME || ''`: never `undefined`, and the variable's own text
      whenever the result is not empty. */
  function OrEmpty(v: Option<string>): (s: string)
    ensures v.None? ==> s == ""
    ensures s != "" ==> v == Some(s)
  {
    if v.Some? then v.value else ""
  }

  /** `exports.handler`, given the method and the two environment values. */
  function Handler(httpMethod: string, domain: Option<string>, clientId: Option<string>): (r: Response)
    ensures r.status == 405 <==> httpMethod != "GET" && httpMethod != "OPTIONS"
    ensures r.status == 200 || r.status == 405
    ensures AllowOrigin in r.headers && r.headers[AllowOrigin] == "*"
  {
    if httpMethod == "OPTIONS" then
      Response(200, PreflightHeaders, NoBody)
    else if httpMethod != "GET" then
      Response(405, map[AllowOrigin := "*"], ErrorBody(Str("Method not allowed")))
    else
      Response(200, ConfigHeaders,
               Payload(Obj(map["domain" := Str(OrEmpty(domain)), "clientId" := Str(OrEmpty(clientId))])))
  }

  /** Three exits: OPTIONS gets 200 with an empty body and `GET, OPTIONS`; any
      method but GET and OPTIONS gets 405; GET gets 200 whatever the
      environment holds. */
  lemma ThreeExits(httpMethod: string, domain: Option<string>, clientId: Option<string>)
    ensures var r := Handler(httpMethod, domain, clientId);
      && (httpMethod == "OPTIONS" ==>
            r.status == 200 && r.body == NoBody && r.headers[AllowMethods] == "GET, OPTIONS"
            && r.headers[AllowOrigin] == "*")
      && (httpMethod != "OPTIONS" && httpMethod != "GET" ==>
            r == Response(405, map[AllowOrigin := "*"], ErrorBody(Str("Method not allowed"))))
      && (httpMethod == "GET" ==> r.status == 200 && r.body.Payload?)
      && (r.status == 200 || r.status == 405)
  {
  }

  /** The GET body has exactly the keys `domain` and `clientId`, each the
      variable's value or `''` when it is missing, independently of the other;
      the response is public and cacheable for an hour. */
  lemma ConfigBody(domain: Option<string>, clientId: Option<string>)
    ensures var r := Handler("GET", domain, clientId);
      && r.body.value.Obj?
      && r.body.value.props.Keys == {"domain", "clientId"}
      && r.body.value.props["domain"] == Str(if domain.Some? then domain.value else "")
      && r.body.value.props["clientId"] == Str(if clientId.Some? then clientId.value else "")
      && r.headers[AllowOrigin] == "*"
      && r.headers[CacheControl] == "public, max-age=3600"
  {
  }
}
