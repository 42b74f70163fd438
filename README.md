# Coffee brew tracker: Airtable proxies, Auth0 config and page logic in Dafny

This project models the request-handling core of a small coffee-brewing
tracker. A browser page (`app.js`) records brews against a table of coffees
and lists past brews. It never talks to Airtable directly. It POSTs
`{ action, table, data, recordId, sort }` to a serverless proxy, which holds
the Airtable credentials and forwards one request to the Airtable REST API.
There are two deployments of that proxy: a Netlify function and a Vercel
function. A third function hands the page its public Auth0 settings.

The model has one Dafny module per source file, plus shared modules:

- `Js` (`js.dfy`) covers the JavaScript rules the code relies on:
  - values after `JSON.parse`, plus `undefined`;
  - truthiness and `||`;
  - property reads, and the `TypeError` a read of `null` or `undefined` throws;
  - `String(v)`, `Array.prototype.join` and `String.prototype.includes`.
- `Uri` (`uri.dfy`) implements `encodeURIComponent` concretely. It percent-encodes
  the UTF-8 bytes of everything outside the unreserved set of section 2.3 of
  RFC 3986 and `! ' ( ) *`, using the upper-case `%XY` form of section 2.1.
  `decodeURIComponent` is modelled as its partner, and the round trip is proved.
- `Http` (`http.dfy`) holds the status, header and body shapes of a response.
- `AirtableProxy` (`airtable_proxy.dfy`) holds what both proxies share:
  - the destructuring of the body;
  - the Airtable URL and headers;
  - the `get`/`create`/unknown branches of the action switch;
  - `Complete`, which maps the single upstream result to the proxy's answer.

  A whole invocation is described by a `Plan`: the proxy either replies at
  once (`Reply`) or forwards exactly one request (`Forward`) and then answers
  with `Complete`.
- `NetlifyAirtableProxy` models `netlify/functions/airtable-proxy.js`.
  `Plan` is its decision procedure. `Handler` is the function written step by
  step, with the early `return`s, the `queryParams` array and the `options`
  updates. `Handler` is proved to return `Run(Plan(…))` and to send
  `Sent(Plan(…))`.
- `VercelAirtableProxy` models `api/airtable-proxy.js`. The platform's `res`
  object is a class, `ServerResponse`, whose methods `SetHeader`, `Status`,
  `Json` and `End` update it in place. `Handler` writes its answer into `res`
  and is proved to leave exactly `Run(Plan(…))` there; its `try` block is the
  method `Try`, specified by the function `Attempt`.
- `ListQueries` (`list_queries.dfy`) covers the `list` query strings of both
  proxies: the Netlify proxy builds `filterByFormula` and the sort
  parameters, the Vercel proxy the sort parameters only.
- `Auth0Config` models `netlify/functions/auth0-config.js`.
- `App` models the parts of `app.js` that decide something. DOM output is
  replaced by view values: `CoffeeOption`, `Card`, `Detail` and `BrewList`.
  The modelled parts are:
  - the proxy URL choice;
  - the request body and error path of `callAirtableProxy`;
  - the `brewData` of `submitBrew`, with keys added in place;
  - the coffee dropdown of `loadCoffees`;
  - the brew card of `createBrewCard`;
  - the loop of `loadBrews`.
- `ClientAndProxies` connects the page to the proxies:
  - the Airtable request each page call ends in;
  - the fact that both proxies treat every page request alike;
  - the way a proxy's answer, an `{ error }` or a caught exception, becomes
    the message the page throws.

Inputs the code reads from its environment are parameters:

- the HTTP method and the parsed body (or the parse error);
- `process.env` values, as `Option<string>`;
- `fetch`, as a function from the outbound request to the upstream result;
- the hostname;
- the form entries;
- the current time as an ISO string;
- `parseFloat` and `parseInt`, as functions.

## Model

| member | source | states |
|---|---|---|
| Js.Message | netlify/functions/airtable-proxy.js:125-131 | `error.message` of a caught exception: the given text for a raised error, never empty for an engine `TypeError` |
| Uri.EncodeUriComponent | netlify/functions/airtable-proxy.js:52 | `encodeURIComponent` never shortens its input and is empty only for the empty string |
| Uri.DecodeUriComponent | netlify/functions/airtable-proxy.js:52 | `decodeURIComponent` never lengthens its input; by `DecodeEncode` it undoes the encoding |
| Uri.PercentEncodeAll | netlify/functions/airtable-proxy.js:52 | each byte becomes three characters, all unreserved or `%` |
| Uri.EncodedCharset | netlify/functions/airtable-proxy.js:52-53 | an encoded string holds only unreserved characters and `%`, so no `/`, `?`, `&` or `#` |
| Uri.NoDelimiters | netlify/functions/airtable-proxy.js:52-53 | a string in the encoded character set holds none of `/ ? & = #` |
| Uri.DecodeEncode | netlify/functions/airtable-proxy.js:52 | decoding the encoding of any string gives that string back |
| Uri.DecodeEncodedChar | netlify/functions/airtable-proxy.js:52 | decoding an encoded character followed by any text yields that character, then the decoding of the text |
| Uri.Utf8RoundTrip | netlify/functions/airtable-proxy.js:52 | the UTF-8 bytes of a code point decode back to it, and their lead byte announces their length |
| Uri.EscapedBytesOfEncoding | netlify/functions/airtable-proxy.js:61 | the escapes written for a byte sequence are read back as that sequence, whatever follows |
| Uri.EncodeAppend | netlify/functions/airtable-proxy.js:61 | encoding distributes over concatenation |
| Uri.EncodeUnescaped | netlify/functions/airtable-proxy.js:64 | a string of unreserved characters is its own encoding |
| AirtableProxy.BaseUrl | netlify/functions/airtable-proxy.js:52-53 | the table URL starts with the API root, the base id and `/` |
| AirtableProxy.FilterParam | netlify/functions/airtable-proxy.js:60-62 | `filterByFormula=` followed by the encoded filter, which holds only unreserved characters and `%` |
| AirtableProxy.Destructure | netlify/functions/airtable-proxy.js:41 | destructuring fails exactly for a body that did not parse or is null/undefined |
| AirtableProxy.SortDirection | netlify/functions/airtable-proxy.js:64 | a truthy `sort.direction` is written as `String(direction)`, verbatim and not encoded; a falsy one gives `desc` |
| AirtableProxy.SortParam | netlify/functions/airtable-proxy.js:63-65 | the whole `sort[0][field]=<encoded field>&sort[0][direction]=<direction or desc>` text, the field holding only unreserved characters and `%` |
| AirtableProxy.QueryValuesDecode | netlify/functions/airtable-proxy.js:61-64 | the encoded filter and sort field decode back to `String(filter)` and `String(sort.field)` |
| AirtableProxy.GetPlan | netlify/functions/airtable-proxy.js:72-82 | `get` forwards exactly for a truthy `recordId`, as a GET with the auth headers to a URL under the table URL and `/` |
| AirtableProxy.CreatePlan | netlify/functions/airtable-proxy.js:84-95 | `create` forwards exactly when `data` and `data.fields` are truthy, as a request to the table URL whose body is `data` |
| AirtableProxy.Dispatch | netlify/functions/airtable-proxy.js:55-101 | the switch replies only with a headerless 400 `{ error }`; it forwards only for `list`, `get` or `create`, always with the auth headers |
| AirtableProxy.Complete | netlify/functions/airtable-proxy.js:104-131 | the answer is ok exactly when it carries Airtable's payload, then with status 200 and the success headers; an `{ error }` answer keeps Airtable's status |
| AirtableProxy.UpstreamErrorMessage | netlify/functions/airtable-proxy.js:111 | the upstream error text is always truthy (`Airtable API error` as fallback) |
| AirtableProxy.Sent | netlify/functions/airtable-proxy.js:105 | at most one upstream request per invocation, and none exactly when the plan replies directly |
| AirtableProxy.TableSegmentIsEncoded | netlify/functions/airtable-proxy.js:52-53 | the table's path segment is its encoding, holds no `/?&#` and decodes back to the table name |
| AirtableProxy.CompleteCases | netlify/functions/airtable-proxy.js:104-131 | failed fetch or unreadable JSON gives 500 with the message; a non-ok status with an object passes through with `error.message` or `Airtable API error`; a non-ok status with JSON `null` throws on `responseData.error` and gives 500 with that `TypeError`, no passthrough; ok gives 200 with the payload verbatim |
| AirtableProxy.CompleteHeaders | netlify/functions/airtable-proxy.js:108-123 | after the fetch, only the 200 exit has headers, and they are the handler's success headers |
| NetlifyAirtableProxy.Plan | netlify/functions/airtable-proxy.js:4-131 | OPTIONS is answered with the preflight; a request reaches Airtable only for a configured POST whose body destructures, with the auth headers and at a URL under the API root and base id |
| NetlifyAirtableProxy.ListUrl | netlify/functions/airtable-proxy.js:58-68 | the list URL starts with the table URL and equals it exactly when neither `filter` nor `sort` is truthy |
| NetlifyAirtableProxy.Handler | netlify/functions/airtable-proxy.js:4-132 | the step-by-step handler answers `Run(Plan(…))` and sends exactly `Sent(Plan(…))` |
| NetlifyAirtableProxy.Act | netlify/functions/airtable-proxy.js:43-106 | the action switch, with the `queryParams` array pushed in place, answers and sends what `Dispatch` plans |
| NetlifyAirtableProxy.Answer | netlify/functions/airtable-proxy.js:106-123 | the response built from the upstream result is `Complete` of it with the Netlify success headers |
| NetlifyAirtableProxy.OptionsIsPreflight | netlify/functions/airtable-proxy.js:6-16 | OPTIONS gets 200, empty body, ACAO `*`, ACAM `POST, OPTIONS`, whatever the credentials and body |
| NetlifyAirtableProxy.OnlyPostIsForwarded | netlify/functions/airtable-proxy.js:19-27 | other methods get 405 `Method not allowed`; only POST ever forwards |
| NetlifyAirtableProxy.MissingCredentials | netlify/functions/airtable-proxy.js:30-38 | missing credentials give 500 with the fixed message whatever the body |
| NetlifyAirtableProxy.UnreadableBody | netlify/functions/airtable-proxy.js:41 | an unparsable or null body gives 500 with the exception, nothing forwarded |
| NetlifyAirtableProxy.ListRequest | netlify/functions/airtable-proxy.js:55-70 | `list` forwards a GET with the auth headers to `ListUrl` of the encoded table URL |
| NetlifyAirtableProxy.GetRequest | netlify/functions/airtable-proxy.js:72-82 | `get` without a truthy `recordId` gives 400 and no request; otherwise a GET to base URL + `/` + the raw id |
| NetlifyAirtableProxy.CreateRequest | netlify/functions/airtable-proxy.js:84-95 | `create` without truthy `data.fields` gives 400 and no request; otherwise a POST whose body is the whole `data` |
| NetlifyAirtableProxy.UnknownAction | netlify/functions/airtable-proxy.js:97-101 | any other action gives 400 `Invalid action. Use: list, get, or create` |
| NetlifyAirtableProxy.CorsExits | netlify/functions/airtable-proxy.js:6-131 | every exit is headerless, the preflight, the 405, or the 200 success with the success headers |
| ListQueries.ListUrlShape | netlify/functions/airtable-proxy.js:58-68 | no `?` without parameters; the filter alone, the sort alone, or the filter, `&`, then the sort |
| ListQueries.FilterThenSort | netlify/functions/airtable-proxy.js:59-67 | with both present, `filterByFormula` comes right after `?` and before the sort parameters |
| ListQueries.FilterChangesListUrl | netlify/functions/airtable-proxy.js:60-62 | a truthy `filter` appears in the Netlify URL and makes it strictly longer than the Vercel URL for the same sort |
| VercelAirtableProxy.ServerResponse.constructor | api/airtable-proxy.js:4 | a fresh response: status 200, no headers, no body, not finished |
| VercelAirtableProxy.ServerResponse.SetHeader | api/airtable-proxy.js:7-9 | sets one header and changes nothing else |
| VercelAirtableProxy.ServerResponse.Status | api/airtable-proxy.js:10 | sets the status and changes nothing else |
| VercelAirtableProxy.ServerResponse.Json | api/airtable-proxy.js:16 | sets the body and finishes, keeping status and headers |
| VercelAirtableProxy.ServerResponse.End | api/airtable-proxy.js:10 | finishes with an empty body, keeping status and headers |
| VercelAirtableProxy.Plan | api/airtable-proxy.js:4-93 | the same gatekeeping as the Netlify plan: OPTIONS first, and Airtable is reached only for a configured POST whose body destructures, with the auth headers, under the base id |
| VercelAirtableProxy.Attempt | api/airtable-proxy.js:27-73 | the `try` block forwards only for a body that destructures, with the auth headers, to a URL under the API root and base id |
| VercelAirtableProxy.ListUrl | api/airtable-proxy.js:45-48 | the list URL starts with the table URL and equals it exactly when `sort` is falsy |
| VercelAirtableProxy.Handler | api/airtable-proxy.js:4-94 | the handler finishes `res` holding exactly `Run(Plan(…))` and sends exactly `Sent(Plan(…))` |
| VercelAirtableProxy.Try | api/airtable-proxy.js:27-93 | the `try` block and its `catch` finish `res` holding exactly `Run(Attempt(…))` and send exactly `Sent(Attempt(…))` |
| VercelAirtableProxy.Act | api/airtable-proxy.js:30-77 | the action switch writes into `res` and sends what `Dispatch` plans with the sort-only list URL |
| VercelAirtableProxy.Answer | api/airtable-proxy.js:77-88 | the answer written after the fetch is `Complete` of the upstream result with the Vercel success headers |
| VercelAirtableProxy.EarlyExits | api/airtable-proxy.js:6-25 | OPTIONS gets 200 with an empty end; other non-POST methods get 405 with ACAO `*`; missing credentials get 500 before the body is read |
| VercelAirtableProxy.ListRequest | api/airtable-proxy.js:43-50 | `list` forwards a GET, with `?` and the sort parameters only for a truthy `sort` |
| VercelAirtableProxy.GetCreateAndUnknownActions | api/airtable-proxy.js:52-72 | `get`, `create` and unknown actions validate, reply and forward exactly as listed for the Netlify proxy |
| VercelAirtableProxy.SamePlanAsNetlifyWithoutFilter | api/airtable-proxy.js:28 | on every input, the plan equals the Netlify plan for the same body with `filter` removed |
| VercelAirtableProxy.DestructureWithoutFilter | api/airtable-proxy.js:28 | removing `filter` leaves every other destructured property unchanged |
| VercelAirtableProxy.ListUrlsAgree | api/airtable-proxy.js:45-48 | without a filter, the two `list` URLs coincide |
| VercelAirtableProxy.FilterIgnored | api/airtable-proxy.js:28 | removing `filter` from the body never changes the plan |
| VercelAirtableProxy.CorsExits | api/airtable-proxy.js:6-93 | the headers the handler itself sets carry CORS on the preflight, the 405 and the 200 only; the two proxies' handler-set success headers differ by ACAM (Vercel) and Content-Type (Netlify) |
| Auth0Config.OrEmpty | netlify/functions/auth0-config.js:42-43 | a missing variable reads as `''`, and a non-empty result is the variable's own value |
| Auth0Config.Handler | netlify/functions/auth0-config.js:4-46 | the status is 200 or 405, 405 exactly for methods other than GET and OPTIONS; every exit carries ACAO `*` |
| Auth0Config.ThreeExits | netlify/functions/auth0-config.js:6-45 | OPTIONS gets 200 with ACAM `GET, OPTIONS`; other non-GET methods get 405 `Method not allowed`; GET always gets 200 |
| Auth0Config.ConfigBody | netlify/functions/auth0-config.js:34-45 | the body has exactly `domain` and `clientId`, each its variable or `''` on its own; ACAO `*` and `Cache-Control: public, max-age=3600` |
| App.ProxyUrl | app.js:12-23 | always one of the two proxy paths |
| App.ProxyUrlChoice | app.js:14-22 | the Vercel path exactly when the host names Vercel and not Netlify; a Netlify match wins, unknown hosts get the Netlify path |
| App.ProxyUrlExamples | app.js:12-23 | a `vercel.app` host gets the Vercel path; a `netlify.app` host and `localhost` get the Netlify path |
| App.ProxyRequestBody | app.js:36-42 | the request body reads back `action`, `table`, `data`, `recordId` and `sort` as given and never has `filter` |
| App.CallProxy | app.js:45-50 | the call returns exactly for an ok response with readable JSON, and then returns that JSON |
| App.CallProxyOutcomes | app.js:31-50 | a rejected fetch or unreadable JSON throws that error; a non-ok response with JSON `null` throws a `TypeError`; otherwise a non-ok one throws the server's `error` if truthy, else `Request failed: <statusText>` |
| App.FormValue | app.js:146-156 | a form read is a string or `null`, and truthy exactly for an entry that is present and non-empty |
| App.RequiredFields | app.js:144-158 | the literal has exactly the eleven required keys |
| App.RequiredFieldsTexts | app.js:146-151 | `Coffee` is the one-element list of the chosen id; date, method, grinder, grind size and brewer come from the form |
| App.RequiredFieldsMeasures | app.js:152-156 | the numbers go through the parsers; brew time and notes default to `''` |
| App.OptionalKeysAreNew | app.js:161-169 | the two optional keys are distinct and not among the required ones |
| App.BrewData | app.js:144-169 | the payload is `{ fields }`; the keys are the required ones plus each optional key exactly when its entry is truthy; required values are the literal's, optional values are parsed |
| App.BrewDataDefaults | app.js:146-156 | in the submitted fields, a chosen coffee links exactly that id, an empty time or notes entry is sent as `''`, and a missing method as `null` |
| App.CoffeeOptionFor | app.js:115-119 | an option is built exactly for a non-null record with non-null `fields` |
| App.CoffeeLabel | app.js:117-119 | the label is `Name/Producer` when truthy, else `Coffee <id>`; the value is the id |
| App.CoffeeRecords | app.js:109-115 | the records are available exactly when the call returned a non-null value whose `records` is an array, and then they are its items; a failed call passes its exception on |
| App.LoadCoffees | app.js:105-127 | on success, the placeholder then one option per record, in order; on any failure, only the error option, and the reported exception is the first one raised |
| App.Details | app.js:268-331 | no more details than rows; which rows show is `DetailsMembers` |
| App.LowerCase | app.js:257 | same length; each of `A`-`Z` becomes its lower-case letter, every other character stays |
| App.LowerCaseIdempotent | app.js:257 | the result holds no upper-case ASCII letter, so lowering it again changes nothing |
| App.CoffeeName | app.js:238-249 | a name other than `Unknown Coffee` comes only from a non-empty link whose lookup returned |
| App.Rating | app.js:333-338 | the rating shows exactly when it is not `undefined`, as its text and `/10` |
| App.Notes | app.js:340-345 | the notes show exactly when truthy, as their text |
| App.CreateBrewCard | app.js:232-349 | a null record or one without `fields` throws; otherwise the card fails exactly for a truthy non-string `Brew Method` (`toLowerCase` is not a function); a card has the fields' details, rating, notes and coffee name, the badge `(LowerCase(method), method)` exactly for a truthy method, and the raw `Brew Date` when truthy, else `Unknown date` |
| App.CoffeeNameFallback | app.js:238-249 | `Unknown Coffee` unless the link is non-empty and the lookup returns a record with `fields` and a truthy `Name/Producer`; a failed lookup, a `null` result or a record without `fields` keeps the default |
| App.DetailsMembers | app.js:268-331 | a detail is shown exactly when some row's test passes and gives it |
| App.DetailVisibility | app.js:268-331 | a row with a unique label is shown exactly when its test passes, and with that row's text |
| App.VisibleWhenTruthy | app.js:269-316 | Grinder, Grind Size, Brewer, Total Brew Time and Ratio show exactly when truthy |
| App.VisibleWhenDefined | app.js:297-330 | Dose, Drink Weight, Number of Pours and Water Temperature show exactly when not `undefined` |
| App.ZeroIsShown | app.js:297-345 | a dose of 0 shows as `0g` and a rating of 0 as `0/10`; empty notes are hidden |
| App.BrewRecords | app.js:196-216 | the records are available exactly for a returned value whose `records` is defined and either has length 0 or is an array or a string; an array's records are its items; a failed call passes its exception on |
| App.LoadBrews | app.js:192-229 | an error view on failure; the empty state exactly for no records; otherwise one card per record in order when all succeed, else the first card's exception |
| App.EmptyStateOnlyForNoRecords | app.js:202-210 | the record list is empty exactly when `records.length === 0` |
| ClientAndProxies.PlatformsAgreeOnPageRequests | app.js:36-42 | for every body the page sends, the Vercel and Netlify plans coincide |
| ClientAndProxies.BrewListRequest | app.js:198-200 | loading brews is a GET of the brews table with the sort query, on either platform |
| ClientAndProxies.BrewSortIsNewestFirst | app.js:199 | the sort names `Brew Date` with direction `desc` |
| ClientAndProxies.CoffeeListRequest | app.js:109 | loading coffees is a GET of the whole coffee table, with no query |
| ClientAndProxies.CoffeeLookupRequest | app.js:242-244 | a card's lookup is a GET of that coffee record, or 400 for a falsy id |
| ClientAndProxies.SubmittedBrewIsForwarded | app.js:172 | a brew from the form always passes `create` validation and is POSTed verbatim |
| ClientAndProxies.BodyJson | app.js:45-50 | what the page reads back: an empty body does not parse, an `{ error }` body and a caught exception read back with `error` set to the message, a payload as it is |
| ClientAndProxies.ErrorAnswersAreExplained | netlify/functions/airtable-proxy.js:74-131 | an answer is non-ok exactly when it is an `{ error }` (always with a truthy message) or a caught exception (always with status 500) |
| ClientAndProxies.RepliesAreFixed | netlify/functions/airtable-proxy.js:6-101 | a direct reply is one of the fixed answers or a caught exception |
| ClientAndProxies.ExplainedErrorReachesPage | app.js:45-47 | an `{ error }` answer with a truthy message makes the page throw exactly that message |
| ClientAndProxies.ThrownErrorReachesPage | app.js:45-47 | a caught exception makes the page throw its message; only an empty message (never an engine `TypeError`) gives `Request failed: <statusText>` |
| ClientAndProxies.AnswerReachesPage | app.js:45-50 | every non-ok answer of a plan with the fixed direct replies makes the page throw the proxy's message, or the status text for an exception without one; a payload is returned as it is |
| ClientAndProxies.NetlifyErrorsReachThePage | app.js:45-50 | every non-ok Netlify answer, explicit `{ error }` or caught exception, surfaces in the page as the proxy's message (status text only for an exception with an empty message); a payload is returned |
| ClientAndProxies.VercelErrorsReachThePage | app.js:45-50 | the same for every non-ok Vercel answer, explicit `{ error }` or caught exception |

## Left out

- `fetch` and `response.json()` are parameters: the upstream result is given as
  a status with parsed JSON or a parse error, or as a failed fetch.
- `JSON.parse` and `JSON.stringify` are not modelled. A body is the value it
  parses to, or a parse error with its message.
- The page-to-proxy path assumes the body arrives as the value the page built.
  `JSON.stringify` dropping `undefined` options is modelled in `App.ProxyRequestBody`.
- The Vercel platform parses `req.body` itself. A body it cannot parse is
  modelled as an exception raised inside the handler's `try`.
- Platform response details are not modelled: the `Content-Type` that
  `res.json` adds, and the serialisation of `body`.
- All DOM work is left out, because it is output only:
  - `initializeTabs` and `initializeForm`;
  - `showMessage` and its `setTimeout`;
  - `innerHTML` templating and element creation;
  - the button state and the form reset in `submitBrew`;
  - the `loading` placeholder.

  The views record what these would show.
- The logging calls (`console.error`) are left out, because they are output only.
- `Date`, `toISOString` and `toLocaleString` depend on the clock and the locale.
  The card keeps the raw `Brew Date` value (`Localised`).
- `parseFloat` and `parseInt` are function parameters. Numbers are integers:
  there is no floating point, `NaN` or `Infinity`.
- The awaits in `submitBrew` after the payload is built are not modelled
  separately. Its `callAirtableProxy('create', …)` call is the request in
  `ClientAndProxies.SubmittedBrewIsForwarded`.
- Strings are sequences of Unicode scalar values. The lone surrogates for which
  `encodeURIComponent` throws a `URIError` cannot occur in the model.
- App.PositiveLength: `fields.Coffee.length > 0` is exact for arrays and
  strings. For a `length` that is a string or an object, the model takes the
  comparison to be false, without JavaScript's numeric conversion.
- App.LowerCase: only ASCII letters are lowered, not the full Unicode case mapping.
- App.BrewRecords: iterating a string yields its characters one by one; UTF-16
  code-unit pairing is not modelled.
- The error exits of both proxies carry no CORS headers (`CorsExits`), so a
  cross-origin caller would not see those messages. The page itself calls its
  proxy by a relative, same-origin path, so it does see them. The model
  follows the code, which never sets them.
- Js.Message: the text of an engine `TypeError` follows V8's wording only
  approximately; the model promises only that it is not empty.
- The proxies contain no pagination, token verification, allow-list or
  per-user base selection, and the page has no client-side filtering or
  paging. Those features are not part of this model.
