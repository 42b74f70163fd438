/** The browser side, app.js: which proxy endpoint the page talks to, how a call
    to the proxy settles, the brew record the form submits, the coffee options,
    and the brew cards with their coffee-name fallback and field visibility.

    The DOM is not modelled: a rendered card is a `Card` value, the brews list
    a `BrewList`, the coffee dropdown a sequence of `CoffeeOption`s. The network
    is a parameter: the outcome of a proxy call, or a function from the
    requested record id to that outcome. */
module App {
  import opened Js
  import opened Http

  const CoffeeTable := "Coffee Freezer"
  const BrewTable := "Coffee Brews"
  const NetlifyProxyPath := "/.netlify/functions/airtable-proxy"
  const VercelProxyPath := "/api/airtable-proxy"
  const UnknownCoffee := "Unknown Coffee"

  // ---------------------------------------------------------------------------
  // getProxyUrl

  /** `getProxyUrl`, given `window.location.hostname`. */
  function ProxyUrl(hostname: string): (url: string)
    ensures url == NetlifyProxyPath || url == VercelProxyPath
  {
    if Includes(hostname, "netlify.app") || Includes(hostname, "netlify.com") then NetlifyProxyPath
    else if Includes(hostname, "vercel.app") || Includes(hostname, "vercel.com") then VercelProxyPath
    else NetlifyProxyPath
  }

  /** The Vercel path is chosen exactly when the hostname names Vercel and not
      Netlify: a Netlify match wins, and an unrecognised host (local
      development) gets the Netlify path. */
  lemma ProxyUrlChoice(hostname: string)
    ensures var netlify := Includes(hostname, "netlify.app") || Includes(hostname, "netlify.com");
            var vercel := Includes(hostname, "vercel.app") || Includes(hostname, "vercel.com");
      && (ProxyUrl(hostname) == VercelProxyPath <==> vercel && !netlify)
      && (ProxyUrl(hostname) == NetlifyProxyPath <==> netlify || !vercel)
  {
  }

  /** `s` holds no `n` before index `k`, so no word starting with `n` occurs
      there. */
  lemma NoMatchStartingBefore(s: string, sub: string, k: int)
    requires |sub| > 0 && sub[0] == 'n'
    requires forall i | 0 <= i < |s| && i < k :: s[i] != 'n'
    requires |s| - |sub| < k
    ensures !Includes(s, sub)
  {
    forall i | 0 <= i <= |s| - |sub|
      ensures !OccursAt(s, sub, i)
    {
      assert s[i..i + |sub|][0] == s[i];
    }
  }

  /** Three hosts: a Vercel deployment, a Netlify deployment and the local
      development server. */
  lemma ProxyUrlExamples()
    ensures ProxyUrl("brews.vercel.app") == VercelProxyPath
    ensures ProxyUrl("brews.netlify.app") == NetlifyProxyPath
    ensures ProxyUrl("localhost") == NetlifyProxyPath
  {
    VercelHost();
    NetlifyHost();
    assert !Includes("localhost", "netlify.app") && !Includes("localhost", "netlify.com");
  }

  lemma VercelHost()
    ensures Includes("brews.vercel.app", "vercel.app")
    ensures !Includes("brews.vercel.app", "netlify.app") && !Includes("brews.vercel.app", "netlify.com")
  {
    var v := "brews.vercel.app";
    assert v[6..16] == "vercel.app";
    assert OccursAt(v, "vercel.app", 6);
    NoMatchStartingBefore(v, "netlify.app", 6);
    NoMatchStartingBefore(v, "netlify.com", 6);
  }

  lemma NetlifyHost()
    ensures Includes("brews.netlify.app", "netlify.app")
  {
    var n := "brews.netlify.app";
    assert n[6..17] == "netlify.app";
    assert OccursAt(n, "netlify.app", 6);
  }

  // ---------------------------------------------------------------------------
  // callAirtableProxy

  /** What the browser's `fetch` of the proxy yields: a rejected promise, or the
      response's status, status text and the outcome of `response.json()`. */
  datatype ProxyReply =
    | Rejected(message: string)
    | Received(status: int, statusText: string, json: JsonText)

  /** How `await callAirtableProxy(…)` settles. */
  datatype Outcome = Returned(data: JsValue) | Threw(error: Exception)

  /** The object `callAirtableProxy` serialises as its request body. Options left
      `undefined` are dropped by `JSON.stringify`, so the proxy reads them back
      as `undefined`. */
  function ProxyRequestBody(action: string, table: string, data: JsValue, recordId: JsValue, sort: JsValue)
    : (body: JsValue)
    ensures body.Obj?
    ensures Get(body, "action") == Str(action) && Get(body, "table") == Str(table)
    ensures Get(body, "data") == data && Get(body, "recordId") == recordId && Get(body, "sort") == sort
    ensures "filter" !in body.props
  {
    Obj(map["action" := Str(action), "table" := Str(table)]
        + (if data == Undefined then map[] else map["data" := data])
        + (if recordId == Undefined then map[] else map["recordId" := recordId])
        + (if sort == Undefined then map[] else map["sort" := sort]))
  }

  /** The rest of `callAirtableProxy`, once `fetch` has settled: only an ok
      response with a readable body returns, and then returns that body. */
  function CallProxy(reply: ProxyReply): (o: Outcome)
    ensures o.Returned? <==> reply.Received? && IsOk(reply.status) && reply.json.Parsed?
    ensures o.Returned? ==> o.data == reply.json.value
  {
    match reply
    case Rejected(m) => Threw(Raised(m))
    case Received(status, statusText, json) =>
      if !IsOk(status) then
        match json
        case Malformed(m) => Threw(Raised(m))
        case Parsed(errorData) =>
          if Nullish(errorData) then Threw(NullAccess("error"))
          else Threw(Raised(ToString(Or(Get(errorData, "error"), Str("Request failed: " + statusText)))))
      else
        match json
        case Malformed(m) => Threw(Raised(m))
        case Parsed(data) => Returned(data)
  }

  /** How the call throws: a rejected fetch or an unreadable body with that
      error; a non-ok response whose JSON is `null` with a `TypeError`; any
      other non-ok response with the server's `error` when it is truthy, and
      with `Request failed: ` and the status text otherwise. */
  lemma CallProxyOutcomes(reply: ProxyReply)
    ensures reply.Rejected? ==> CallProxy(reply) == Threw(Raised(reply.message))
    ensures reply.Received? && reply.json.Malformed? ==> CallProxy(reply) == Threw(Raised(reply.json.message))
    ensures reply.Received? && !IsOk(reply.status) && reply.json.Parsed? && Nullish(reply.json.value) ==>
      CallProxy(reply) == Threw(NullAccess("error"))
    ensures reply.Received? && !IsOk(reply.status) && reply.json.Parsed? && !Nullish(reply.json.value) ==>
      var error := Get(reply.json.value, "error");
      && (Truthy(error) ==> CallProxy(reply) == Threw(Raised(ToString(error))))
      && (!Truthy(error) ==> CallProxy(reply) == Threw(Raised("Request failed: " + reply.statusText)))
  {
  }

  // ---------------------------------------------------------------------------
  // submitBrew: the brew record

  /** The brew form's entries by field name; a name without an entry reads as
      `null`, as `FormData.get` returns. */
  type FormData = map<string, string>

  function FormValue(form: FormData, name: string): (v: JsValue)
    ensures v.Str? || v == Null
    ensures Truthy(v) <==> name in form && form[name] != ""
  {
    if name in form then Str(form[name]) else Null
  }

  /** The keys every submitted brew carries. */
  const RequiredBrewKeys: set<string> :=
    {"Coffee", "Brew Date", "Brew Method", "Grinder Used", "Grind Size", "Brewer",
     "Total Brew Time", "Dose", "Drink Weight", "Enjoyment Rating", "Notes & Tasting"}

  /** `{ fields: {…} }` with an object for `fields`: what the proxies' `create`
      action accepts. */
  predicate IsBrewPayload(v: JsValue) {
    v.Obj? && v.props.Keys == {"fields"} && v.props["fields"].Obj?
  }

  /** The object literal of `brewData.fields`, before the optional keys. */
  function RequiredFields(form: FormData, dateTime: string, parseFloat: JsValue -> JsValue, parseInt: JsValue -> JsValue)
    : (fields: map<string, JsValue>)
    ensures fields.Keys == RequiredBrewKeys
  {
    map[
      "Coffee" := Arr([FormValue(form, "coffee")]),
      "Brew Date" := Str(dateTime),
      "Brew Method" := FormValue(form, "method"),
      "Grinder Used" := FormValue(form, "grinder"),
      "Grind Size" := FormValue(form, "grind-size"),
      "Brewer" := FormValue(form, "brewer"),
      "Total Brew Time" := Or(FormValue(form, "total-brew-time"), Str("")),
      "Dose" := parseFloat(FormValue(form, "dose")),
      "Drink Weight" := parseFloat(FormValue(form, "water-weight")),
      "Enjoyment Rating" := parseInt(FormValue(form, "enjoyment")),
      "Notes & Tasting" := Or(FormValue(form, "taste"), Str(""))]
  }

  /** The linked coffee, the date and the four texts come from the form
      unchanged (a missing entry as `null`). */
  lemma RequiredFieldsTexts(form: FormData, dateTime: string, parseFloat: JsValue -> JsValue, parseInt: JsValue -> JsValue)
    ensures var f := RequiredFields(form, dateTime, parseFloat, parseInt);
      && f["Coffee"] == Arr([FormValue(form, "coffee")])
      && f["Brew Date"] == Str(dateTime)
      && f["Brew Method"] == FormValue(form, "method")
      && f["Grinder Used"] == FormValue(form, "grinder")
      && f["Grind Size"] == FormValue(form, "grind-size")
      && f["Brewer"] == FormValue(form, "brewer")
  {
  }

  /** The numbers go through the parsers; the brew time and the notes default
      to `''`. */
  lemma RequiredFieldsMeasures(form: FormData, dateTime: string, parseFloat: JsValue -> JsValue, parseInt: JsValue -> JsValue)
    ensures var f := RequiredFields(form, dateTime, parseFloat, parseInt);
      && f["Total Brew Time"] == Or(FormValue(form, "total-brew-time"), Str(""))
      && f["Dose"] == parseFloat(FormValue(form, "dose"))
      && f["Drink Weight"] == parseFloat(FormValue(form, "water-weight"))
      && f["Enjoyment Rating"] == parseInt(FormValue(form, "enjoyment"))
      && f["Notes & Tasting"] == Or(FormValue(form, "taste"), Str(""))
  {
  }

  /** The two optional keys are distinct and not among the required ones. */
  lemma OptionalKeysAreNew()
    ensures "Number of Pours" !in RequiredBrewKeys && "Water Temperature (°C)" !in RequiredBrewKeys
    ensures "Number of Pours" != "Water Temperature (°C)"
  {
  }

  /** The `brewData` of `submitBrew`. `dateTime` is the `toISOString()` of the
      current time; `parseFloat` and `parseInt` are the number parsers. */
  method BrewData(form: FormData, dateTime: string, parseFloat: JsValue -> JsValue, parseInt: JsValue -> JsValue)
    returns (brewData: JsValue)
    ensures IsBrewPayload(brewData)
    ensures var fields := brewData.props["fields"].props;
      && fields.Keys == RequiredBrewKeys
           + (if Truthy(FormValue(form, "number-of-pours")) then {"Number of Pours"} else {})
           + (if Truthy(FormValue(form, "water-temperature")) then {"Water Temperature (°C)"} else {})
      && (forall k | k in RequiredBrewKeys :: fields[k] == RequiredFields(form, dateTime, parseFloat, parseInt)[k])
      && ("Number of Pours" in fields ==> fields["Number of Pours"] == parseInt(FormValue(form, "number-of-pours")))
      && ("Water Temperature (°C)" in fields ==>
            fields["Water Temperature (°C)"] == parseFloat(FormValue(form, "water-temperature")))
  {
    var fields := RequiredFields(form, dateTime, parseFloat, parseInt);
    OptionalKeysAreNew();

    var numberOfPours := FormValue(form, "number-of-pours");
    if Truthy(numberOfPours) {
      fields := fields["Number of Pours" := parseInt(numberOfPours)];
    }
    var waterTemp := FormValue(form, "water-temperature");
    if Truthy(waterTemp) {
      fields := fields["Water Temperature (°C)" := parseFloat(waterTemp)];
    }
    brewData := Obj(map["fields" := Obj(fields)]);
  }

  /** A selected coffee, an empty time field and empty notes: the submitted
      fields (which `BrewData` takes from `RequiredFields`) link that one coffee
      and send `''` for both texts, and a missing text entry is sent as `null`. */
  lemma BrewDataDefaults(form: FormData, dateTime: string, parseFloat: JsValue -> JsValue, parseInt: JsValue -> JsValue)
    requires "coffee" in form
    requires "total-brew-time" !in form || form["total-brew-time"] == ""
    requires "taste" !in form || form["taste"] == ""
    ensures var f := RequiredFields(form, dateTime, parseFloat, parseInt);
      && f["Coffee"] == Arr([Str(form["coffee"])])
      && f["Total Brew Time"] == Str("")
      && f["Notes & Tasting"] == Str("")
      && ("method" !in form ==> f["Brew Method"] == Null)
  {
  }

  // ---------------------------------------------------------------------------
  // loadCoffees: the coffee dropdown

  /** One `<option>`: its value and its text. */
  datatype CoffeeOption = CoffeeOption(value: string, caption: string)

  const Placeholder := CoffeeOption("", "Select a coffee")
  const ErrorOption := CoffeeOption("", "Error loading coffees")

  /** The option for one coffee record: its id, and its `Name/Producer` or
      `Coffee <id>`. A null record or a record without `fields` throws. */
  function CoffeeOptionFor(record: JsValue): (r: Result<CoffeeOption, Exception>)
    ensures r.Success? <==> !Nullish(record) && !Nullish(Get(record, "fields"))
  {
    if Nullish(record) then Failure(NullAccess("id"))
    else
      var fields := Get(record, "fields");
      if Nullish(fields) then Failure(NullAccess("Name/Producer"))
      else
        var id := ToString(Get(record, "id"));
        Success(CoffeeOption(id, ToString(Or(Get(fields, "Name/Producer"), Str("Coffee " + id)))))
  }

  /** The label is the coffee's `Name/Producer` when that is truthy, else
      `Coffee ` and the record id; the value is always the record id. */
  lemma CoffeeLabel(record: JsValue)
    requires !Nullish(record) && !Nullish(Get(record, "fields"))
    ensures var name := Get(Get(record, "fields"), "Name/Producer");
            var option := CoffeeOptionFor(record).value;
      && option.value == ToString(Get(record, "id"))
      && (Truthy(name) ==> option.caption == ToString(name))
      && (!Truthy(name) ==> option.caption == "Coffee " + ToString(Get(record, "id")))
  {
  }

  /** `data.records` as `forEach` sees it: the call's exception, a
      `TypeError` for a missing `data` or `records`, or the records. */
  function CoffeeRecords(listed: Outcome): (r: Result<seq<JsValue>, Exception>)
    ensures r.Success? <==> listed.Returned? && !Nullish(listed.data) && Get(listed.data, "records").Arr?
    ensures r.Success? ==> r.value == Get(listed.data, "records").items
    ensures listed.Threw? ==> r == Failure(listed.error)
  {
    match listed
    case Threw(e) => Failure(e)
    case Returned(data) =>
      if Nullish(data) then Failure(NullAccess("records"))
      else
        var records := Get(data, "records");
        if Nullish(records) then Failure(NullAccess("forEach"))
        else if records.Arr? then Success(records.items)
        else Failure(NotAFunction("forEach"))
  }

  /** `loadCoffees`, once the list call has settled: the options left in the
      dropdown and the exception reported to the user, if any. */
  method LoadCoffees(listed: Outcome) returns (options: seq<CoffeeOption>, failure: Option<Exception>)
    ensures CoffeeRecords(listed).Failure? ==>
      options == [ErrorOption] && failure == Some(CoffeeRecords(listed).error)
    ensures CoffeeRecords(listed).Success? ==>
      var records := CoffeeRecords(listed).value;
      && (failure.None? <==> forall i | 0 <= i < |records| :: CoffeeOptionFor(records[i]).Success?)
      && (failure.None? ==>
            && |options| == |records| + 1 && options[0] == Placeholder
            && forall i | 0 <= i < |records| :: options[i + 1] == CoffeeOptionFor(records[i]).value)
      && (failure.Some? ==>
            && options == [ErrorOption]
            && exists k | 0 <= k < |records| ::
                 && (forall i | 0 <= i < k :: CoffeeOptionFor(records[i]).Success?)
                 && CoffeeOptionFor(records[k]) == Failure(failure.value))
  {
    var listedRecords := CoffeeRecords(listed);
    if listedRecords.Failure? {
      return [ErrorOption], Some(listedRecords.error);
    }
    var records := listedRecords.value;
    options := [Placeholder];
    var i := 0;
    while i < |records|
      invariant 0 <= i <= |records|
      invariant |options| == i + 1 && options[0] == Placeholder
      invariant forall j | 0 <= j < i ::
        CoffeeOptionFor(records[j]).Success? && options[j + 1] == CoffeeOptionFor(records[j]).value
    {
      var option := CoffeeOptionFor(records[i]);
      if option.Failure? {
        return [ErrorOption], Some(option.error);
      }
      options := options + [option.value];
      i := i + 1;
    }
    failure := None;
  }

  // ---------------------------------------------------------------------------
  // createBrewCard

  /** Whether a detail row is shown when its field is truthy, or whenever the
      field is not `undefined` (so also for 0). */
  datatype Gate = WhenTruthy | WhenDefined

  /** One conditional detail of the card: the field read, the label shown, the
      test and the unit appended to the value. */
  datatype DetailRow = DetailRow(key: string, caption: string, gate: Gate, unit: string)

  /** The `brew-details` block, in the order of the card's template. */
  const DetailRows: seq<DetailRow> := [
    DetailRow("Grinder Used", "Grinder", WhenTruthy, ""),
    DetailRow("Grind Size", "Grind Size", WhenTruthy, ""),
    DetailRow("Brewer", "Brewer", WhenTruthy, ""),
    DetailRow("Total Brew Time", "Total Brew Time", WhenTruthy, ""),
    DetailRow("Dose", "Dose", WhenDefined, "g"),
    DetailRow("Drink Weight", "Drink Weight", WhenDefined, "g"),
    DetailRow("Ratio", "Ratio", WhenTruthy, ""),
    DetailRow("Number of Pours", "Number of Pours", WhenDefined, ""),
    DetailRow("Water Temperature (°C)", "Water Temperature", WhenDefined, "°C")]

  /** A shown detail: its label and its text. */
  datatype Detail = Detail(caption: string, value: string)

  /** The date line: `Unknown date`, or the locale rendering of `Brew Date`. */
  datatype BrewDate = UnknownDate | Localised(dateTime: JsValue)

  /** The method badge: its CSS class and its text. */
  datatype Badge = Badge(cssClass: string, text: string)

  /** A rendered brew card. */
  datatype Card = Card(
    coffee: string, date: BrewDate, badge: Option<Badge>,
    details: seq<Detail>, rating: Option<string>, notes: Option<string>)

  predicate Shown(gate: Gate, v: JsValue) {
    match gate
    case WhenTruthy => Truthy(v)
    case WhenDefined => v != Undefined
  }

  function DetailOf(fields: JsValue, row: DetailRow): Detail
    requires !Nullish(fields)
  {
    Detail(row.caption, ToString(Get(fields, row.key)) + row.unit)
  }

  /** The shown details, in row order. */
  function Details(fields: JsValue, rows: seq<DetailRow>): (ds: seq<Detail>)
    requires !Nullish(fields)
    ensures |ds| <= |rows|
  {
    if rows == [] then []
    else
      (if Shown(rows[0].gate, Get(fields, rows[0].key)) then [DetailOf(fields, rows[0])] else [])
      + Details(fields, rows[1..])
  }

  /** `String.prototype.toLowerCase` on ASCII letters: each of `A`-`Z` becomes
      its lower-case letter, every other character stays. */
  function LowerCase(s: string): (r: string)
    ensures |r| == |s|
    ensures forall i | 0 <= i < |s| :: !('A' <= s[i] <= 'Z') ==> r[i] == s[i]
    ensures forall i | 0 <= i < |s| :: 'A' <= s[i] <= 'Z' ==> r[i] == (s[i] as int - 'A' as int + 'a' as int) as char
  {
    if s == [] then []
    else [if 'A' <= s[0] <= 'Z' then (s[0] as int + 32) as char else s[0]] + LowerCase(s[1..])
  }

  /** Lowering twice is lowering once: the result holds no upper-case ASCII
      letter. */
  lemma LowerCaseIdempotent(s: string)
    ensures forall i | 0 <= i < |s| :: !('A' <= LowerCase(s)[i] <= 'Z')
    ensures LowerCase(LowerCase(s)) == LowerCase(s)
  {
    var r := LowerCase(s);
    assert forall i | 0 <= i < |r| :: !('A' <= r[i] <= 'Z');
    assert LowerCase(r) == r;
  }

  /** `x.length > 0` for the `length` of the coffee link. */
  predicate PositiveLength(length: JsValue) {
    match length
    case Num(n) => n > 0
    case Bool(b) => b
    case _ => false
  }

  /** `fields.Coffee[0]` for a truthy link. */
  function FirstLinked(link: JsValue): JsValue
    requires !Nullish(link)
  {
    match link
    case Arr(items) => if |items| > 0 then items[0] else Undefined
    case Str(s) => if |s| > 0 then Str([s[0]]) else Undefined
    case _ => Get(link, "0")
  }

  /** The coffee name on the card. `lookup` is what `callAirtableProxy('get',
      …)` settles to for the linked id; any exception in the lookup is caught
      and leaves `Unknown Coffee`. */
  function CoffeeName(fields: JsValue, lookup: JsValue -> Outcome): (name: string)
    requires !Nullish(fields)
    ensures name != UnknownCoffee ==>
      var link := Get(fields, "Coffee");
      && Truthy(link) && PositiveLength(Get(link, "length"))
      && lookup(FirstLinked(link)).Returned?
  {
    var link := Get(fields, "Coffee");
    if Truthy(link) && PositiveLength(Get(link, "length")) then
      match lookup(FirstLinked(link))
      case Threw(_) => UnknownCoffee
      case Returned(coffeeData) =>
        if Nullish(coffeeData) || Nullish(Get(coffeeData, "fields")) then UnknownCoffee
        else ToString(Or(Get(Get(coffeeData, "fields"), "Name/Producer"), Str(UnknownCoffee)))
    else UnknownCoffee
  }

  /** `Enjoyment: n/10`, whenever the rating is defined. */
  function Rating(fields: JsValue): (shown: Option<string>)
    requires !Nullish(fields)
    ensures shown.Some? <==> Get(fields, "Enjoyment Rating") != Undefined
    ensures shown.Some? ==> shown.value == ToString(Get(fields, "Enjoyment Rating")) + "/10"
  {
    var rating := Get(fields, "Enjoyment Rating");
    if rating != Undefined then Some(ToString(rating) + "/10") else None
  }

  /** The taste notes, when truthy. */
  function Notes(fields: JsValue): (shown: Option<string>)
    requires !Nullish(fields)
    ensures shown.Some? <==> Truthy(Get(fields, "Notes & Tasting"))
    ensures shown.Some? ==> shown.value == ToString(Get(fields, "Notes & Tasting"))
  {
    var notes := Get(fields, "Notes & Tasting");
    if Truthy(notes) then Some(ToString(notes)) else None
  }

  /** `createBrewCard(record)`: a null record or one without `fields` throws, and
      so does a truthy `Brew Method` that is not a string (`toLowerCase`). */
  function CreateBrewCard(record: JsValue, lookup: JsValue -> Outcome): (r: Result<Card, Exception>)
    ensures Nullish(record) || Nullish(Get(record, "fields")) ==> r.Failure?
    ensures !Nullish(record) && !Nullish(Get(record, "fields")) ==>
      var fields := Get(record, "fields");
      var brewMethod := Get(fields, "Brew Method");
      var dateTime := Get(fields, "Brew Date");
      && (r.Failure? <==> Truthy(brewMethod) && !brewMethod.Str?)
      && (r.Failure? ==> r.error == NotAFunction("toLowerCase"))
      && (r.Success? ==>
            && r.value.details == Details(fields, DetailRows)
            && r.value.rating == Rating(fields) && r.value.notes == Notes(fields)
            && r.value.coffee == CoffeeName(fields, lookup)
            && (!Truthy(brewMethod) ==> r.value.badge == None)
            && (Truthy(brewMethod) ==> r.value.badge == Some(Badge(LowerCase(brewMethod.s), brewMethod.s)))
            && (!Truthy(dateTime) ==> r.value.date == UnknownDate)
            && (Truthy(dateTime) ==> r.value.date == Localised(dateTime)))
  {
    if Nullish(record) then Failure(NullAccess("fields"))
    else
      var fields := Get(record, "fields");
      if Nullish(fields) then Failure(NullAccess("Coffee"))
      else
        var coffee := CoffeeName(fields, lookup);
        var dateTime := Or(Get(fields, "Brew Date"), Str(""));
        var brewMethod := Or(Get(fields, "Brew Method"), Str(""));
        if !brewMethod.Str? then Failure(NotAFunction("toLowerCase"))
        else
          Success(Card(
            coffee,
            if Truthy(dateTime) then Localised(dateTime) else UnknownDate,
            if Truthy(brewMethod) then Some(Badge(LowerCase(brewMethod.s), brewMethod.s)) else None,
            Details(fields, DetailRows), Rating(fields), Notes(fields)))
  }

  /** The coffee name is `Unknown Coffee` unless the `Coffee` link is non-empty
      and the lookup returns a record whose `Name/Producer` is truthy; a lookup
      that throws, or returns `null` or a record without `fields` (the read of
      `coffeeData.fields[…]` then throws inside the `try`), keeps the default. */
  lemma CoffeeNameFallback(fields: JsValue, lookup: JsValue -> Outcome)
    requires !Nullish(fields)
    ensures var link := Get(fields, "Coffee");
      && (!Truthy(link) || !PositiveLength(Get(link, "length")) ==> CoffeeName(fields, lookup) == UnknownCoffee)
      && (Truthy(link) && PositiveLength(Get(link, "length")) ==>
            var found := lookup(FirstLinked(link));
            && (found.Threw? ==> CoffeeName(fields, lookup) == UnknownCoffee)
            && (found.Returned? && (Nullish(found.data) || Nullish(Get(found.data, "fields"))) ==>
                  CoffeeName(fields, lookup) == UnknownCoffee)
            && (found.Returned? && !Nullish(found.data) && !Nullish(Get(found.data, "fields")) ==>
                  var name := Get(Get(found.data, "fields"), "Name/Producer");
                  CoffeeName(fields, lookup) == if Truthy(name) then ToString(name) else UnknownCoffee))
  {
  }

  /** Every detail shown comes from a row whose test passes, and every such
      row gives its detail. */
  lemma {:induction false} DetailsMembers(fields: JsValue, rows: seq<DetailRow>, d: Detail)
    requires !Nullish(fields)
    ensures d in Details(fields, rows) <==>
      exists i | 0 <= i < |rows| :: Shown(rows[i].gate, Get(fields, rows[i].key)) && d == DetailOf(fields, rows[i])
  {
    if rows != [] {
      DetailsMembers(fields, rows[1..], d);
      if d in Details(fields, rows[1..]) {
        var i :| 0 <= i < |rows[1..]| && Shown(rows[1..][i].gate, Get(fields, rows[1..][i].key))
                 && d == DetailOf(fields, rows[1..][i]);
        assert rows[i + 1] == rows[1..][i];
      }
      if exists i | 0 <= i < |rows| :: Shown(rows[i].gate, Get(fields, rows[i].key)) && d == DetailOf(fields, rows[i]) {
        var i :| 0 <= i < |rows| && Shown(rows[i].gate, Get(fields, rows[i].key)) && d == DetailOf(fields, rows[i]);
        if i > 0 {
          assert rows[1..][i - 1] == rows[i];
        }
      }
    }
  }

  /** When no other row shares its label, a row's label appears among the
      details exactly when its test passes, and then with that row's text. */
  lemma DetailVisibility(fields: JsValue, rows: seq<DetailRow>, k: int)
    requires !Nullish(fields) && 0 <= k < |rows|
    requires forall i | 0 <= i < |rows| && i != k :: rows[i].caption != rows[k].caption
    ensures (exists d | d in Details(fields, rows) :: d.caption == rows[k].caption)
      <==> Shown(rows[k].gate, Get(fields, rows[k].key))
    ensures forall d | d in Details(fields, rows) && d.caption == rows[k].caption :: d == DetailOf(fields, rows[k])
  {
    forall d | d in Details(fields, rows) && d.caption == rows[k].caption
      ensures d == DetailOf(fields, rows[k]) && Shown(rows[k].gate, Get(fields, rows[k].key))
    {
      DetailsMembers(fields, rows, d);
      var i :| 0 <= i < |rows| && Shown(rows[i].gate, Get(fields, rows[i].key)) && d == DetailOf(fields, rows[i]);
      assert rows[i].caption == rows[k].caption;
      assert i == k;
    }
    if Shown(rows[k].gate, Get(fields, rows[k].key)) {
      DetailsMembers(fields, rows, DetailOf(fields, rows[k]));
      assert DetailOf(fields, rows[k]) in Details(fields, rows);
    }
  }

  /** The card shows the detail labelled `caption`. */
  predicate HasDetail(fields: JsValue, caption: string)
    requires !Nullish(fields)
  {
    exists d | d in Details(fields, DetailRows) :: d.caption == caption
  }

  /** Grinder, Grind Size, Brewer, Total Brew Time and Ratio are shown only when
      truthy. */
  lemma VisibleWhenTruthy(fields: JsValue)
    requires !Nullish(fields)
    ensures HasDetail(fields, "Grinder") <==> Truthy(Get(fields, "Grinder Used"))
    ensures HasDetail(fields, "Grind Size") <==> Truthy(Get(fields, "Grind Size"))
    ensures HasDetail(fields, "Brewer") <==> Truthy(Get(fields, "Brewer"))
    ensures HasDetail(fields, "Total Brew Time") <==> Truthy(Get(fields, "Total Brew Time"))
    ensures HasDetail(fields, "Ratio") <==> Truthy(Get(fields, "Ratio"))
  {
    DetailVisibility(fields, DetailRows, 0);
    DetailVisibility(fields, DetailRows, 1);
    DetailVisibility(fields, DetailRows, 2);
    DetailVisibility(fields, DetailRows, 3);
    DetailVisibility(fields, DetailRows, 6);
  }

  /** Dose, Drink Weight, Number of Pours and Water Temperature are shown
      whenever defined, 0 included. */
  lemma VisibleWhenDefined(fields: JsValue)
    requires !Nullish(fields)
    ensures HasDetail(fields, "Dose") <==> Get(fields, "Dose") != Undefined
    ensures HasDetail(fields, "Drink Weight") <==> Get(fields, "Drink Weight") != Undefined
    ensures HasDetail(fields, "Number of Pours") <==> Get(fields, "Number of Pours") != Undefined
    ensures HasDetail(fields, "Water Temperature") <==> Get(fields, "Water Temperature (°C)") != Undefined
  {
    DetailVisibility(fields, DetailRows, 4);
    DetailVisibility(fields, DetailRows, 5);
    DetailVisibility(fields, DetailRows, 7);
    DetailVisibility(fields, DetailRows, 8);
  }

  /** A dose of 0 is shown as `0g` and a rating of 0 as `0/10`, while empty
      notes are not shown. */
  lemma ZeroIsShown(fields: JsValue)
    requires fields.Obj?
    requires Get(fields, "Dose") == Num(0) && Get(fields, "Enjoyment Rating") == Num(0)
    requires Get(fields, "Notes & Tasting") == Str("")
    ensures Detail("Dose", "0g") in Details(fields, DetailRows)
    ensures Rating(fields) == Some("0/10")
    ensures Notes(fields) == None
  {
    var zero := ToString(Num(0));
    assert zero == [Digit(0)] == "0";
    var dose := DetailRows[4];
    assert dose == DetailRow("Dose", "Dose", WhenDefined, "g");
    assert DetailOf(fields, dose) == Detail("Dose", "0g");
    DetailsMembers(fields, DetailRows, Detail("Dose", "0g"));
    assert zero + "/10" == "0/10";
  }

  // ---------------------------------------------------------------------------
  // loadBrews

  /** What the brews list shows once `loadBrews` is done. */
  datatype BrewList = EmptyState | Cards(cards: seq<Card>) | LoadError(error: Exception)

  /** The records `loadBrews` walks: the call's exception, a `TypeError` for a
      missing `data` or `records`, none when `records.length === 0`, or what
      `for … of` iterates. */
  function BrewRecords(listed: Outcome): (r: Result<seq<JsValue>, Exception>)
    ensures listed.Threw? ==> r == Failure(listed.error)
    ensures r.Success? <==>
      && listed.Returned? && !Nullish(listed.data) && !Nullish(Get(listed.data, "records"))
      && var records := Get(listed.data, "records");
         Get(records, "length") == Num(0) || records.Arr? || records.Str?
    ensures r.Success? && Get(listed.data, "records").Arr? ==> r.value == Get(listed.data, "records").items
  {
    match listed
    case Threw(e) => Failure(e)
    case Returned(data) =>
      if Nullish(data) then Failure(NullAccess("records"))
      else
        var records := Get(data, "records");
        if Nullish(records) then Failure(NullAccess("length"))
        else if Get(records, "length") == Num(0) then Success([])
        else match records
          case Arr(items) => Success(items)
          case Str(s) => Success(Characters(s))
          case _ => Failure(NotIterable)
  }

  /** What `for … of` yields for a string: its characters, one string each. */
  function Characters(s: string): (items: seq<JsValue>)
    ensures |items| == |s|
    ensures forall i | 0 <= i < |s| :: items[i] == Str([s[i]])
  {
    if s == [] then [] else [Str([s[0]])] + Characters(s[1..])
  }

  /** `loadBrews`, once the list call has settled; `lookup` answers each coffee
      lookup a card makes. */
  method LoadBrews(listed: Outcome, lookup: JsValue -> Outcome) returns (view: BrewList)
    ensures BrewRecords(listed).Failure? ==> view == LoadError(BrewRecords(listed).error)
    ensures BrewRecords(listed) == Success([]) ==> view == EmptyState
    ensures BrewRecords(listed).Success? && BrewRecords(listed).value != [] ==>
      var records := BrewRecords(listed).value;
      && (view.Cards? <==> forall i | 0 <= i < |records| :: CreateBrewCard(records[i], lookup).Success?)
      && (view.Cards? ==>
            && |view.cards| == |records|
            && forall i | 0 <= i < |records| :: view.cards[i] == CreateBrewCard(records[i], lookup).value)
      && (!view.Cards? ==>
            && view.LoadError?
            && exists k | 0 <= k < |records| ::
                 && (forall i | 0 <= i < k :: CreateBrewCard(records[i], lookup).Success?)
                 && CreateBrewCard(records[k], lookup) == Failure(view.error))
  {
    var listedRecords := BrewRecords(listed);
    if listedRecords.Failure? {
      return LoadError(listedRecords.error);
    }
    var records := listedRecords.value;
    if records == [] {
      return EmptyState;
    }
    var cards: seq<Card> := [];
    var i := 0;
    while i < |records|
      invariant 0 <= i <= |records|
      invariant |cards| == i
      invariant forall j | 0 <= j < i ::
        CreateBrewCard(records[j], lookup).Success? && cards[j] == CreateBrewCard(records[j], lookup).value
    {
      var card := CreateBrewCard(records[i], lookup);
      if card.Failure? {
        return LoadError(card.error);
      }
      cards := cards + [card.value];
      i := i + 1;
    }
    view := Cards(cards);
  }

  /** An empty list shows the empty state and no cards; a non-empty list shows
      cards only, never the empty state. */
  lemma EmptyStateOnlyForNoRecords(listed: Outcome)
    requires BrewRecords(listed).Success?
    ensures BrewRecords(listed).value == [] <==>
      listed.Returned? && Get(Get(listed.data, "records"), "length") == Num(0)
  {
  }
}
