/** The request wrappers of langchain_scraperapi/utils.py: how each call turns its
    arguments into one GET request, and how the reply becomes a text or an error. */
module ScraperApi {
  import opened Wrappers
  import opened Dicts

  const BaseUrl: string := "https://api.scraperapi.com/"
  const StructuredBaseUrl: string := "https://api.scraperapi.com/structured/"
  const GoogleSearchEndpoint: string := "google/search"
  const AmazonSearchEndpoint: string := "amazon/search"

  /** A query-parameter value: the program sends strings and integers. */
  datatype Value = Str(s: string) | Int(i: int)

  /** One outbound GET: the target URL and the query parameters in insertion order. */
  datatype Request = Request(url: string, query: Dict<Value>)

  /** What the transport yields for one GET: a reply, or a fault before any reply
      (connection refused, DNS failure). The two libraries word their exceptions
      differently, so each outcome carries both texts: `requestsError` is what the
      blocking path's exception prints, `aiohttpError` what the non-blocking one's
      prints (for a reply, the exception of the status check). */
  datatype Outcome =
    | Reply(status: int, body: string, requestsError: string, aiohttpError: string)
    | TransportFailure(requestsError: string, aiohttpError: string)

  /** The HTTP transport seen from this program: every GET is logged in `sent`,
      and the `n`-th one (counting from 0) is answered by `respond(n, request)`,
      so two identical requests are two calls that may be answered differently. */
  class HttpClient {
    const respond: (nat, Request) -> Outcome
    var sent: seq<Request>

    constructor (respond: (nat, Request) -> Outcome)
      ensures this.respond == respond && sent == []
    {
      this.respond := respond;
      sent := [];
    }

    method Send(request: Request) returns (outcome: Outcome)
      modifies this
      ensures sent == old(sent) + [request]
      ensures outcome == respond(|old(sent)|, request)
    {
      outcome := respond(|sent|, request);
      sent := sent + [request];
    }
  }

  // ---------------------------------------------------------------------------
  // Reply handling

  /** `requests.Response.raise_for_status` raises for a 4xx or 5xx status. */
  predicate RequestsRejects(status: int)
  {
    400 <= status < 600
  }

  /** `aiohttp.ClientResponse.raise_for_status` raises for any status of 400 or more. */
  predicate AiohttpRejects(status: int)
  {
    400 <= status
  }

  /** The blocking path: run the status check, then return the body. */
  function SyncReply(o: Outcome): (r: Result<string, string>)
    ensures r.Ok? <==> o.Reply? && !RequestsRejects(o.status)
    ensures r.Ok? ==> r.value == o.body
    ensures r.Err? ==> r.error == o.requestsError
  {
    match o
    case TransportFailure(requestsError, _) => Err(requestsError)
    case Reply(status, body, requestsError, _) => if RequestsRejects(status) then Err(requestsError) else Ok(body)
  }

  /** What a non-blocking call produces as the source writes it: a text, Python's
      `None` (the coroutine ends without a `return`), or an exception. */
  datatype AsyncValue = Returned(text: string) | NoText | Raised(message: string)

  /** The non-blocking path as written: the body only for status 200; otherwise
      the status check runs and, when it does not raise, nothing is returned. */
  function AsyncReplyAsWritten(o: Outcome): (v: AsyncValue)
    ensures v.Returned? <==> o.Reply? && o.status == 200
    ensures v.Returned? ==> v.text == o.body
    ensures v.NoText? <==> o.Reply? && o.status != 200 && !AiohttpRejects(o.status)
    ensures v.Raised? ==> v.message == o.aiohttpError
  {
    match o
    case TransportFailure(_, aiohttpError) => Raised(aiohttpError)
    case Reply(status, body, _, aiohttpError) =>
      if status == 200 then Returned(body)
      else if AiohttpRejects(status) then Raised(aiohttpError)
      else NoText
  }

  /** For status 200 the body comes back verbatim; for any other reply the body is never read. */
  lemma AsyncReplyAsWrittenReadsBodyOnlyOn200(o: Outcome, otherBody: string)
    requires o.Reply?
    ensures o.status == 200 ==> AsyncReplyAsWritten(o) == Returned(o.body)
    ensures o.status != 200 ==>
      AsyncReplyAsWritten(o) == AsyncReplyAsWritten(o.(body := otherBody)) && !AsyncReplyAsWritten(o).Returned?
  {
  }

  /** A successful reply other than 200 (here 204 No Content) yields no text at all. */
  lemma AsyncReplyAsWrittenLosesSuccess()
    ensures AsyncReplyAsWritten(Reply(204, "", "", "")) == NoText
    ensures SyncReply(Reply(204, "", "", "")) == Ok("")
  {
  }

  /** The non-blocking path as evidently intended: status 200 returns the body at
      once; any other reply goes through the status check and, when it passes,
      also returns the body. */
  function AsyncReply(o: Outcome): (r: Result<string, string>)
    ensures o.Reply? && o.status == 200 ==> r == Ok(o.body)
    ensures r.Ok? <==> o.Reply? && !AiohttpRejects(o.status)
    ensures r.Ok? ==> r.value == o.body
    ensures r.Err? ==> r.error == o.aiohttpError
    ensures AsyncReplyAsWritten(o).Returned? ==> r == Ok(AsyncReplyAsWritten(o).text)
    ensures AsyncReplyAsWritten(o).Raised? ==> r == Err(AsyncReplyAsWritten(o).message)
  {
    match o
    case TransportFailure(_, aiohttpError) => Err(aiohttpError)
    case Reply(status, body, _, aiohttpError) =>
      if status == 200 then Ok(body)
      else if AiohttpRejects(status) then Err(aiohttpError)
      else Ok(body)
  }

  /** Both paths succeed or fail together on every outcome the blocking library
      distinguishes (status below 600), with the same text on success; a failure is
      worded by each library in its own way. From 600 on only the non-blocking one fails. */
  lemma AsyncReplyAgreesWithSync(o: Outcome)
    ensures (o.TransportFailure? || o.status < 600) ==> (AsyncReply(o).Ok? <==> SyncReply(o).Ok?)
    ensures AsyncReply(o).Ok? && SyncReply(o).Ok? ==> AsyncReply(o).value == SyncReply(o).value
    ensures o.Reply? && o.status >= 600 ==> AsyncReply(o) == Err(o.aiohttpError) && SyncReply(o) == Ok(o.body)
  {
  }

  // ---------------------------------------------------------------------------
  // The generic fetch endpoint (ScraperAPIWrapper)

  /** Holds the credential; the same key is sent with every request. */
  datatype ScraperApiWrapper = ScraperApiWrapper(apiKey: string)

  /** The arguments of `scrape` and `scrape_async`. */
  datatype ScrapeArgs = ScrapeArgs(
    url: string,
    outputFormat: Option<string>,
    countryCode: Option<string>,
    deviceType: Option<string>,
    premium: Option<bool>,
    render: Option<bool>,
    keepHeaders: Option<bool>)

  /** Python truthiness of an optional string: present and not empty. */
  predicate Truthy(o: Option<string>)
  {
    o.Some? && o.value != ""
  }

  function FlagLiteral(b: bool): string
  {
    if b then "true" else "false"
  }

  function IfTruthy(o: Option<string>): Option<Value>
  {
    if Truthy(o) then Some(Str(o.value)) else None
  }

  function IfSet(o: Option<bool>): Option<Value>
  {
    if o.Some? then Some(Str(FlagLiteral(o.value))) else None
  }

  /** Every parameter `scrape` may send, in order, each marked present or absent. */
  function ScrapeFields(apiKey: string, a: ScrapeArgs): Dict<Option<Value>>
  {
    [("api_key", Some(Str(apiKey))),
     ("url", Some(Str(a.url))),
     ("output_format", IfTruthy(a.outputFormat)),
     ("country_code", IfTruthy(a.countryCode)),
     ("device_type", IfTruthy(a.deviceType)),
     ("premium", IfSet(a.premium)),
     ("render", IfSet(a.render)),
     ("keep_headers", IfSet(a.keepHeaders))]
  }

  const ScrapeKeys: set<string> :=
    {"api_key", "url", "output_format", "country_code", "device_type", "premium", "render", "keep_headers"}

  lemma ScrapeFieldsDistinct(apiKey: string, a: ScrapeArgs)
    ensures Distinct(ScrapeFields(apiKey, a))
  {
  }

  /** The query `scrape` sends: the candidate parameters in order, the absent ones dropped. */
  function ScrapeQuery(apiKey: string, a: ScrapeArgs): Dict<Value>
  {
    Present(ScrapeFields(apiKey, a))
  }

  function ScrapeRequest(apiKey: string, a: ScrapeArgs): Request
  {
    Request(BaseUrl, ScrapeQuery(apiKey, a))
  }

  /** One conditional assignment `if ...: params[k] = v`. */
  function Assign(d: Dict<Value>, k: string, o: Option<Value>): Dict<Value>
  {
    if o.Some? then Put(d, k, o.value) else d
  }

  lemma ScrapeQueryAssigned(apiKey: string, a: ScrapeArgs)
    ensures ScrapeQuery(apiKey, a) ==
      Assign(Assign(Assign(Assign(Assign(Assign([("api_key", Str(apiKey)), ("url", Str(a.url))],
        "output_format", IfTruthy(a.outputFormat)),
        "country_code", IfTruthy(a.countryCode)),
        "device_type", IfTruthy(a.deviceType)),
        "premium", IfSet(a.premium)),
        "render", IfSet(a.render)),
        "keep_headers", IfSet(a.keepHeaders))
  {
    var f := ScrapeFields(apiKey, a);
    ScrapeFieldsDistinct(apiKey, a);
    ScrapeQueryFirstFive(apiKey, a);
    var q5 := Assign(Assign(Assign([("api_key", Str(apiKey)), ("url", Str(a.url))],
      "output_format", IfTruthy(a.outputFormat)),
      "country_code", IfTruthy(a.countryCode)),
      "device_type", IfTruthy(a.deviceType));
    PresentStep(f, 5);
    var q6 := Assign(q5, "premium", IfSet(a.premium));
    assert Present(f[..6]) == q6;
    PresentStep(f, 6);
    var q7 := Assign(q6, "render", IfSet(a.render));
    assert Present(f[..7]) == q7;
    PresentStep(f, 7);
    assert Present(f[..8]) == Assign(q7, "keep_headers", IfSet(a.keepHeaders));
    assert f[..8] == f;
  }

  /** The first half of the chain: the key, the URL and the three string options. */
  lemma ScrapeQueryFirstFive(apiKey: string, a: ScrapeArgs)
    ensures Present(ScrapeFields(apiKey, a)[..5]) ==
      Assign(Assign(Assign([("api_key", Str(apiKey)), ("url", Str(a.url))],
        "output_format", IfTruthy(a.outputFormat)),
        "country_code", IfTruthy(a.countryCode)),
        "device_type", IfTruthy(a.deviceType))
  {
    var f := ScrapeFields(apiKey, a);
    ScrapeFieldsDistinct(apiKey, a);
    assert f[..0] == [];
    PresentStep(f, 0);
    PresentStep(f, 1);
    var q2 := [("api_key", Str(apiKey)), ("url", Str(a.url))];
    assert Present(f[..2]) == q2;
    PresentStep(f, 2);
    var q3 := Assign(q2, "output_format", IfTruthy(a.outputFormat));
    assert Present(f[..3]) == q3;
    PresentStep(f, 3);
    var q4 := Assign(q3, "country_code", IfTruthy(a.countryCode));
    assert Present(f[..4]) == q4;
    PresentStep(f, 4);
  }

  method BuildScrapeParams(apiKey: string, a: ScrapeArgs) returns (params: Dict<Value>)
    ensures params == ScrapeQuery(apiKey, a)
  {
    ScrapeQueryAssigned(apiKey, a);
    params := [("api_key", Str(apiKey)), ("url", Str(a.url))];
    if Truthy(a.outputFormat) {
      params := Put(params, "output_format", Str(a.outputFormat.value));
    }
    if Truthy(a.countryCode) {
      params := Put(params, "country_code", Str(a.countryCode.value));
    }
    if Truthy(a.deviceType) {
      params := Put(params, "device_type", Str(a.deviceType.value));
    }
    if a.premium.Some? {
      params := Put(params, "premium", Str(if a.premium.value then "true" else "false"));
    }
    if a.render.Some? {
      params := Put(params, "render", Str(if a.render.value then "true" else "false"));
    }
    if a.keepHeaders.Some? {
      params := Put(params, "keep_headers", Str(if a.keepHeaders.value then "true" else "false"));
    }
  }

  /** With only a URL, the query is exactly the key and the URL, in that order. */
  lemma ScrapeQueryUrlOnly(apiKey: string, url: string)
    ensures ScrapeQuery(apiKey, ScrapeArgs(url, None, None, None, None, None, None)) ==
      [("api_key", Str(apiKey)), ("url", Str(url))]
  {
    ScrapeQueryAssigned(apiKey, ScrapeArgs(url, None, None, None, None, None, None));
  }

  /** What the query of `scrape` holds, key by key: the key and the URL always;
      a string option under its own name exactly when it is truthy; a flag as
      "true" or "false" exactly when it is set; no other key, none twice. */
  lemma ScrapeQueryContents(apiKey: string, a: ScrapeArgs)
    ensures Distinct(ScrapeQuery(apiKey, a))
    ensures Keys(ScrapeQuery(apiKey, a)) <= ScrapeKeys
    ensures Get(ScrapeQuery(apiKey, a), "api_key") == Some(Str(apiKey))
    ensures Get(ScrapeQuery(apiKey, a), "url") == Some(Str(a.url))
    ensures Get(ScrapeQuery(apiKey, a), "output_format") == IfTruthy(a.outputFormat)
    ensures Get(ScrapeQuery(apiKey, a), "country_code") == IfTruthy(a.countryCode)
    ensures Get(ScrapeQuery(apiKey, a), "device_type") == IfTruthy(a.deviceType)
    ensures Get(ScrapeQuery(apiKey, a), "premium") == IfSet(a.premium)
    ensures Get(ScrapeQuery(apiKey, a), "render") == IfSet(a.render)
    ensures Get(ScrapeQuery(apiKey, a), "keep_headers") == IfSet(a.keepHeaders)
  {
    var f := ScrapeFields(apiKey, a);
    ScrapeFieldsDistinct(apiKey, a);
    PresentGet(f);
    assert Keys(f) <= ScrapeKeys;
    GetAt(f, 0);
    GetAt(f, 1);
    GetAt(f, 2);
    GetAt(f, 3);
    GetAt(f, 4);
    GetAt(f, 5);
    GetAt(f, 6);
    GetAt(f, 7);
  }

  /** A flag on the wire tells exactly which of its three states the caller chose:
      `False` is sent as "false", not dropped. */
  lemma ScrapeFlagEncoding(o: Option<bool>)
    ensures IfSet(o) == None <==> o == None
    ensures IfSet(o) == Some(Str("true")) <==> o == Some(true)
    ensures IfSet(o) == Some(Str("false")) <==> o == Some(false)
  {
  }

  /** A string option on the wire is the caller's string unchanged; `None` and "" both leave it out. */
  lemma ScrapeOptionEncoding(o: Option<string>)
    ensures IfTruthy(o) == None <==> o == None || o == Some("")
    ensures IfTruthy(o).Some? ==> IfTruthy(o) == Some(Str(o.value))
  {
  }

  /** `scrape`: one GET to the base URL with the query above; status check, then the body. */
  method Scrape(w: ScraperApiWrapper, a: ScrapeArgs, http: HttpClient) returns (r: Result<string, string>)
    modifies http
    ensures http.sent == old(http.sent) + [ScrapeRequest(w.apiKey, a)]
    ensures r == SyncReply(http.respond(|old(http.sent)|, ScrapeRequest(w.apiKey, a)))
  {
    var params := BuildScrapeParams(w.apiKey, a);
    var outcome := http.Send(Request(BaseUrl, params));
    r := SyncReply(outcome);
  }

  /** `scrape_async`: the same request as `scrape`, answered by the non-blocking rule. */
  method ScrapeAsync(w: ScraperApiWrapper, a: ScrapeArgs, http: HttpClient) returns (r: Result<string, string>)
    modifies http
    ensures http.sent == old(http.sent) + [ScrapeRequest(w.apiKey, a)]
    ensures r == AsyncReply(http.respond(|old(http.sent)|, ScrapeRequest(w.apiKey, a)))
  {
    var params := BuildScrapeParams(w.apiKey, a);
    var outcome := http.Send(Request(BaseUrl, params));
    r := AsyncReply(outcome);
  }

  // ---------------------------------------------------------------------------
  // The structured endpoints (ScraperAPIStructuredWrapper)

  datatype ScraperApiStructuredWrapper = ScraperApiStructuredWrapper(apiKey: string)

  /** The request `_make_request` sends: `{api_key}` merged with the endpoint's
      parameters, every `None` dropped, to the structured base URL plus the endpoint.
      A falsy value that is not `None` (0, "") is kept. */
  function StructuredRequest(apiKey: string, endpoint: string, params: Dict<Option<Value>>): (r: Request)
    requires Distinct(params)
    ensures r.url == StructuredBaseUrl + endpoint
    ensures Distinct(r.query)
    ensures Keys(r.query) <= Keys(params) + {"api_key"}
    ensures forall k :: Get(r.query, k) ==
                        if Get(params, k).Some? then Get(params, k).value
                        else if k == "api_key" then Some(Str(apiKey))
                        else None
  {
    var base: Dict<Option<Value>> := [("api_key", Some(Str(apiKey)))];
    KeysCons(base);
    assert Keys(base[1..]) == {};
    assert forall k :: Get(base, k) == if k == "api_key" then Some(Some(Str(apiKey))) else None;
    var all := Merge(base, params);
    MergeShape(base, params);
    MergeGet(base, params);
    PresentGet(all);
    Request(StructuredBaseUrl + endpoint, Present(all))
  }

  /** `_make_request`. */
  method MakeRequest(w: ScraperApiStructuredWrapper, endpoint: string, params: Dict<Option<Value>>, http: HttpClient)
    returns (r: Result<string, string>)
    requires Distinct(params)
    modifies http
    ensures http.sent == old(http.sent) + [StructuredRequest(w.apiKey, endpoint, params)]
    ensures r == SyncReply(http.respond(|old(http.sent)|, StructuredRequest(w.apiKey, endpoint, params)))
  {
    var outcome := http.Send(StructuredRequest(w.apiKey, endpoint, params));
    r := SyncReply(outcome);
  }

  /** `_make_request_async`: the same request, answered by the non-blocking rule. */
  method MakeRequestAsync(w: ScraperApiStructuredWrapper, endpoint: string, params: Dict<Option<Value>>, http: HttpClient)
    returns (r: Result<string, string>)
    requires Distinct(params)
    modifies http
    ensures http.sent == old(http.sent) + [StructuredRequest(w.apiKey, endpoint, params)]
    ensures r == AsyncReply(http.respond(|old(http.sent)|, StructuredRequest(w.apiKey, endpoint, params)))
  {
    var outcome := http.Send(StructuredRequest(w.apiKey, endpoint, params));
    r := AsyncReply(outcome);
  }

  /** The closed set of output formats of the two search endpoints. */
  datatype SearchFormat = Json | Csv

  function SearchFormatLiteral(f: SearchFormat): string
  {
    match f
    case Json => "json"
    case Csv => "csv"
  }

  function OptStr(o: Option<string>): Option<Value>
  {
    if o.Some? then Some(Str(o.value)) else None
  }

  function OptInt(o: Option<int>): Option<Value>
  {
    if o.Some? then Some(Int(o.value)) else None
  }

  function OptFormat(o: Option<SearchFormat>): Option<Value>
  {
    if o.Some? then Some(Str(SearchFormatLiteral(o.value))) else None
  }

  /** The arguments of `google_search`; the Google tool's input schema has the same fields. */
  datatype GoogleSearchArgs = GoogleSearchArgs(
    query: string,
    countryCode: Option<string>,
    tld: Option<string>,
    outputFormat: Option<SearchFormat>,
    uule: Option<string>,
    num: Option<int>,
    hl: Option<string>,
    gl: Option<string>,
    ie: Option<string>,
    oe: Option<string>,
    start: Option<int>)

  /** The dictionary `google_search` hands to `_make_request`: every field under its own name. */
  function GoogleSearchParams(a: GoogleSearchArgs): Dict<Option<Value>>
  {
    [("query", Some(Str(a.query))),
     ("country_code", OptStr(a.countryCode)),
     ("tld", OptStr(a.tld)),
     ("output_format", OptFormat(a.outputFormat)),
     ("uule", OptStr(a.uule)),
     ("num", OptInt(a.num)),
     ("hl", OptStr(a.hl)),
     ("gl", OptStr(a.gl)),
     ("ie", OptStr(a.ie)),
     ("oe", OptStr(a.oe)),
     ("start", OptInt(a.start))]
  }

  const GoogleSearchKeys: set<string> :=
    {"api_key", "query", "country_code", "tld", "output_format", "uule", "num", "hl", "gl", "ie", "oe", "start"}

  lemma GoogleSearchParamsDistinct(a: GoogleSearchArgs)
    ensures Distinct(GoogleSearchParams(a))
  {
  }

  function GoogleSearchRequest(apiKey: string, a: GoogleSearchArgs): Request
  {
    GoogleSearchParamsDistinct(a);
    StructuredRequest(apiKey, GoogleSearchEndpoint, GoogleSearchParams(a))
  }

  /** Each field of `google_search` is in its dictionary under its own name. */
  lemma GoogleSearchParamsGet(a: GoogleSearchArgs)
    ensures Keys(GoogleSearchParams(a)) <= GoogleSearchKeys
    ensures Get(GoogleSearchParams(a), "api_key") == None
    ensures Get(GoogleSearchParams(a), "query") == Some(Some(Str(a.query)))
    ensures Get(GoogleSearchParams(a), "country_code") == Some(OptStr(a.countryCode))
    ensures Get(GoogleSearchParams(a), "tld") == Some(OptStr(a.tld))
    ensures Get(GoogleSearchParams(a), "output_format") == Some(OptFormat(a.outputFormat))
    ensures Get(GoogleSearchParams(a), "uule") == Some(OptStr(a.uule))
    ensures Get(GoogleSearchParams(a), "num") == Some(OptInt(a.num))
    ensures Get(GoogleSearchParams(a), "hl") == Some(OptStr(a.hl))
    ensures Get(GoogleSearchParams(a), "gl") == Some(OptStr(a.gl))
    ensures Get(GoogleSearchParams(a), "ie") == Some(OptStr(a.ie))
    ensures Get(GoogleSearchParams(a), "oe") == Some(OptStr(a.oe))
    ensures Get(GoogleSearchParams(a), "start") == Some(OptInt(a.start))
  {
    var g := GoogleSearchParams(a);
    GoogleSearchParamsDistinct(a);
    assert Keys(g) <= GoogleSearchKeys;
    GetKeys(g, "api_key");
    GetAt(g, 0);
    GetAt(g, 1);
    GetAt(g, 2);
    GetAt(g, 3);
    GetAt(g, 4);
    GetAt(g, 5);
    GetAt(g, 6);
    GetAt(g, 7);
    GetAt(g, 8);
    GetAt(g, 9);
    GetAt(g, 10);
  }

  /** `google_search` targets google/search and sends each field that is not `None`
      under its own name, and nothing but the key and those eleven names. */
  lemma GoogleSearchRequestContents(apiKey: string, a: GoogleSearchArgs)
    ensures GoogleSearchRequest(apiKey, a).url == StructuredBaseUrl + "google/search"
    ensures Keys(GoogleSearchRequest(apiKey, a).query) <= GoogleSearchKeys
    ensures Get(GoogleSearchRequest(apiKey, a).query, "api_key") == Some(Str(apiKey))
    ensures Get(GoogleSearchRequest(apiKey, a).query, "query") == Some(Str(a.query))
    ensures Get(GoogleSearchRequest(apiKey, a).query, "country_code") == OptStr(a.countryCode)
    ensures Get(GoogleSearchRequest(apiKey, a).query, "tld") == OptStr(a.tld)
    ensures Get(GoogleSearchRequest(apiKey, a).query, "output_format") == OptFormat(a.outputFormat)
    ensures Get(GoogleSearchRequest(apiKey, a).query, "uule") == OptStr(a.uule)
    ensures Get(GoogleSearchRequest(apiKey, a).query, "num") == OptInt(a.num)
    ensures Get(GoogleSearchRequest(apiKey, a).query, "hl") == OptStr(a.hl)
    ensures Get(GoogleSearchRequest(apiKey, a).query, "gl") == OptStr(a.gl)
    ensures Get(GoogleSearchRequest(apiKey, a).query, "ie") == OptStr(a.ie)
    ensures Get(GoogleSearchRequest(apiKey, a).query, "oe") == OptStr(a.oe)
    ensures Get(GoogleSearchRequest(apiKey, a).query, "start") == OptInt(a.start)
  {
    GoogleSearchParamsGet(a);
  }

  method GoogleSearch(w: ScraperApiStructuredWrapper, a: GoogleSearchArgs, http: HttpClient)
    returns (r: Result<string, string>)
    modifies http
    ensures http.sent == old(http.sent) + [GoogleSearchRequest(w.apiKey, a)]
    ensures r == SyncReply(http.respond(|old(http.sent)|, GoogleSearchRequest(w.apiKey, a)))
  {
    GoogleSearchParamsDistinct(a);
    r := MakeRequest(w, GoogleSearchEndpoint, GoogleSearchParams(a), http);
  }

  method GoogleSearchAsync(w: ScraperApiStructuredWrapper, a: GoogleSearchArgs, http: HttpClient)
    returns (r: Result<string, string>)
    modifies http
    ensures http.sent == old(http.sent) + [GoogleSearchRequest(w.apiKey, a)]
    ensures r == AsyncReply(http.respond(|old(http.sent)|, GoogleSearchRequest(w.apiKey, a)))
  {
    GoogleSearchParamsDistinct(a);
    r := MakeRequestAsync(w, GoogleSearchEndpoint, GoogleSearchParams(a), http);
  }

  /** The arguments of `amazon_search`; the Amazon tool's input schema has the same fields. */
  datatype AmazonSearchArgs = AmazonSearchArgs(
    query: string,
    countryCode: Option<string>,
    tld: Option<string>,
    outputFormat: Option<SearchFormat>,
    page: Option<int>)

  /** The dictionary `amazon_search` hands to `_make_request`; `country_code` travels as `country`. */
  function AmazonSearchParams(a: AmazonSearchArgs): Dict<Option<Value>>
  {
    [("query", Some(Str(a.query))),
     ("country", OptStr(a.countryCode)),
     ("tld", OptStr(a.tld)),
     ("output_format", OptFormat(a.outputFormat)),
     ("page", OptInt(a.page))]
  }

  const AmazonSearchKeys: set<string> := {"api_key", "query", "country", "tld", "output_format", "page"}

  lemma AmazonSearchParamsDistinct(a: AmazonSearchArgs)
    ensures Distinct(AmazonSearchParams(a))
  {
  }

  function AmazonSearchRequest(apiKey: string, a: AmazonSearchArgs): Request
  {
    AmazonSearchParamsDistinct(a);
    StructuredRequest(apiKey, AmazonSearchEndpoint, AmazonSearchParams(a))
  }

  /** Each field of `amazon_search` is in its dictionary, the country code under `country`. */
  lemma AmazonSearchParamsGet(a: AmazonSearchArgs)
    ensures Keys(AmazonSearchParams(a)) <= AmazonSearchKeys
    ensures Get(AmazonSearchParams(a), "api_key") == None
    ensures Get(AmazonSearchParams(a), "query") == Some(Some(Str(a.query)))
    ensures Get(AmazonSearchParams(a), "country") == Some(OptStr(a.countryCode))
    ensures Get(AmazonSearchParams(a), "tld") == Some(OptStr(a.tld))
    ensures Get(AmazonSearchParams(a), "output_format") == Some(OptFormat(a.outputFormat))
    ensures Get(AmazonSearchParams(a), "page") == Some(OptInt(a.page))
  {
    var p := AmazonSearchParams(a);
    AmazonSearchParamsDistinct(a);
    assert Keys(p) <= AmazonSearchKeys;
    GetKeys(p, "api_key");
    GetAt(p, 0);
    GetAt(p, 1);
    GetAt(p, 2);
    GetAt(p, 3);
    GetAt(p, 4);
  }

  /** `amazon_search` targets amazon/search, sends the country code under `country`
      and never under `country_code`, and passes the other fields under their own names. */
  lemma AmazonSearchRequestContents(apiKey: string, a: AmazonSearchArgs)
    ensures AmazonSearchRequest(apiKey, a).url == StructuredBaseUrl + "amazon/search"
    ensures Keys(AmazonSearchRequest(apiKey, a).query) <= AmazonSearchKeys
    ensures "country_code" !in Keys(AmazonSearchRequest(apiKey, a).query)
    ensures Get(AmazonSearchRequest(apiKey, a).query, "api_key") == Some(Str(apiKey))
    ensures Get(AmazonSearchRequest(apiKey, a).query, "query") == Some(Str(a.query))
    ensures Get(AmazonSearchRequest(apiKey, a).query, "country") == OptStr(a.countryCode)
    ensures Get(AmazonSearchRequest(apiKey, a).query, "tld") == OptStr(a.tld)
    ensures Get(AmazonSearchRequest(apiKey, a).query, "output_format") == OptFormat(a.outputFormat)
    ensures Get(AmazonSearchRequest(apiKey, a).query, "page") == OptInt(a.page)
  {
    AmazonSearchParamsGet(a);
  }

  method AmazonSearch(w: ScraperApiStructuredWrapper, a: AmazonSearchArgs, http: HttpClient)
    returns (r: Result<string, string>)
    modifies http
    ensures http.sent == old(http.sent) + [AmazonSearchRequest(w.apiKey, a)]
    ensures r == SyncReply(http.respond(|old(http.sent)|, AmazonSearchRequest(w.apiKey, a)))
  {
    AmazonSearchParamsDistinct(a);
    r := MakeRequest(w, AmazonSearchEndpoint, AmazonSearchParams(a), http);
  }

  method AmazonSearchAsync(w: ScraperApiStructuredWrapper, a: AmazonSearchArgs, http: HttpClient)
    returns (r: Result<string, string>)
    modifies http
    ensures http.sent == old(http.sent) + [AmazonSearchRequest(w.apiKey, a)]
    ensures r == AsyncReply(http.respond(|old(http.sent)|, AmazonSearchRequest(w.apiKey, a)))
  {
    AmazonSearchParamsDistinct(a);
    r := MakeRequestAsync(w, AmazonSearchEndpoint, AmazonSearchParams(a), http);
  }
}
