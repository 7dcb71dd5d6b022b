/** The three agent tools of langchain_scraperapi/tools.py: each validates its
    input against a closed schema, forwards the fields by keyword to one wrapper
    call, and turns whatever that call yields into the string the agent sees. */
module Tools {
  import opened Wrappers
  import opened Dicts
  import opened ScraperApi

  const ScrapeToolName: string := "scraperapi"
  const GoogleSearchToolName: string := "scraperapi_google_search"
  const AmazonSearchToolName: string := "scraperapi_amazon_search"

  /** No two tools share a name, so an agent can route each call unambiguously. */
  lemma ToolNamesDistinct()
    ensures ScrapeToolName != GoogleSearchToolName
    ensures ScrapeToolName != AmazonSearchToolName
    ensures GoogleSearchToolName != AmazonSearchToolName
  {
  }

  // ---------------------------------------------------------------------------
  // Closed literal sets of the input schemas

  /** `Literal["text", "markdown"]` of the scrape tool's `output_format`. */
  datatype ScrapeFormat = Text | Markdown

  function ScrapeFormatLiteral(f: ScrapeFormat): string
  {
    match f
    case Text => "text"
    case Markdown => "markdown"
  }

  /** Schema validation of `output_format`: only the two literals are accepted. */
  function ParseScrapeFormat(s: string): (r: Option<ScrapeFormat>)
    ensures r.Some? <==> s == "text" || s == "markdown"
    ensures r.Some? ==> ScrapeFormatLiteral(r.value) == s
  {
    if s == "text" then Some(Text)
    else if s == "markdown" then Some(Markdown)
    else None
  }

  lemma ScrapeFormatRoundTrip(f: ScrapeFormat)
    ensures ParseScrapeFormat(ScrapeFormatLiteral(f)) == Some(f)
    ensures ScrapeFormatLiteral(f) != ""
  {
  }

  /** `Literal["desktop", "mobile"]` of the scrape tool's `device_type`. */
  datatype DeviceType = Desktop | Mobile

  function DeviceTypeLiteral(d: DeviceType): string
  {
    match d
    case Desktop => "desktop"
    case Mobile => "mobile"
  }

  function ParseDeviceType(s: string): (r: Option<DeviceType>)
    ensures r.Some? <==> s == "desktop" || s == "mobile"
    ensures r.Some? ==> DeviceTypeLiteral(r.value) == s
  {
    if s == "desktop" then Some(Desktop)
    else if s == "mobile" then Some(Mobile)
    else None
  }

  lemma DeviceTypeRoundTrip(d: DeviceType)
    ensures ParseDeviceType(DeviceTypeLiteral(d)) == Some(d)
    ensures DeviceTypeLiteral(d) != ""
  {
  }

  /** `Literal["json", "csv"]` of the two search tools' `output_format`. */
  function ParseSearchFormat(s: string): (r: Option<SearchFormat>)
    ensures r.Some? <==> s == "json" || s == "csv"
    ensures r.Some? ==> SearchFormatLiteral(r.value) == s
  {
    if s == "json" then Some(Json)
    else if s == "csv" then Some(Csv)
    else None
  }

  lemma SearchFormatRoundTrip(f: SearchFormat)
    ensures ParseSearchFormat(SearchFormatLiteral(f)) == Some(f)
  {
  }

  // ---------------------------------------------------------------------------
  // Forwarding

  /** The validated input of the scrape tool: `url` is required, everything else optional.
      The two search tools' inputs have exactly the fields of their wrapper methods, so
      `GoogleSearchArgs` and `AmazonSearchArgs` serve for them as they are. */
  datatype ScrapeToolInput = ScrapeToolInput(
    url: string,
    outputFormat: Option<ScrapeFormat>,
    countryCode: Option<string>,
    deviceType: Option<DeviceType>,
    premium: Option<bool>,
    render: Option<bool>,
    keepHeaders: Option<bool>)

  /** The keyword arguments `_run` passes to `scrape`: each field under its own
      name, a chosen literal as its string, an unset field as `None`. */
  function ScrapeToolCall(i: ScrapeToolInput): (a: ScrapeArgs)
    ensures a.url == i.url && a.countryCode == i.countryCode
    ensures a.premium == i.premium && a.render == i.render && a.keepHeaders == i.keepHeaders
    ensures a.outputFormat.None? <==> i.outputFormat.None?
    ensures a.outputFormat.Some? ==> ParseScrapeFormat(a.outputFormat.value) == i.outputFormat
    ensures a.deviceType.None? <==> i.deviceType.None?
    ensures a.deviceType.Some? ==> ParseDeviceType(a.deviceType.value) == i.deviceType
  {
    ScrapeArgs(
      i.url,
      if i.outputFormat.Some? then Some(ScrapeFormatLiteral(i.outputFormat.value)) else None,
      i.countryCode,
      if i.deviceType.Some? then Some(DeviceTypeLiteral(i.deviceType.value)) else None,
      i.premium,
      i.render,
      i.keepHeaders)
  }

  /** Forwarding loses nothing: two inputs that make the same wrapper call are the same input. */
  lemma ScrapeToolCallInjective(i: ScrapeToolInput, j: ScrapeToolInput)
    ensures ScrapeToolCall(i) == ScrapeToolCall(j) ==> i == j
  {
    if ScrapeToolCall(i) == ScrapeToolCall(j) {
      assert i.outputFormat == j.outputFormat;
      assert i.deviceType == j.deviceType;
    }
  }

  /** Through the tool, a chosen output format or device type always reaches the
      wire under its own name (its literal is never the empty string), and an unset one never does. */
  lemma ScrapeToolSendsChoices(apiKey: string, i: ScrapeToolInput)
    ensures Get(ScrapeQuery(apiKey, ScrapeToolCall(i)), "url") == Some(Str(i.url))
    ensures Get(ScrapeQuery(apiKey, ScrapeToolCall(i)), "output_format") ==
      if i.outputFormat.Some? then Some(Str(ScrapeFormatLiteral(i.outputFormat.value))) else None
    ensures Get(ScrapeQuery(apiKey, ScrapeToolCall(i)), "device_type") ==
      if i.deviceType.Some? then Some(Str(DeviceTypeLiteral(i.deviceType.value))) else None
  {
    ScrapeQueryContents(apiKey, ScrapeToolCall(i));
    if i.outputFormat.Some? {
      ScrapeFormatRoundTrip(i.outputFormat.value);
    }
    if i.deviceType.Some? {
      DeviceTypeRoundTrip(i.deviceType.value);
    }
  }

  // ---------------------------------------------------------------------------
  // The error-to-string facade

  /** What `_run` and `_arun` return for a wrapper outcome: the text unchanged on
      success, `"Error: "` followed by the exception's message on any failure. */
  function Observation(r: Result<string, string>): (s: string)
    ensures r.Err? ==> |s| >= 7 && s[..7] == "Error: " && s[7..] == r.error
    ensures r.Ok? ==> s == r.value
  {
    match r
    case Ok(text) => text
    case Err(message) => "Error: " + message
  }

  /** The agent cannot tell a failure from a page whose text happens to start with
      `"Error: "`: both give the same string. */
  lemma ObservationAmbiguous(message: string)
    ensures Observation(Ok("Error: " + message)) == Observation(Err(message))
  {
  }

  /** A failure's message can be read back from the observation. */
  lemma ObservationErrRecoverable(m1: string, m2: string)
    ensures Observation(Err(m1)) == Observation(Err(m2)) ==> m1 == m2
  {
    var s1 := Observation(Err(m1));
    var s2 := Observation(Err(m2));
    if s1 == s2 {
      assert s1[7..] == m1 && s2[7..] == m2;
    }
  }

  /** What the non-blocking tool method returns when the wrapper runs as written:
      a string, or Python's `None` when the wrapper returned nothing. */
  function ObservationAsWritten(v: AsyncValue): (s: Option<string>)
    ensures v.Returned? ==> s == Some(Observation(Ok(v.text)))
    ensures v.Raised? ==> s == Some(Observation(Err(v.message)))
    ensures v.NoText? ==> s == None
  {
    match v
    case Returned(text) => Some(text)
    case Raised(message) => Some("Error: " + message)
    case NoText => None
  }

  /** As written, an asynchronous tool call answered with 204 returns no string at
      all, although its declared result type is a string; the corrected path
      returns the (empty) body, as the blocking path does. */
  lemma ArunAsWrittenReturnsNothing()
    ensures ObservationAsWritten(AsyncReplyAsWritten(Reply(204, "", "", ""))) == None
    ensures Observation(AsyncReply(Reply(204, "", "", ""))) == ""
    ensures Observation(SyncReply(Reply(204, "", "", ""))) == ""
  {
    AsyncReplyAsWrittenLosesSuccess();
  }

  // ---------------------------------------------------------------------------
  // The tools

  datatype ScraperApiTool = ScraperApiTool(apiWrapper: ScraperApiWrapper)
  datatype ScraperApiGoogleSearchTool = ScraperApiGoogleSearchTool(apiWrapper: ScraperApiStructuredWrapper)
  datatype ScraperApiAmazonSearchTool = ScraperApiAmazonSearchTool(apiWrapper: ScraperApiStructuredWrapper)

  /** `ScraperAPITool._run`: one `scrape` call, its outcome as a string. */
  method RunScrapeTool(t: ScraperApiTool, i: ScrapeToolInput, http: HttpClient) returns (observation: string)
    modifies http
    ensures http.sent == old(http.sent) + [ScrapeRequest(t.apiWrapper.apiKey, ScrapeToolCall(i))]
    ensures observation ==
      Observation(SyncReply(http.respond(|old(http.sent)|, ScrapeRequest(t.apiWrapper.apiKey, ScrapeToolCall(i)))))
  {
    var r := Scrape(t.apiWrapper, ScrapeToolCall(i), http);
    observation := Observation(r);
  }

  /** `ScraperAPITool._arun`: one `scrape_async` call, its outcome as a string. */
  method ArunScrapeTool(t: ScraperApiTool, i: ScrapeToolInput, http: HttpClient) returns (observation: string)
    modifies http
    ensures http.sent == old(http.sent) + [ScrapeRequest(t.apiWrapper.apiKey, ScrapeToolCall(i))]
    ensures observation ==
      Observation(AsyncReply(http.respond(|old(http.sent)|, ScrapeRequest(t.apiWrapper.apiKey, ScrapeToolCall(i)))))
  {
    var r := ScrapeAsync(t.apiWrapper, ScrapeToolCall(i), http);
    observation := Observation(r);
  }

  /** `ScraperAPIGoogleSearchTool._run`: the eleven fields forwarded unchanged to `google_search`. */
  method RunGoogleSearchTool(t: ScraperApiGoogleSearchTool, i: GoogleSearchArgs, http: HttpClient)
    returns (observation: string)
    modifies http
    ensures http.sent == old(http.sent) + [GoogleSearchRequest(t.apiWrapper.apiKey, i)]
    ensures observation ==
      Observation(SyncReply(http.respond(|old(http.sent)|, GoogleSearchRequest(t.apiWrapper.apiKey, i))))
  {
    var r := GoogleSearch(t.apiWrapper, i, http);
    observation := Observation(r);
  }

  /** `ScraperAPIGoogleSearchTool._arun`. */
  method ArunGoogleSearchTool(t: ScraperApiGoogleSearchTool, i: GoogleSearchArgs, http: HttpClient)
    returns (observation: string)
    modifies http
    ensures http.sent == old(http.sent) + [GoogleSearchRequest(t.apiWrapper.apiKey, i)]
    ensures observation ==
      Observation(AsyncReply(http.respond(|old(http.sent)|, GoogleSearchRequest(t.apiWrapper.apiKey, i))))
  {
    var r := GoogleSearchAsync(t.apiWrapper, i, http);
    observation := Observation(r);
  }

  /** `ScraperAPIAmazonSearchTool._run`: `country_code` is passed under its own name;
      only the wrapper renames it to `country`. */
  method RunAmazonSearchTool(t: ScraperApiAmazonSearchTool, i: AmazonSearchArgs, http: HttpClient)
    returns (observation: string)
    modifies http
    ensures http.sent == old(http.sent) + [AmazonSearchRequest(t.apiWrapper.apiKey, i)]
    ensures observation ==
      Observation(SyncReply(http.respond(|old(http.sent)|, AmazonSearchRequest(t.apiWrapper.apiKey, i))))
  {
    var r := AmazonSearch(t.apiWrapper, i, http);
    observation := Observation(r);
  }

  /** `ScraperAPIAmazonSearchTool._arun`. */
  method ArunAmazonSearchTool(t: ScraperApiAmazonSearchTool, i: AmazonSearchArgs, http: HttpClient)
    returns (observation: string)
    modifies http
    ensures http.sent == old(http.sent) + [AmazonSearchRequest(t.apiWrapper.apiKey, i)]
    ensures observation ==
      Observation(AsyncReply(http.respond(|old(http.sent)|, AmazonSearchRequest(t.apiWrapper.apiKey, i))))
  {
    var r := AmazonSearchAsync(t.apiWrapper, i, http);
    observation := Observation(r);
  }
}
