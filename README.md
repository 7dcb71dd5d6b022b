# langchain-scraperapi: request builder and tool facade

This project models the core of `langchain-scraperapi` in Dafny. The package is an
adapter: it lets a LangChain agent call the ScraperAPI scraping service through
three tools. The model covers two things.

- **The request wrappers** (`langchain_scraperapi/utils.py`).
  - `ScraperAPIWrapper.scrape` / `scrape_async` build the query of one GET to
    `https://api.scraperapi.com/`. The key and the URL always go in. Each string
    option goes in only when it is truthy. Each tri-state flag goes in as `"true"` or
    `"false"` whenever it is set.
  - `ScraperAPIStructuredWrapper._make_request` / `_make_request_async` merge
    `{api_key}` with an endpoint's parameters and drop every `None`. They send one
    GET to `https://api.scraperapi.com/structured/` followed by the endpoint.
  - `google_search*` pass eleven fields under their own names.
  - `amazon_search*` pass five fields and send `country_code` under the key `country`.
  - Reply handling. The blocking path runs `raise_for_status` and then returns the
    body. The non-blocking path returns the body at once for status 200, and
    otherwise runs `raise_for_status`.
- **The tool facade** (`langchain_scraperapi/tools.py`).
  - The three tools are named `scraperapi`, `scraperapi_google_search` and
    `scraperapi_amazon_search`.
  - Their input schemas use closed literal sets.
  - Each `_run` / `_arun` forwards its fields to one wrapper call. It returns the
    text unchanged, or `"Error: "` followed by the exception text.

Layout:

- `wrappers.dfy`: `Option` and `Result`.
- `dicts.dfy`: Python's insertion-ordered `dict`, as a sequence of entries.
  - `Put` is `d[k] = v`: it replaces an existing key in place and appends a new one.
  - `Merge` is `{**a, **b}`.
  - `Present` is `{k: v for k, v in d.items() if v is not None}`.
- `scraper_api.dfy`: `utils.py`.
- `tools.dfy`: `tools.py`.

The transport is a class `HttpClient` with a log `sent` of every GET. The `n`-th GET
is answered by an oracle `respond(n, request)`, which yields either a reply (status,
body) or a transport failure. Each outcome also carries the text of the exception
each library would raise for it, one text for `requests` and one for `aiohttp`, since
the two word their exceptions differently. Every
wrapper and tool method is proved to append exactly one request to the log: the
request its arguments determine. Its result is proved to be the reply rule applied to
what the oracle answered for that request. A sync method and its async twin append the
same request.

Two library behaviours are taken as given:

- `requests`' `raise_for_status` raises for status 400 to 599.
- `aiohttp`'s raises for any status of 400 or more.

An exception becomes `Err(message)`, where `message` is what `str(e)` yields.

## Model

| member | source | states |
|---|---|---|
| ScraperApi.HttpClient.Send | langchain_scraperapi/utils.py:80 | one GET: the request is appended to the log and the call is answered by the oracle for its position |
| ScraperApi.RequestsRejects | langchain_scraperapi/utils.py:81 | the status rule of `requests`' `raise_for_status`: it raises for 400 to 599 |
| ScraperApi.AiohttpRejects | langchain_scraperapi/utils.py:131 | the status rule of `aiohttp`'s `raise_for_status`: it raises for 400 and above |
| ScraperApi.SyncReply | langchain_scraperapi/utils.py:80-82 | the blocking path succeeds exactly on a reply whose status passes `raise_for_status`, with the body verbatim; a transport failure or a 4xx/5xx gives the text of `requests`' exception |
| ScraperApi.AsyncReplyAsWritten | langchain_scraperapi/utils.py:126-131 | as written, the non-blocking path returns the body exactly for status 200, returns nothing exactly for a status other than 200 that the status check lets through (below 400), and otherwise raises with `aiohttp`'s text |
| ScraperApi.AsyncReplyAsWrittenReadsBodyOnlyOn200 | langchain_scraperapi/utils.py:126-131 | as written, the non-blocking path yields the body for status 200 and never reads the body for any other status |
| ScraperApi.AsyncReplyAsWrittenLosesSuccess | langchain_scraperapi/utils.py:128-131 | as written, a 204 reply makes the non-blocking path return nothing, where the blocking path returns the empty body |
| ScraperApi.AsyncReply | langchain_scraperapi/utils.py:126-131 | corrected non-blocking rule: status 200 gives the body; it succeeds exactly on a reply below 400, with the body; it fails with `aiohttp`'s text; it agrees with the as-written path whenever that path returns or raises |
| ScraperApi.AsyncReplyAgreesWithSync | langchain_scraperapi/utils.py:80-82 | the corrected non-blocking rule succeeds exactly when the blocking rule does, for every transport failure and every status below 600, and then with the same body; at 600 and above only the non-blocking one fails |
| ScraperApi.ScrapeFieldsDistinct | langchain_scraperapi/utils.py:62-78 | the candidate parameters of `scrape` have pairwise distinct names |
| ScraperApi.ScrapeQuery | langchain_scraperapi/utils.py:62-78 | the query of `scrape`: the eight candidate parameters in source order, the absent ones dropped (its meaning is stated by `ScrapeQueryContents` and `ScrapeQueryAssigned`) |
| ScraperApi.ScrapeQueryFirstFive | langchain_scraperapi/utils.py:62-72 | dropping the absent entries among the key, the URL and the three string options is the same as the display followed by the three conditional assignments |
| ScraperApi.ScrapeQueryAssigned | langchain_scraperapi/utils.py:62-78 | the query of `scrape` (candidates with the absent ones dropped) equals the display followed by the six conditional assignments, in source order |
| ScraperApi.BuildScrapeParams | langchain_scraperapi/utils.py:62-78 | the dictionary built step by step in place is exactly the query of `scrape`, entries in insertion order |
| ScraperApi.ScrapeQueryUrlOnly | langchain_scraperapi/utils.py:62-65 | with only a URL, the query is exactly `[api_key, url]`, the key being the held credential |
| ScraperApi.ScrapeQueryContents | langchain_scraperapi/utils.py:62-78 | key by key: the key and URL always; each string option under its own name exactly when truthy, unchanged; each flag as "true"/"false" exactly when set; no other key, none twice |
| ScraperApi.ScrapeFlagEncoding | langchain_scraperapi/utils.py:73-78 | a flag on the wire tells its three states apart: unset is absent, `True` is "true", `False` is "false" and still sent |
| ScraperApi.ScrapeOptionEncoding | langchain_scraperapi/utils.py:67-72 | a string option is dropped exactly when it is `None` or empty, and otherwise sent unchanged |
| ScraperApi.Scrape | langchain_scraperapi/utils.py:62-82 | one GET to the base URL with the query of `scrape`; the result is the blocking rule on the oracle's answer to it |
| ScraperApi.ScrapeAsync | langchain_scraperapi/utils.py:108-131 | the same single GET as `scrape`, with the same query; the result is the non-blocking rule on the answer |
| ScraperApi.StructuredRequest | langchain_scraperapi/utils.py:156-161 | the URL is the structured base plus the endpoint; each key of the merged map with a non-`None` value is sent with it (falsy values such as 0 or "" included); `api_key` is the credential unless the endpoint's map overrides it; a key with value `None` is absent; no key twice |
| ScraperApi.MakeRequest | langchain_scraperapi/utils.py:154-164 | one GET of the structured request; the blocking rule on its answer |
| ScraperApi.MakeRequestAsync | langchain_scraperapi/utils.py:166-179 | the same single GET as `_make_request`; the non-blocking rule on its answer |
| ScraperApi.GoogleSearchParams | langchain_scraperapi/utils.py:213-225 | the dictionary display of `google_search`, each field under its own name, `None` kept until `_make_request` drops it (its meaning is stated by `GoogleSearchParamsGet`) |
| ScraperApi.GoogleSearchParamsDistinct | langchain_scraperapi/utils.py:213-225 | the eleven names of the Google dictionary are pairwise distinct |
| ScraperApi.GoogleSearchParamsGet | langchain_scraperapi/utils.py:213-225 | the Google dictionary holds each of the eleven fields under its own name, and no `api_key` |
| ScraperApi.GoogleSearchRequestContents | langchain_scraperapi/utils.py:213-226 | `google_search` targets google/search, sends each non-`None` field under its own name and no key beyond `api_key` and those eleven |
| ScraperApi.GoogleSearch | langchain_scraperapi/utils.py:181-226 | one GET of the Google request; the blocking rule on its answer |
| ScraperApi.GoogleSearchAsync | langchain_scraperapi/utils.py:228-273 | the same single GET as `google_search`; the non-blocking rule on its answer |
| ScraperApi.AmazonSearchParams | langchain_scraperapi/utils.py:295-301 | the dictionary display of `amazon_search`, the country code under `country` (its meaning is stated by `AmazonSearchParamsGet`) |
| ScraperApi.AmazonSearchParamsDistinct | langchain_scraperapi/utils.py:295-301 | the five names of the Amazon dictionary are pairwise distinct |
| ScraperApi.AmazonSearchParamsGet | langchain_scraperapi/utils.py:295-301 | the Amazon dictionary holds the country code under `country` and the other fields under their own names |
| ScraperApi.AmazonSearchRequestContents | langchain_scraperapi/utils.py:295-302 | `amazon_search` targets amazon/search, sends the country code under `country` and never a `country_code` key, and the other non-`None` fields under their own names |
| ScraperApi.AmazonSearch | langchain_scraperapi/utils.py:275-302 | one GET of the Amazon request; the blocking rule on its answer |
| ScraperApi.AmazonSearchAsync | langchain_scraperapi/utils.py:304-331 | the same single GET as `amazon_search`; the non-blocking rule on its answer |
| Dicts.GetKeys | langchain_scraperapi/utils.py:62-78 | a key has a value in the dictionary exactly when it is one of its keys |
| Dicts.GetAt | langchain_scraperapi/utils.py:213-225 | in a dictionary display without repeated keys each entry is what a lookup finds |
| Dicts.Put | langchain_scraperapi/utils.py:67-78 | `d[k] = v` on an insertion-ordered dictionary (its meaning is stated by `PutGet`, `PutShape` and `PutInPlace`) |
| Dicts.PutGet | langchain_scraperapi/utils.py:67-78 | after `d[k] = v`, `k` maps to `v` and every other key is unchanged |
| Dicts.PutShape | langchain_scraperapi/utils.py:67-78 | `d[k] = v` adds exactly `k` to the keys, and for a new key appends the entry at the end |
| Dicts.PutInPlace | langchain_scraperapi/utils.py:67-78 | `d[k] = v` on an existing key keeps the length and the position of every key |
| Dicts.PutDistinct | langchain_scraperapi/utils.py:67-78 | assignment never repeats a key |
| Dicts.Merge | langchain_scraperapi/utils.py:157 | `{**a, **b}`: `b`'s entries assigned over `a` in order (its meaning is stated by `MergeGet` and `MergeShape`) |
| Dicts.MergeGet | langchain_scraperapi/utils.py:157 | in `{**a, **b}` a key takes `b`'s value when `b` has it and `a`'s otherwise |
| Dicts.MergeShape | langchain_scraperapi/utils.py:157 | the keys of `{**a, **b}` are those of `a` and `b`, none twice |
| Dicts.Present | langchain_scraperapi/utils.py:159 | the comprehension dropping every `None` value, order kept (its meaning is stated by `PresentGet` and `PresentAppend`) |
| Dicts.PresentGet | langchain_scraperapi/utils.py:159 | the filter keeps no new key and repeats none; each key keeps its value when it is not `None` and is absent otherwise |
| Dicts.PresentAppend | langchain_scraperapi/utils.py:159 | filtering one more entry appends it exactly when its value is not `None` |
| Dicts.PresentStep | langchain_scraperapi/utils.py:159 | filtering a prefix one entry further is a fresh assignment of that entry when present, and nothing otherwise |
| Tools.ToolNamesDistinct | langchain_scraperapi/tools.py:97 | the three tool names are pairwise distinct |
| Tools.ParseScrapeFormat | langchain_scraperapi/tools.py:24-27 | the scrape tool's `output_format` accepts exactly "text" and "markdown" |
| Tools.ScrapeFormatRoundTrip | langchain_scraperapi/tools.py:24-27 | each scrape format's literal parses back to it and is never empty |
| Tools.ParseDeviceType | langchain_scraperapi/tools.py:32-35 | `device_type` accepts exactly "desktop" and "mobile" |
| Tools.DeviceTypeRoundTrip | langchain_scraperapi/tools.py:32-35 | each device type's literal parses back to it and is never empty |
| Tools.ParseSearchFormat | langchain_scraperapi/tools.py:176-178 | the search tools' `output_format` accepts exactly "json" and "csv" |
| Tools.SearchFormatRoundTrip | langchain_scraperapi/tools.py:333-335 | each search format's literal parses back to it |
| Tools.ScrapeToolCall | langchain_scraperapi/tools.py:124-132 | `_run` forwards every field under its own name: strings and flags unchanged, a chosen literal as its string, an unset field as `None` |
| Tools.ScrapeToolCallInjective | langchain_scraperapi/tools.py:124-132 | two tool inputs that make the same wrapper call are the same input |
| Tools.ScrapeToolSendsChoices | langchain_scraperapi/tools.py:124-132 | through the tool, a chosen output format or device type always reaches the wire under its own name, and an unset one never does |
| Tools.Observation | langchain_scraperapi/tools.py:123-134 | success returns the wrapper's text unchanged; any failure returns "Error: " followed by the message |
| Tools.ObservationAmbiguous | langchain_scraperapi/tools.py:133-134 | a page whose text is "Error: " + m is indistinguishable from a failure with message m |
| Tools.ObservationErrRecoverable | langchain_scraperapi/tools.py:159-160 | two failures give the same observation only if their messages are equal |
| Tools.ObservationAsWritten | langchain_scraperapi/tools.py:149-160 | as written, `_arun` passes on the wrapper's `None` instead of a string |
| Tools.ArunAsWrittenReturnsNothing | langchain_scraperapi/tools.py:149-158 | as written, a 204 reply makes the scrape tool's `_arun` return no string; corrected, it returns the empty body as `_run` does |
| Tools.RunScrapeTool | langchain_scraperapi/tools.py:123-134 | one wrapper call, so exactly one GET of the scrape request for the forwarded arguments; the observation of the blocking result |
| Tools.ArunScrapeTool | langchain_scraperapi/tools.py:149-160 | one GET of the same request as `_run`; the observation of the non-blocking result |
| Tools.RunGoogleSearchTool | langchain_scraperapi/tools.py:267-282 | the eleven fields forwarded unchanged, one GET of the Google request, the observation of the blocking result |
| Tools.ArunGoogleSearchTool | langchain_scraperapi/tools.py:301-316 | one GET of the same Google request; the observation of the non-blocking result |
| Tools.RunAmazonSearchTool | langchain_scraperapi/tools.py:401-410 | `country_code` forwarded under its own name, one GET of the Amazon request, the observation of the blocking result |
| Tools.ArunAmazonSearchTool | langchain_scraperapi/tools.py:423-432 | one GET of the same Amazon request; the observation of the non-blocking result |

## Left out

- HTTP transport. `requests.get`, `aiohttp.ClientSession`, their context managers and the URL encoding of the query string are foreign libraries. They are represented by the `HttpClient` oracle and the two status rules.
- Exception texts. How `requests` and `aiohttp` word their exceptions is not modelled. The oracle supplies each library's text with each outcome.
- Timeouts. `requests.get` is called without a timeout (langchain_scraperapi/utils.py:80, 162), so the blocking call can wait for ever. The oracle always answers, so the model does not capture a call that never returns.
- ScraperApi.ScrapeAsync: uses the corrected reply rule `AsyncReply`. As written (langchain_scraperapi/utils.py:128-131) any non-200 status below 400 makes it return `None`; see the Findings section and `AsyncReplyAsWritten`.
- ScraperApi.MakeRequestAsync: uses the corrected reply rule `AsyncReply`. As written (langchain_scraperapi/utils.py:176-179) any non-200 status below 400 makes it return `None`; see the Findings section.
- ScraperApi.GoogleSearchAsync: returns what `MakeRequestAsync` returns, so it uses the corrected rule too; as written it returns `None` for a non-200 status below 400.
- ScraperApi.AmazonSearchAsync: returns what `MakeRequestAsync` returns, so it uses the corrected rule too; as written it returns `None` for a non-200 status below 400.
- Tools.ArunScrapeTool: observes the corrected rule. As written, `_arun` (langchain_scraperapi/tools.py:150) returns the wrapper's `None` for a non-200 status below 400; `ObservationAsWritten` and `ArunAsWrittenReturnsNothing` state that behaviour.
- Tools.ArunGoogleSearchTool: observes the corrected rule; as written (langchain_scraperapi/tools.py:302) it returns `None` for a non-200 status below 400.
- Tools.ArunAmazonSearchTool: observes the corrected rule; as written (langchain_scraperapi/tools.py:424) it returns `None` for a non-200 status below 400.
- async/await and the session lifecycle. Each async twin is modelled as the same request construction plus the non-blocking reply rule.
- Credential sourcing. `get_from_dict_or_env`, the `SCRAPERAPI_API_KEY` environment variable and `SecretStr` (langchain_scraperapi/utils.py:27-36, 143-152) are not modelled. The wrapper holds a plain key string.
- Schema validation machinery. pydantic's validation, LangChain's `BaseTool.invoke` and the `run_manager` callbacks are foreign. Only their outcome is modelled: the enum and option types of the tool inputs, and the `Parse*` functions for the closed literal sets.
- Tool `description` strings and docstrings. They have no behaviour.
- Type of the structured parameters. `_make_request` accepts any `Dict[str, Any]`. The model accepts string and integer values, which is all its callers pass.

## Findings

| source | as written | input that shows it | evidently intended | confidence | as-written member | corrected member |
|---|---|---|---|---|---|---|
| langchain_scraperapi/utils.py:128-131 (and 176-179) | for a status other than 200, `raise_for_status()` is called and its result dropped; when it does not raise (any status below 400), the coroutine ends without `return` and yields `None`, which `_arun` then returns as its "string" | a reply with status 204 and an empty body | return the body whenever the status check passes, as the blocking path does | not executed | ScraperApi.AsyncReplyAsWrittenLosesSuccess | ScraperApi.AsyncReplyAgreesWithSync |
