# Am I Safe: request rules, scan polling and panel state, in Dafny

This project models the logic of a small web app. The app checks a visitor's
security exposure with three outside services:

- an IP-reputation provider;
- a breach database;
- a file and URL scanning provider.

The model covers three parts:

- **The four API route handlers.** Each one is a pure function. It takes the
  query or body parameters and the provider's outcome. It returns the route's
  response (status and body) and the request it sent upstream. `None` for the
  request means the provider was never called.
  - File upload and analysis fetch: `VtFileRoute`.
  - URL submission: `VtUrlRoute`.
  - The analysis fetch used by the URL panel: `VtAnalysisRoute`.
  - Breach lookup: `HibpRoute`.
  - IP reputation: `AbuseIpdbRoute`.
- **The file-analysis submit-then-poll loop** (`FileAnalysis`). A recursive
  driver runs over a finite sequence of poll replies, one per fetch. Polling
  continues only while the status is exactly `"queued"`. It stops on any
  other status and on any error. Nothing bounds the number of polls.
- **The components' state rules.** These are the fields each action clears
  and sets, the render precedence of the IP panel, the breach "safe" flag,
  and the colour classifications (`Palette`, `IpAddressDisplay`,
  `EmailBreachSearch`, `UrlAnalysis`).

Providers are modelled from the outside. An outbound request ends as
`Answered(status, body)` or `Unreachable`. `Http.Axios` gives axios's default
rule: only a 2xx answer resolves. The reputation route uses `fetch` instead.
`fetch` settles on any answer, and the route itself checks `response.ok`.
`Http.Receive` is a component's own axios call on one of the routes. Several
lemmas use it to compose a component with the route behind it.

The app does not aggregate per-engine verdicts or rank severities. The
counts it shows are the provider's own `stats`, passed through unchanged,
and the model keeps them that way (`FileAnalysis.ResultPanel`,
`UrlAnalysis.Cards`). Polling continues only on status `"queued"`. The
provider also reports `"in-progress"`, and that reply ends polling with
partial results shown (`FileAnalysis.InProgressStopsPolling`).

## Model

| member | source | states |
|---|---|---|
| VtFileRoute.Post | src/app/api/vt/file/route.ts:15-48 | The provider is called exactly when the form parsed, names a truthy file field and the file is not over 32 MiB, and it is sent that field. A missing or empty field gives 400 "No file provided", an oversized file 400 "File size exceeds 32MB limit", and both happen before any upstream call. A provider success is relayed unchanged with 200. Status is 500 ("Failed to analyze file") exactly when the form could not be parsed or the provider call failed. |
| VtFileRoute.SizeLimitIsInclusive | src/app/api/vt/file/route.ts:24-27 | The limit is 33554432 bytes. A file of exactly that size is forwarded; one byte more is refused with 400 and no upstream call. |
| VtFileRoute.Get | src/app/api/vt/file/route.ts:93-117 | A missing or empty `id` gives 400 "Analysis ID is required" with no upstream call. Otherwise the provider is asked for that id: a success is relayed with 200, and any failure gives 500 "Failed to fetch file analysis". |
| VtFileRoute.ResponseShapes | src/app/api/vt/file/route.ts:15-117 | Every answer of either handler is either a 200 carrying the provider's own document or an error message with 400 or 500. |
| VtUrlRoute.Post | src/app/api/vt/route.ts:14-42 | A falsy `url` (missing, null, false, 0, "") gives 400 "URL is required" with no upstream call. A body that cannot be destructured gives 400 "Failed to analyze URL". A truthy `url` is sent upstream; success is relayed with 200, and failure gives 400 "Failed to analyze URL". |
| VtUrlRoute.NeverInternalError | src/app/api/vt/route.ts:35-41 | The URL route never answers 500. Anything other than the relayed document is a 400 error message. |
| VtAnalysisRoute.Get | src/components/URLAnalysis.tsx:57-59 | The route this call reaches (`GET` in `src/app/api/vt/[id]/route.ts`, lines 51-74) always asks the provider for the path id. Success is relayed with 200; failure gives 500 "Failed to fetch analysis". |
| HibpRoute.Get | src/app/api/hibp/route.ts:10-37 | Every body is `{data: list}` and none is an error message. A missing email gives 400 with an empty list and no upstream call. A provider success gives 200 with the provider's list. A provider 404 gives 200 with an empty list. Any other failure gives 500 with an empty list. |
| HibpRoute.ListsOnlyProviderBreaches | src/app/api/hibp/route.ts:18-35 | The listed breaches are either empty or exactly the list of a successful provider answer. |
| AbuseIpdbRoute.Get | src/app/api/abuseipdb/route.ts:30-62 | A missing or empty `ip` gives 400 "IP address is required" with no upstream call. Otherwise the query carries that `ip` and `days`, or "30" when `days` is missing or empty. A 2xx answer with a parsable body is relayed with 200. Status is 500 ("Failed to check IP address") exactly when the provider was unreachable, answered non-2xx, or sent an unparsable body. |
| Js.OrElse | src/app/api/abuseipdb/route.ts:34 | `p \|\| fallback` follows JavaScript truthiness of strings: a present, truthy parameter is kept, and a missing or falsy one gives the fallback. The result is the fallback unless the parameter was given. |
| FileAnalysis.Poll | src/components/FileAnalysis.tsx:42-54 | Every fetch uses the submitted id. Fetches stop at the first reply that is not a readable "queued" document, and every earlier reply was one. Another fetch stays scheduled exactly when every reply so far was "queued". A failure or an unreadable document records "Failed to fetch analysis results". File, loading flag and analysis id are never changed by polling. |
| FileAnalysis.PollKeepsLatest | src/components/FileAnalysis.tsx:44-45 | After polling, the stored result is the document of the latest successful fetch, or the earlier value if no fetch succeeded. |
| FileAnalysis.QueuedForever | src/components/FileAnalysis.tsx:47-50 | For any number of replies that all say "queued", every one is fetched, no error is recorded, and a further fetch is still scheduled: polling has no bound. |
| FileAnalysis.PollIgnoresLaterReplies | src/components/FileAnalysis.tsx:47-53 | Once polling has stopped, appending replies changes nothing. |
| FileAnalysis.PollResumes | src/components/FileAnalysis.tsx:42-54 | A loop still waiting after some replies continues from the state it reached: polling over `a + b` equals polling over `a`, then over `b` from the resulting state. |
| FileAnalysis.InProgressStopsPolling | src/components/FileAnalysis.tsx:47-50 | A reply with status "in-progress" ends polling after one fetch, with the document stored and shown as a summary. |
| FileAnalysis.PollingThroughRoute | src/components/FileAnalysis.tsx:42-54 | A poll through the file route's GET receives the provider's document unchanged. A provider failure reaches the loop as a failure that stops it. |
| FileAnalysis.HandleFileChange | src/components/FileAnalysis.tsx:34-40 | Selecting a file stores it and clears the stored result and id. An empty selection changes nothing. Loading and error are never touched. |
| FileAnalysis.OversizedFileNeverPolled | src/components/FileAnalysis.tsx:64-77 | An upload of a file over 32 MiB, through the file route, never reaches the provider. The component records "Failed to analyze file", never polls, and is no longer loading. |
| FileAnalysis.UploadThroughRoute | src/components/FileAnalysis.tsx:64-77 | A file within the limit is sent to the provider with its size. On acceptance the component stores the provider's id and polls only with it. On rejection it records the upload failure and never polls. |
| FileAnalysis.ChooseThenAnalyze | src/components/FileAnalysis.tsx:34-62 | Choosing a file and then pressing "Analyze" behaves exactly as analysing that file from the earlier state. |
| FileAnalysis.AnalyzeFile | src/components/FileAnalysis.tsx:56-81 | With no file, nothing happens. Otherwise error, id and result are cleared and the file is uploaded. A failed upload records "Failed to analyze file" and never polls. A successful upload records the id and polls with it alone. Loading is false once the upload settles. |
| FileAnalysis.StatusColor | src/components/FileAnalysis.tsx:83-94 | A verdict's text colour is the text class of its hue: red, yellow and green for malicious, suspicious and harmless, gray for every other category. |
| Palette.VerdictHue | src/components/FileAnalysis.tsx:83-94 | A verdict is red exactly when it is "malicious", yellow exactly when "suspicious", green exactly when "harmless", and gray exactly otherwise; no verdict is orange. |
| FileAnalysis.Label | src/components/FileAnalysis.tsx:202 | `result \|\| category` under JavaScript truthiness: a present, truthy result label is shown, and a null or falsy one gives way to the category. |
| FileAnalysis.Rows | src/components/FileAnalysis.tsx:196-208 | One row per engine, with its name, label, verdict colour and method. |
| FileAnalysis.RowsFollowProviderOrder | src/components/FileAnalysis.tsx:196-208 | No results give no rows, and the rows of two runs of results placed one after the other are the two runs' rows one after the other: rows keep the provider's order. |
| FileAnalysis.ResultPanel | src/components/FileAnalysis.tsx:144-173 | "In progress" is shown exactly when the status is "queued". Otherwise the provider's malicious, suspicious, harmless and undetected counts are shown unchanged, with the engine rows. |
| FileAnalysis.PanelFollowsPolling | src/components/FileAnalysis.tsx:140-147 | While a fetch is still scheduled, the latest document is stored and shows as in progress. When polling stops on a readable document, that document is stored and its summary is shown. |
| IpAddressDisplay.FetchAllInfo | src/components/IPAddressDisplay.tsx:46-75 | Loading always ends. The reputation lookup runs exactly when the IP lookup produced a truthy `ip`, and it is sent that address. Each lookup's success stores its answer and each failure records its own error message. |
| IpAddressDisplay.ScoreBand | src/components/IPAddressDisplay.tsx:84-89 | A score of 75 or more is red; [50,75) is orange, [25,50) yellow, and below 25 green. Each band is an if-and-only-if. |
| IpAddressDisplay.AbuseScoreColor | src/components/IPAddressDisplay.tsx:84-89 | The score's class is the text class of its band. |
| IpAddressDisplay.ScoreColourMonotone | src/components/IPAddressDisplay.tsx:84-89 | A higher score never gets a less severe colour. |
| IpAddressDisplay.Render | src/components/IPAddressDisplay.tsx:80-112 | Loading is shown exactly when loading. Otherwise the error is shown exactly when there is one. Otherwise "not loaded" is shown exactly when there is no IP information. Otherwise the details are shown, with a score colour exactly when a report is present. |
| IpAddressDisplay.LoadingAlwaysEnds | src/components/IPAddressDisplay.tsx:68-75 | After mounting, whatever both lookups return, the panel is not on the loading screen. |
| IpAddressDisplay.AbuseErrorHidesIp | src/components/IPAddressDisplay.tsx:80-82 | When the IP lookup succeeds and the reputation lookup fails, the address is stored but the panel shows only "Failed to fetch abuse information". |
| IpAddressDisplay.BothLookupsShowDetails | src/components/IPAddressDisplay.tsx:91-112 | When both lookups succeed, the details show the address with the colour of its score. |
| IpAddressDisplay.ReputationThroughRoute | src/components/IPAddressDisplay.tsx:58-66 | The panel's lookup reaches the provider with its address and the default 30-day window. The provider's report arrives unchanged, and any provider failure arrives as a failure. |
| EmailBreachSearch.SearchBreaches | src/components/EmailBreachSearch.tsx:14-31 | "Safe" is true exactly when the search succeeded with an empty list, and false exactly when it succeeded with breaches. A success stores the list and clears the error. A failure records the error, leaves "safe" unset and the list empty. Loading ends either way. |
| EmailBreachSearch.SafeExcludesBreaches | src/components/EmailBreachSearch.tsx:58-65 | The "Safe!" banner and a non-empty breach list never appear together. |
| EmailBreachSearch.SearchThroughRoute | src/components/EmailBreachSearch.tsx:20-28 | Through the breach route, a provider 404 shows "safe" with no error. A provider list is shown as is, with "safe" telling whether it is empty. Any other failure shows the error with no verdict. |
| EmailBreachSearch.EmptyEmailFails | src/components/EmailBreachSearch.tsx:21 | An empty address is refused by the route, and the component reports a failed search. |
| UrlAnalysis.AnalyzeUrl | src/components/URLAnalysis.tsx:49-65 | The submission is followed by at most one fetch, by the returned id. Both calls succeeding stores the report and clears the error. A failure of either records "Failed to analyze URL" and keeps the previous result. Loading ends either way. |
| UrlAnalysis.AnalysisThroughRoutes | src/components/URLAnalysis.tsx:53-61 | Through both routes, a provider success shows the provider's report, fetched once by the provider's id. A failure at either step shows the error and keeps the previous result. |
| UrlAnalysis.CategoryColor | src/components/URLAnalysis.tsx:67-78 | A category's badge is the badge class of its verdict hue, the same hue the file panel gives it. |
| UrlAnalysis.VerdictBadgesDiffer | src/components/URLAnalysis.tsx:67-78 | A coloured verdict never shares its badge with any other category. |
| UrlAnalysis.Cards | src/components/URLAnalysis.tsx:123-130 | Two cards, malicious (red) and suspicious (yellow), carrying the provider's counts unchanged. |

## Left out

- Real HTTP is left out: axios and `fetch` calls, `FormData`, request parsing and response construction. Provider answers are parameters (`Upstream`), and the handlers' parse failures are constructors of their input types.
- Timers are left out: the 5-second delay between polls. Stale polls of an earlier submission can interleave with a new one, or with a new file selection, and that is not modelled either. The replies are taken in the order the fetches settle.
- Rendering is reduced to what each screen shows (`Screen`, `Panel`, `Card`). Layout, Tailwind classes other than the verdict and score colours, the page composition, the recommendations and the posts component are left out.
- API keys, headers and the providers' own behaviour are left out. Provider documents are opaque type parameters, or are cut down to the fields the components read.
- Date formatting, `encodeURIComponent`, and the interpolation of ip, id and email into URLs are left out. A query parameter is modelled as the string value it carries.
- FileAnalysis.AnalyzeFile: an upload acknowledgement without `data` is treated like a failed upload. Both throw into the same `catch`. An acknowledgement with `data` but no `id` would poll with `undefined`, and that is not modelled.
- FileAnalysis.Poll: a document whose `status` field is missing is modelled by its status string. `undefined === 'queued'` is false, like any other status.
- FileAnalysis.ResultPanel: a stored document without `data.attributes` would throw while rendering, and that is not modelled. The panel takes the attributes.
- IpAddressDisplay.Render: a stored report without `data` would throw while rendering, and that is not modelled.
- In-flight states are left out. The model has only the state after `analyzeFile`, `searchBreaches` or `analyzeUrl` has settled. The state while a call is pending (loading true with fields reset, shown as "Analyzing..." or "Searching..." with the button disabled) is not represented.
- IpAddressDisplay.ScoreBand: the abuse confidence score and the provider's counts are integers here. A JSON number can be fractional or NaN, and `NaN >= 75` is false at every step, so a NaN score shows green; neither case is modelled.
- Js.Value: JSON numbers are reals, and NaN (also falsy) is not represented.
- HibpRoute.Get: `new URL(request.url)` sits outside the handler's `try`, and its failure is not modelled.
