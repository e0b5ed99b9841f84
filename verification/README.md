# CloudTripwire dashboard — a Dafny model of its front-end logic

CloudTripwire's dashboard is a React front end. It shows "incidents", which are
honeytoken-trigger alerts from AWS, Azure and GCP. It reads them from a REST
backend or from built-in mock tables. Most of the code renders markup. This
project models the parts that make decisions, as pure functions over
immutable datatypes:

- **Formatters** (`formatters.dfy`): string truncation with an ellipsis, the
  status and cloud class tables, the direction of a percentage change, the
  relative-time wording of timestamps, and the number guard. `Decimal`
  (`decimal.dfy`) renders integers as a template literal prints them below
  10^21 in magnitude. It also
  has a parser, so a rendered timestamp can be read back.
- **Charts** (`charts.dfy`): the rows given to the line chart (a map over the
  time series) and to the bar chart (a filter over AWS, Azure, GCP).
- **Dashboard** (`dashboard.dfy`): one refresh cycle as a state transition.
  Its inputs are the page state, the mock/live mode, the settled outcome of
  the three live fetches and the clock reading. It returns the next
  (metrics, incidents, series, error, loading, lastRefresh) record. Runs of
  cycles and mode toggles from mount onwards are modelled too, as is the
  bar chart's cloud distribution.
- **IncidentDetailPage** (`incident_detail_page.dfy`): loading an incident
  with the id-overriding fallback, and "mark resolved" with its PATCH in
  live mode.
- **IncidentDetailView** (`incident_detail.dfy`): which sections render, the
  evidence link labels, the Yes/No threat flags, the location default and
  the success styling of response actions.
- **ServiceWorker** (`service_worker.dfy`): the cache generations of the
  service worker. Storage is a map from generation name to
  `map<Request, Response>`, plus the names in creation order. Install,
  network-first fetch with cache fallback, and activate-time eviction are
  operations on that storage.

Network, clock and locale results are inputs. The `Api` module
(`api_model.dfy`) holds the payload records, the requests the pages send,
and the mock tables transcribed from `frontend/src/api/incidentAPI.js`. A
JavaScript value that may be null or undefined is an `Option`. A settled
promise is a `Result` whose rejection keeps the error message.

## Model

| member | source | states |
|---|---|---|
| Decimal.IntToString | frontend/src/utils/formatters.js:20 | The interpolated number is canonical: digits for non-negative numbers and '-' then digits for negative ones, with no leading zero except "0" itself and no "-0"; it never contains a space |
| Decimal.IntToStringRoundTrip | frontend/src/utils/formatters.js:20 | Every rendered integer parses back to itself, so the number shown in a relative time is the number computed |
| Decimal.ParseIntCanonical | frontend/src/utils/formatters.js:20 | Conversely, every canonical text parses to an integer whose rendering is that same text, so for magnitudes below 10^21 the rendering is exactly the text `${n}` prints |
| Decimal.IntToStringInjective | frontend/src/utils/formatters.js:23 | Distinct minute or hour counts are shown as distinct texts |
| Formatters.TruncateString | frontend/src/utils/formatters.js:52-55 | A falsy input gives ""; an input no longer than the limit is returned unchanged; a longer one gives its first max(limit, 0) characters followed by "...", so its length is the limit plus 3; every result is "", the input, or a prefix of the input followed by "..." |
| Formatters.TruncateDefault | frontend/src/utils/formatters.js:52 | With the default limit of 50 a result is at most 53 characters long, and inputs of up to 50 characters are kept whole |
| Formatters.TruncateIdempotent | frontend/src/utils/formatters.js:52-55 | Truncating an already truncated string with the same limit changes nothing |
| Formatters.StatusColor | frontend/src/utils/formatters.js:62-64 | The class is 'status-active' exactly when the status is 'Active'; every other value gets 'status-resolved' |
| Formatters.CloudColor | frontend/src/utils/formatters.js:71-78 | AWS, Azure and GCP each get their own class, and exactly the keys outside the table get the gray default |
| Formatters.CalculateChange | frontend/src/utils/formatters.js:96-104 | A zero previous value gives percent 0 and 'neutral'. Otherwise, for a positive previous value the direction is 'up' iff current > previous and 'down' iff current < previous, and a negative previous value inverts this. 'neutral' holds iff previous is 0 or the two are equal. The percent is the exact size of the change relative to abs(previous), in percent |
| Formatters.Classify | frontend/src/utils/formatters.js:11-24 | A falsy timestamp gives N/A. Elapsed times under one hour, future ones included, give minutes m with m*60000 <= diff < (m+1)*60000. From one hour up to one day they give hours h in 1..23 with h*3600000 <= diff < (h+1)*3600000. Anything later gives the full date |
| Formatters.FormatTimestamp | frontend/src/utils/formatters.js:10-34 | A falsy timestamp renders as 'N/A'; a timestamp a day or more old renders as the locale date |
| Formatters.FormatTimestampRoundTrip | frontend/src/utils/formatters.js:19-23 | A relative-time output reads back as its unit (minutes or hours) and the exact number that produced it, and its number is written in canonical form, so with Decimal.ParseIntCanonical it is exactly the text `${n}` prints |
| Formatters.RelativeTextPlural | frontend/src/utils/formatters.js:20 | The unit ends in 's' exactly when the number is not 1 |
| Formatters.FormatNumberGuard | frontend/src/utils/formatters.js:85-88 | A non-number gives the same "0" under every locale formatter and, when the formatter renders zero as "0", cannot be told apart from the number 0; a number's text depends on the formatter only through that number |
| Charts.OverTimeRows | frontend/src/components/Charts.jsx:44-47 | The line-chart rows keep the series' length and order; row i has input i's count and the short label of input i's date |
| Charts.OverTimeRowsAppend | frontend/src/components/Charts.jsx:44-47 | The transform works element by element: the rows of a concatenated series are the rows of its parts, concatenated |
| Charts.KeepPositive | frontend/src/components/Charts.jsx:101 | The filter keeps exactly the rows with a positive count, and rows in chart order stay in chart order |
| Charts.KeepPositiveCounts | frontend/src/components/Charts.jsx:101 | A positive row is kept as many times as it occurs; any other row is dropped entirely |
| Charts.KeepPositiveAppend | frontend/src/components/Charts.jsx:101 | Filtering a concatenation is the concatenation of the filtered parts, so kept rows keep their relative order |
| Charts.CloudRows | frontend/src/components/Charts.jsx:97-101 | The bars form a subsequence of AWS, Azure, GCP in that order, each cloud at most once. Every bar has a positive count equal to that cloud's value and its fixed colour (#FF9900, #0078D4, #4285F4). A cloud has a bar iff its value is positive |
| Charts.CloudRowPresence | frontend/src/components/Charts.jsx:98-101 | A cloud whose value is missing, zero or negative has no bar; a cloud with a positive value has a bar carrying exactly that value and its colour |
| Charts.OrZero | frontend/src/components/Charts.jsx:98-100 | The `or 0` fallback is 0 exactly when the value is missing or 0, and any other result is the value that was present |
| Dashboard.Initial | frontend/src/pages/Dashboard.jsx:26-32 | On mount there are no metrics and no error, the lists are empty, loading is on and mock data is selected |
| Dashboard.CycleRequests | frontend/src/pages/Dashboard.jsx:49-53 | Mock mode sends no request. Live mode sends three: the metrics, the incidents with limit 10 and the 7-day time series, and no other limit or day count |
| Dashboard.RequestsMatchOutcome | frontend/src/pages/Dashboard.jsx:42-58 | A cycle that sends no request ignores the outcome input. When a live cycle succeeds, each of the three responses reaches the state, so different responses give different states |
| Dashboard.AwaitAll | frontend/src/pages/Dashboard.jsx:49-53 | The combined fetch succeeds iff all three succeed, and then yields the three values. Otherwise it yields the message of a failed fetch, namely the first to reject when that one is known |
| Dashboard.Refresh | frontend/src/pages/Dashboard.jsx:37-72 | After every cycle loading is off and metrics is present. Mock mode gives the three mock tables with no error. A live cycle whose fetches all succeed gives exactly the fetched values with no error. A live cycle with any failure gives the three mock tables and the message Promise.all rejects with, which is the first fetch to reject when that one is known. The refresh time moves only on the success paths |
| Dashboard.RefreshAllOrNothing | frontend/src/pages/Dashboard.jsx:40-68 | A cycle leaves either all three mock tables or all three live values, never a mix. An error is set exactly when a live cycle failed. lastRefresh is either the cycle's clock reading or, on failure, unchanged |
| Dashboard.RecoveryReplacesFallback | frontend/src/pages/Dashboard.jsx:49-68 | A successful live cycle after a failed one replaces the whole fallback snapshot with the live values and clears the error |
| Dashboard.Toggle | frontend/src/pages/Dashboard.jsx:147 | The toggle flips the mode and changes nothing else |
| Dashboard.ToggleTwiceThenCycle | frontend/src/pages/Dashboard.jsx:147 | Toggling twice and then refreshing gives the same state as refreshing in the original mode |
| Dashboard.RunConsistent | frontend/src/pages/Dashboard.jsx:40-68 | Across any run of cycles and toggles, no error is recorded while metrics is absent, and metrics stays present once any cycle has run |
| Dashboard.ViewOf | frontend/src/pages/Dashboard.jsx:94-106 | The spinner shows exactly while loading with no metrics. The error view shows exactly when not loading, with no metrics and a non-empty error. The dashboard shows whenever metrics are present |
| Dashboard.InFlightView | frontend/src/pages/Dashboard.jsx:39-40 | While a cycle's fetches are in flight the error view never shows. The spinner shows iff no data has arrived yet; otherwise the previous data stays on screen |
| Dashboard.ErrorViewUnreachable | frontend/src/pages/Dashboard.jsx:106 | Starting at mount, no run of cycles and toggles reaches the full-page error view (`error && !metrics`) |
| Dashboard.CloudDistributionOf | frontend/src/pages/Dashboard.jsx:125-129 | aws and azure hold the metric values, with a missing value or missing metrics mapped to 0; gcp is always 0 |
| Dashboard.DashboardCloudBars | frontend/src/pages/Dashboard.jsx:125-129 | On the dashboard GCP never gets a bar. AWS gets one iff the metrics report a positive AWS count, and Azure likewise |
| IncidentDetailPage.MountThenLoad | frontend/src/pages/IncidentDetailPage.jsx:18-53 | After mounting, the spinner shows, and it still shows while the first load is in flight. Once the load settles the detail view shows, with the mock incident under the route id because the page mounts in mock mode |
| IncidentDetailPage.MockFor | frontend/src/pages/IncidentDetailPage.jsx:35 | The fallback incident carries the route id and equals the mock detail in every other field |
| IncidentDetailPage.FetchRequestsMatchOutcome | frontend/src/pages/IncidentDetailPage.jsx:33-39 | A load that sends no request (mock mode) ignores the outcome input; a live load stores its GET's response, so different successful responses give different pages |
| IncidentDetailPage.FetchIncident | frontend/src/pages/IncidentDetailPage.jsx:27-53 | Mock mode stores the mock detail under the route id, with no error. A live success stores the fetched incident as received. A live failure stores the same id-overridden mock and sets the error to the message. Loading is off and an incident is present afterwards, whatever the outcome |
| IncidentDetailPage.LoadErrorViewUnreachable | frontend/src/pages/IncidentDetailPage.jsx:99 | After a load the detail view renders; the `error && !incident` view is never reached |
| IncidentDetailPage.ViewOf | frontend/src/pages/IncidentDetailPage.jsx:87-99 | The spinner shows exactly while loading. The load error view shows exactly when not loading, with no incident and a non-empty error |
| IncidentDetailPage.MarkResolved | frontend/src/pages/IncidentDetailPage.jsx:58-77 | Mock mode sends no request; live mode sends exactly one PATCH for the route id. On success (always in mock mode) the status becomes 'Resolved' and every other field is unchanged. A failed PATCH leaves the incident as it was. Resolving is off afterwards in both cases, and loading, error and mode are untouched |
| IncidentDetailPage.MarkResolvedRequestsMatchOutcome | frontend/src/pages/IncidentDetailPage.jsx:62-67 | Without a PATCH the outcome input is ignored. With one, a failed and a successful PATCH leave different incidents unless the incident was already resolved |
| IncidentDetailPage.ResolveOffered | frontend/src/pages/IncidentDetailPage.jsx:144 | The button is offered exactly when an incident is loaded and the header shows the active status badge, which means status exactly 'Active'. It is never offered with no incident, for a resolved one, or for a lower-case 'active' |
| IncidentDetailPage.ResolveWithdrawsOffer | frontend/src/pages/IncidentDetailPage.jsx:144 | For an incident offered the button, the button remains after resolving exactly when a live PATCH failed |
| IncidentDetailPage.ResolveTwice | frontend/src/pages/IncidentDetailPage.jsx:67 | A second successful resolve changes nothing further |
| IncidentDetailView.Render | frontend/src/components/IncidentDetail.jsx:24-31 | A null incident renders only "Incident Not Found"; a loaded one renders exactly the parts whose guard holds |
| IncidentDetailView.RenderedSections | frontend/src/components/IncidentDetail.jsx:151-248 | The header and basic information always render; response actions, timeline and evidence render iff their list is non-empty |
| IncidentDetailView.RenderedOptionalParts | frontend/src/components/IncidentDetail.jsx:69-126 | The severity badge, the region row and the source-IP row render iff their value is non-empty; threat intelligence renders iff threat indicators are present |
| IncidentDetailView.RenderedResource | frontend/src/components/IncidentDetail.jsx:131-147 | Resource details render iff the ARN is non-empty. The user agent needs both the ARN and a non-empty agent, so it never shows without the resource details |
| IncidentDetailView.EvidenceLabel | frontend/src/components/IncidentDetail.jsx:235 | The label has the key's length, and each position holds the key's character with '_' turned into ' ' and then upper-cased |
| IncidentDetailView.EvidenceLabelShape | frontend/src/components/IncidentDetail.jsx:235 | A label contains no '_' and no lower-case letter, and each of its characters is the key's character, a space for an underscore, or the capital of a lower-case letter |
| IncidentDetailView.EvidenceLabelIdempotent | frontend/src/components/IncidentDetail.jsx:235 | Applying the label transform to a label changes nothing |
| IncidentDetailView.EvidenceLabels | frontend/src/components/IncidentDetail.jsx:224-236 | There is one link label per evidence entry, in entry order |
| IncidentDetailView.FlagText | frontend/src/components/IncidentDetail.jsx:256-257 | A flag reads 'Yes' exactly when it is set, and 'No' exactly when it is not |
| IncidentDetailView.GeoLocationText | frontend/src/components/IncidentDetail.jsx:275 | A missing or empty location shows 'Unknown'; any other location is shown verbatim |
| IncidentDetailView.ThreatCells | frontend/src/components/IncidentDetail.jsx:252-277 | The panel has four cells. VPN, Tor and known-attacker read 'Yes' exactly when set and 'No' exactly when not. The fourth is the location text |
| IncidentDetailView.ActionStylingAgrees | frontend/src/components/IncidentDetail.jsx:162-178 | The icon and the badge of a response action always agree: the check icon with the green badge exactly for status 'Success', the cross with the red badge otherwise, including a lower-case 'success' |
| ServiceWorker.Open | frontend/public/sw.js:12 | Opening a generation leaves every existing generation and the creation order as they were. A missing generation is created empty and placed last in creation order |
| ServiceWorker.Put | frontend/public/sw.js:24 | An accepted put maps the request to the response in that generation only. A refused put (not a GET, not http(s), status 206) changes nothing |
| ServiceWorker.MatchIn | frontend/public/sw.js:27 | A found response comes from the first listed generation that holds the request. Nothing is found exactly when no listed generation holds it |
| ServiceWorker.Match | frontend/public/sw.js:27 | A GET request is found iff some generation holds it, and the oldest such generation in creation order answers. A non-GET request is never found |
| ServiceWorker.Install | frontend/public/sw.js:10-15 | Install succeeds iff every manifest request is answered with a 2xx status other than 206. On success every path of urlsToCache is an entry of 'cloudtripwire-v1' holding the network's response. Every entry the generation already held is kept, and every entry other than a manifest request is one it already held, unchanged. On failure the generation is only opened. Other generations never change, and the creation order is that of opening 'cloudtripwire-v1' |
| ServiceWorker.Fetch | frontend/public/sw.js:18-29 | On network success the caller gets the network response itself. An accepted put stores a copy under the request in 'cloudtripwire-v1', and every other entry and generation survives unchanged. A refused put only opens the generation. After a network success the creation order is that of opening 'cloudtripwire-v1'. On network failure the caller gets the cache match and the storage is untouched |
| ServiceWorker.FetchCachesAnyStatus | frontend/public/sw.js:20-25 | The effective listener stores an http(s) GET response whatever its status (404, 500, opaque); there is no 200/basic check |
| ServiceWorker.SecondListenerGuard | frontend/public/sw.js:47 | The second listener's "starts with http" guard passes every http(s) URL and also "httpx:" URLs, and it rejects chrome-extension: and data: URLs |
| ServiceWorker.Keep | frontend/public/sw.js:36-39 | The surviving names are exactly the occurrences of 'cloudtripwire-v1', still distinct |
| ServiceWorker.Activate | frontend/public/sw.js:32-44 | After activate no generation other than 'cloudtripwire-v1' remains, and that one keeps all its entries |
| ServiceWorker.ActivateIdempotent | frontend/public/sw.js:32-44 | Activating twice gives the same storage as activating once |
| ServiceWorker.MatchAfterActivate | frontend/public/sw.js:27 | After activate a lookup answers exactly from the current generation: older generations no longer answer, and current entries remain retrievable |
| ServiceWorker.InstallThenActivateServesManifest | frontend/public/sw.js:2-13 | After a successful install and an activate, every manifest path is served from the cache when offline |
| ServiceWorker.OfflineServesLastOnline | frontend/public/sw.js:20-27 | Once only the current generation remains, an offline fetch returns the response last fetched online for the same request |

## Left out

- Markup, Tailwind classes beyond the two lookup tables, `Layout.jsx`, `App.jsx` routing, `MetricCard.jsx`, `IncidentTable.jsx` and `tailwind.config.js`: they are presentation with no decision to state.
- The Axios client (`frontend/src/api/incidentAPI.js`): it is network I/O. Each fetch's outcome is an input `Result`. The client prefixes its error messages ("Failed to fetch metrics: …"), and the model takes the message as it arrives.
- The 15-second polling timer, overlapping refresh cycles, last-write-wins races between them, and effect re-runs: they are event-loop timing. One cycle is one step. A live cycle's mode is read when the step is applied, and a toggle's follow-up cycle is a separate event in a run. The render in the middle of a cycle, after `setLoading(true)` and `setError(null)` and before the await, is stated separately by `Dashboard.InFlightView` and `IncidentDetailPage.MountThenLoad`. An event that lands while a cycle is in flight is not modelled.
- `Date` parsing, the clock, `toLocaleString`, `toLocaleDateString`/`formatChartDate` and `toLocaleTimeString`: elapsed milliseconds, the clock reading and locale renderings are inputs. An unparsable timestamp (NaN elapsed time, "Invalid Date") is not modelled.
- Dashboard.Refresh: live payloads are taken to be well-formed records. `fetchMetrics` returns `response.data` unchecked, so a null body would leave metrics null, and the "metrics stays present" guarantee assumes it does not.
- Decimal.IntToString: prints plain decimal digits for every integer. JavaScript switches to exponent form ("1e+21") from 10^21 in magnitude. The minute and hour counts of two valid dates stay below 3·10^11, so formatTimestamp never reaches that range.
- Formatters.CalculateChange: computed over exact reals. `toFixed(1)` rounding of the percent and floating-point overflow or underflow are not modelled. A null, undefined or NaN previous value is represented by 0, which it behaves like.
- Formatters.TruncateString: lengths count Dafny characters (Unicode scalar values), not UTF-16 code units as JavaScript's `length` does.
- Formatters.CloudColor: keys inherited from `Object.prototype` (such as "constructor") would return a function in JavaScript. The model treats them like any other unknown key.
- Formatters.FormatNumber: NaN counts as a number there and reaches the locale formatter, while the model's number type has no NaN.
- IncidentDetailView.EvidenceLabel: upper-cases ASCII letters only. `toUpperCase` also maps non-ASCII letters, and some of them (such as 'ß') change length.
- IncidentDetailView.Render: the sections are a set; their fixed on-screen order is not stated.
- IncidentDetailPage.MarkResolved: requires a loaded incident. Its button only renders for one, and `{...null, status}` would create a partial record that the incident type cannot hold. The `alert()` and `console.error` calls are dropped.
- IncidentDetailPage.FetchIncident: a live payload that is not an incident object (for example `null`) is not modelled.
- The second fetch listener in `sw.js` (lines 46-59) is not modelled beyond its scheme guard. The first listener has already called `respondWith`, so the second one's response is refused. Its duplicate network request and cache write are left out.
- The block at `sw.js` lines 61-71 is left out. It reads `event` at the top level of the worker script, where no such binding exists. Evaluating it throws, so it is not a caching policy. It also means the browser would reject the script when it is first evaluated.
- ServiceWorker: caches are keyed by exact (method, URL) pairs. URL fragment stripping, `Vary` handling and relative-URL resolution beyond prefixing the origin are not modelled. The non-awaited `cache.put` is applied at once.
