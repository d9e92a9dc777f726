# FinBoard core in Dafny

FinBoard is a browser dashboard for market data. Users add widgets (quote cards,
tables, line charts). Each widget is bound to a provider (Alpha Vantage, Finnhub),
an endpoint and query parameters, and the layout is kept in a client-side store.
Widgets fetch through a server-side proxy. The proxy holds the API keys, keeps an
in-memory cache of upstream replies with a lifetime per entry, and pauses every
request for a minute after a provider answers 429. The responses are turned into
one candle (OHLCV) representation by the provider adapters, or into chartable
`{time, value}` points and table rows by the JSON utilities.

This project models four parts of that core and proves properties of each:

- `dashboard_store.dfy` (module `DashboardStore`): the widget store as a class
  `Store`. Its fields `widgets` and `hasSeenTour` are replaced by each
  operation. `Created`, `WithoutId`, `Moved` and `Imported` are the value-level
  specifications its methods are proved against.
- `adapters.dfy` (module `Adapters`): the four provider adapters, the
  `isFiniteNum` guard, sorting by time and the `normalizeFrom` dispatch, all as
  pure functions.
- `json_utils.dfy` (module `JsonUtils`): `getByPath`, `getArrayFromData`,
  `normalizeOHLC` and `toTimeSeries`. Where these throw in JavaScript (a property
  of `null`, `Object.entries(null)`, an invalid date) the model returns
  `Threw(...)`.
- `proxy_route.dfy` (module `ProxyRoute`): the proxy's `POST` handler.
  - One request is the pure step `Handle`, from a state (cache map and pause
    deadline), a clock reading, the request, the configured keys and the
    upstream reply.
  - The class `Proxy` holds that state in fields. Its `Post` method is proved to
    produce exactly the outcome of `Handle`.
  - `makeCacheKey` and `asStringRecord` are modelled too.
  - Lemmas relate several requests: repeat within the lifetime, expiry, and the
    pause window.

Supporting modules:

- `js_values.dfy` (module `JsValues`) is the JavaScript value model.
  - A value reachable from JSON is `J`; `undefined` is `None`.
  - Numbers are `Num`: an exact real, `Infinity`, `-Infinity` or `NaN`.
  - It defines truthiness, `??`, property access, `String.prototype.split`, and
    `String(value)` / `Number(value)` for these values.
  - The host conversions the code relies on are fields of a `Conv` value passed
    in. These are `Number(string)`, `parseFloat`, `Date.parse`, `toISOString`,
    `JSON.parse` and the decimal printing of a finite number.
- `url_encoded.dfy` (module `UrlEncoded`) is the
  `application/x-www-form-urlencoded` serializer behind
  `URLSearchParams.toString()`, following the WHATWG URL Standard, section 5.2.
  It also has its parser, proved to invert it. That makes the cache key
  injective on the strings of this model: sequences of Unicode scalar values.
  JavaScript strings with lone surrogates are outside it (see "## Left out").
- `widgets.dfy` (module `Widgets`) holds the widget types.

## Model

| member | source | states |
|---|---|---|
| DashboardStore.Created | src/store/dashboard-store.ts:31-49 | the new widget's id is the decimal clock reading and never empty. Its title is the given title, else the name, else "Untitled Widget". Its name is the given name, else the title. Parameters default to the empty object and the refresh period to 60000 ms. The kind follows the type tag; provider, endpoint and mapping are copied. |
| DashboardStore.KindOf | src/store/dashboard-store.ts:43-49 | "card" and "table" select their kind; every other tag, not only "line", makes a line widget |
| DashboardStore.CreatedWellFormed | src/types/widgets.ts:18-33 | a request whose tag is one of the three kinds and whose mapping has that kind's shape yields a widget whose mapping matches its kind |
| DashboardStore.Store.constructor | src/store/dashboard-store.ts:26-28 | a new store has no widgets and has not seen the tour |
| DashboardStore.Store.SetHasSeenTour | src/store/dashboard-store.ts:27 | sets the onboarding flag and leaves the widgets alone |
| DashboardStore.Store.AddWidget | src/store/dashboard-store.ts:29-52 | appends exactly the created widget and keeps every earlier widget in place |
| DashboardStore.WithoutId | src/store/dashboard-store.ts:53 | removal leaves no widget with that id. Every other widget keeps its multiplicity. |
| DashboardStore.Store.RemoveWidget | src/store/dashboard-store.ts:53 | the new collection is the old one without the id, nothing else changes |
| DashboardStore.WithoutIdConcat | src/store/dashboard-store.ts:53 | removal works piecewise over a concatenation, so relative order is kept |
| DashboardStore.WithoutAbsentId | src/store/dashboard-store.ts:53 | removing an id no widget has changes nothing |
| DashboardStore.Store.Reorder | src/store/dashboard-store.ts:54-61 | the collection becomes the moved sequence; an out-of-range or equal pair of indices leaves it unchanged |
| DashboardStore.MovedIgnored | src/store/dashboard-store.ts:56 | an ignored reorder is the identity |
| DashboardStore.MovedPermutes | src/store/dashboard-store.ts:57-59 | an effective reorder is a permutation that puts the old element at `from` at `to` and keeps the others in relative order |
| DashboardStore.Store.ExportConfig | src/store/dashboard-store.ts:62-65 | the export is version 1 and carries the current widgets; nothing changes |
| DashboardStore.Imported | src/store/dashboard-store.ts:66-69 | a document with widgets installs exactly those; a missing document or a missing widgets member installs the empty collection |
| DashboardStore.Store.ImportConfig | src/store/dashboard-store.ts:66-69 | the collection becomes the imported widgets, the onboarding flag is kept |
| DashboardStore.ImportOfExport | src/store/dashboard-store.ts:62-69 | importing an export gives back its widgets |
| DashboardStore.Store.ExportThenImport | src/store/dashboard-store.ts:62-69 | exporting and importing the result leaves the store unchanged |
| DashboardStore.Store.GetWidget | src/store/dashboard-store.ts:70 | the result is the first widget with the id, and none exactly when no widget has it |
| DashboardStore.AddWithDefaultsScenario | src/store/dashboard-store.test.ts:19-34 | a named card added to an empty store is the only widget, with a non-empty id, the given name and refresh period |
| DashboardStore.IgnoredReorderScenario | src/store/dashboard-store.test.ts:36-58 | reordering from index 5 in a two-widget store changes nothing |
| DashboardStore.ExportImportScenario | src/store/dashboard-store.test.ts:60-79 | an export of one line widget is version 1, and re-importing it after a wipe restores that widget |
| Adapters.OptionalVolume | src/services/adapters.ts:31 | a volume is kept exactly when it passes `isFiniteNum` |
| Adapters.AcceptedPriceMayBeNaN | src/services/adapters.ts:3-6 | `isFiniteNum` accepts a string whose `parseFloat` is finite even when unary plus gives NaN, so an accepted Finnhub quote can carry a NaN open |
| Adapters.Seconds | src/services/adapters.ts:58 | a millisecond reading divided by 1000 is the real number of seconds it stands for |
| Adapters.WholeSeconds | src/services/adapters.ts:26 | `Math.floor(ms / 1000)` is the whole second the reading falls in |
| Adapters.SortByTime | src/services/adapters.ts:63 | the result is a permutation of the rows, ordered by the comparator `a.time - b.time` |
| Adapters.SortedFiniteAscending | src/services/adapters.ts:62-63 | rows with finite numeric times come out in non-decreasing time order |
| Adapters.AlphaVantageGlobalQuote | src/services/adapters.ts:9-33 | the global-quote adapter yields at most one candle |
| Adapters.GlobalQuoteEmptyIff | src/services/adapters.ts:10-23 | the result is empty exactly when the quote is falsy or not an object, a price fails `isFiniteNum`, or the trading day does not parse (the current time is used when it is absent) |
| Adapters.GlobalQuoteCandle | src/services/adapters.ts:22-32 | the candle's prices are `+` of the numbered fields. Its volume is present exactly when it passes `isFiniteNum`. Its time is the whole second of the parsed trading day, or of the current time when no trading day is given. |
| Adapters.FirstTruthy | src/services/adapters.ts:37-43 | the series container is truthy exactly when the member under one of the six keys is, and it is then one of those members |
| Adapters.DailyRow | src/services/adapters.ts:49-58 | a row is kept exactly when its four prices (numbered key, else plain key) pass `isFiniteNum` and its date parses. The candle's time is the parsed date in seconds (not floored). Its prices are `+` of those fields, and its volume is `+` of the volume field when that passes `isFiniteNum`. |
| Adapters.DailyRows | src/services/adapters.ts:47-60 | the kept rows number as many as pass the row test, never more than the dates, and all have finite times |
| Adapters.AlphaVantageDaily | src/services/adapters.ts:36-45 | no truthy object container gives the empty list |
| Adapters.DailyShape | src/services/adapters.ts:36-64 | the daily result is a time-ordered permutation of the kept rows, in non-decreasing finite time |
| Adapters.CandleAt | src/services/adapters.ts:71-86 | index i gives a candle exactly when its four prices pass `isFiniteNum`. The candle's time is `t[i]` as given, its prices are `+` of `o[i]`, `h[i]`, `l[i]`, `c[i]`, and its volume is `+v[i]` when `v` is an array and that passes `isFiniteNum`. |
| Adapters.CandlesFrom | src/services/adapters.ts:70-87 | the candles kept are those with finite prices; without a `v` array, no candle has a volume |
| Adapters.FinnhubCandle | src/services/adapters.ts:68-69 | any of t, o, h, l, c not an array gives the empty list |
| Adapters.CandlesFromTimes | src/services/adapters.ts:79 | every candle's time is one of the given timestamps |
| Adapters.FinnhubCandleShape | src/services/adapters.ts:67-89 | the result is a time-sorted permutation of the per-index candles, one for each index with finite prices, so never more than the timestamps. Every time comes from `t`. There is no volume without a `v` array. |
| Adapters.FinnhubQuote | src/services/adapters.ts:92-97 | the quote adapter yields at most one candle |
| Adapters.FinnhubQuoteShape | src/services/adapters.ts:92-97 | the result is empty exactly when a price fails `isFiniteNum`. Otherwise the one candle has no volume and `+` of each price. Its time is `+t` when finite, else the current second. |
| Adapters.NormalizeFinnhub | src/services/adapters.ts:101-104 | for Finnhub the candle path wins over the quote path, and an endpoint with neither falls through to the daily adapter |
| Adapters.NormalizeAlphaVantage | src/services/adapters.ts:106-113 | for Alpha Vantage a truthy "Global Quote" selects the quote adapter, otherwise the daily adapter |
| Adapters.NormalizeOtherProvider | src/services/adapters.ts:114-115 | any other provider is read as an Alpha Vantage daily series |
| Adapters.RouteIgnoresCase | src/services/adapters.ts:100 | providers equal up to ASCII letter case are dispatched alike |
| Adapters.MixedCaseFinnhubCandle | src/services/adapters.ts:100-102 | "FinnHub" with a candle endpoint reaches the candle adapter |
| JsValues.SplitAtSeparator | src/utils/json.ts:7 | splitting "p.q" gives the parts of p followed by the parts of q |
| JsValues.SplitWithoutSeparator | src/utils/json.ts:7 | a string without a dot is a single segment |
| JsonUtils.GetByPath | src/utils/json.ts:5-6 | a falsy object or an empty path gives undefined |
| JsonUtils.WalkAbsorbsNullish | src/utils/json.ts:8 | once the walk reaches null or undefined the result is undefined |
| JsonUtils.StepOnArray | src/utils/json.ts:9-12 | on an array, a segment that is NaN as a number gives undefined; one naming an index in range gives that element |
| JsonUtils.ArrayAt | src/utils/json.ts:11 | an array index yields an element exactly when it is an integral number in range |
| JsonUtils.SingleSegmentIsLookup | src/utils/json.ts:5-15 | a dotless path on an object is a direct member lookup |
| JsonUtils.PathConcat | src/utils/json.ts:7-14 | the path "p.q" walks q from wherever p leads |
| JsonUtils.FirstPresent | src/utils/json.ts:56-61 | a field takes the first key whose member is neither null nor undefined, and is undefined when there is none |
| JsonUtils.OhlcField | src/utils/json.ts:56-61 | a normalised field is undefined exactly when none of its keys is present |
| JsonUtils.NormalizedFieldsReadBack | src/utils/json.ts:62-68 | each member of the normalised record reads back as `Number` of its first present key |
| JsonUtils.NormalizeOhlc | src/utils/json.ts:54-69 | normalising throws exactly on null |
| JsonUtils.FindSeriesKey | src/utils/json.ts:36 | the series key is the first key whose lower case contains "time series", and none is found exactly when no key has it |
| JsonUtils.FirstArrayValue | src/utils/json.ts:48-50 | the generic fallback finds an array exactly when some member value is one, and returns a member's array |
| JsonUtils.SeriesRow | src/utils/json.ts:39-42 | a series row throws exactly on a null entry; otherwise it is `time` followed by the normalised fields |
| JsonUtils.SeriesRows | src/utils/json.ts:39-43 | the rows throw exactly when some entry is null; otherwise there is one row per entry, in order |
| JsonUtils.ArrayFromDataNull | src/utils/json.ts:30-52 | the detector returns null exactly when the data is falsy, or is no array and has no array member and no truthy series container |
| JsonUtils.ArrayFromDataThrows | src/utils/json.ts:36-43 | the detector throws only in the time-series step, on a null row |
| JsonUtils.SelectField | src/utils/json.ts:80-88 | the y-path selects open, high, low, then volume ("volume" or exactly "v"), in that priority, else close |
| JsonUtils.Filter | src/utils/json.ts:100 | filtering keeps only points the predicate accepts, each accepted point with its full multiplicity; the order is `FilterConcat` |
| JsonUtils.FilterSingleton | src/utils/json.ts:100 | a single point is kept exactly when the predicate accepts it |
| JsonUtils.FilterConcat | src/utils/json.ts:100 | filtering distributes over concatenation, so the kept points stay in their original order |
| JsonUtils.CandlePoints | src/utils/json.ts:89-99 | the candle branch maps every timestamp to one point |
| JsonUtils.CandleSeries | src/utils/json.ts:73-101 | the candle branch keeps no more points than there are timestamps, each with a non-empty time and a finite value |
| JsonUtils.QuoteSeries | src/utils/json.ts:104-123 | the quote branch gives at most one point, with a finite value |
| JsonUtils.SeriesPoints | src/utils/json.ts:128-132 | the series branch maps every entry to one point |
| JsonUtils.AlphaSeries | src/utils/json.ts:126-134 | a missing or null container throws. Otherwise the points are at most one per entry and none is NaN. |
| JsonUtils.RecordPoints | src/utils/json.ts:139-140 | the generic branch maps each record to one point |
| JsonUtils.GenericSeries | src/utils/json.ts:137-144 | the generic branch returns exactly when the detector does; no records gives no points; kept points have a time and a non-NaN value |
| JsonUtils.ToTimeSeries | src/utils/json.ts:71-145 | every returned point has a value that is not NaN, and the two Finnhub shapes return only finite values |
| JsonUtils.GenericSeriesNeverThrows | src/utils/json.ts:136-144 | data with no recognised shape never makes the series throw, and with no records it is empty |
| ProxyRoute.AsStringRecord | src/app/api/proxy/route.ts:98-100 | every parameter value is replaced by its `String`; names and order are kept |
| ProxyRoute.CacheKeyDetermines | src/app/api/proxy/route.ts:93-96 | for the two supported providers, equal cache keys mean equal provider, endpoint, and parameter names and string values in order |
| UrlEncoded.Encode | src/app/api/proxy/route.ts:94-95 | the serialized form uses only unreserved characters, `+` and percent escapes |
| UrlEncoded.Utf8RoundTrip | src/app/api/proxy/route.ts:94-95 | decoding the UTF-8 encoding of a string gives the string back |
| UrlEncoded.DecodeEncode | src/app/api/proxy/route.ts:94-95 | form-decoding an encoded name or value gives it back |
| UrlEncoded.SerializeHasNoBar | src/app/api/proxy/route.ts:95 | a serialized query contains no bar character, so it cannot be confused with the key's separators |
| UrlEncoded.ParseSerialize | src/app/api/proxy/route.ts:94-95 | parsing a serialized parameter list gives the list back |
| UrlEncoded.SerializeInjective | src/app/api/proxy/route.ts:94-95 | different parameter lists serialize differently |
| ProxyRoute.Ttl | src/app/api/proxy/route.ts:30 | the lifetime is 8000 ms exactly for "preview" intent, 30000 ms otherwise |
| ProxyRoute.ParseBody | src/app/api/proxy/route.ts:70-76 | a body that is not JSON becomes `{raw: text}` |
| ProxyRoute.CheckAccess | src/app/api/proxy/route.ts:79 | no truthy error member means the check passes; a denial carries the provider's error |
| ProxyRoute.AccessCheckCases | src/app/api/proxy/route.ts:79 | a string error is denied when it contains "don't have access", an array when it holds that string; any other truthy error throws |
| ProxyRoute.PausedIff | src/app/api/proxy/route.ts:24-27 | a request is answered 429 "paused" exactly while `now` is before the deadline, without a call and without a state change |
| ProxyRoute.CacheHitIff | src/app/api/proxy/route.ts:29-34 | a request is a hit exactly when it is not paused and its key holds an entry expiring after `now`. A hit returns the stored data with status 200, does not call the provider and changes nothing. |
| ProxyRoute.ConfigurationErrors | src/app/api/proxy/route.ts:39-53 | past the pause and the cache, a missing key gives 500 and an unknown provider gives 400. Neither calls the provider or changes the state. |
| ProxyRoute.CalledOnlyWhenConfigured | src/app/api/proxy/route.ts:39-55 | the provider is called only when not paused, for a supported provider whose key is set |
| ProxyRoute.StateChanges | src/app/api/proxy/route.ts:58-86 | the state changes only after a call. A 429 sets the deadline to `now` + 60000 and keeps the cache. The only other change stores the parsed body of a reply other than 429 and 403 under the key for the request's lifetime, answered as a miss. |
| ProxyRoute.MissStores | src/app/api/proxy/route.ts:86-87 | a cache write happens exactly on a "miss" answer, and it stores what is returned |
| ProxyRoute.ForbiddenNotCached | src/app/api/proxy/route.ts:63-84 | an upstream 403, or a body reporting missing access, is answered 403 and leaves the state unchanged |
| ProxyRoute.RawTextCached | src/app/api/proxy/route.ts:70-86 | a non-JSON 200 body is cached and returned as `{raw: text}` |
| ProxyRoute.KeysStaySupported | src/app/api/proxy/route.ts:86 | every cached key belongs to a supported provider, and each request keeps it so |
| ProxyRoute.RepeatWithinTtlHits | src/app/api/proxy/route.ts:29-34 | the same request repeated before the entry's lifetime ends is a hit with the same data, and the provider is not called |
| ProxyRoute.ExpiredEntryRefetches | src/app/api/proxy/route.ts:31-34 | once the lifetime has passed, the same request calls the provider again |
| ProxyRoute.RateLimitWindow | src/app/api/proxy/route.ts:58-61 | after an upstream 429, every request to any provider for the next 60000 ms is paused without a call; later requests are not paused |
| ProxyRoute.Proxy.constructor | src/app/api/proxy/route.ts:13-17 | the proxy starts with an empty cache and no pause |
| ProxyRoute.Proxy.Post | src/app/api/proxy/route.ts:19-91 | the response, the call flag and the new cache and deadline are exactly those of `Handle` on the old state |
| ProxyRoute.Proxy.Call | src/app/api/proxy/route.ts:55-87 | the upstream part of the handler updates the fields as `Fetched` describes |
| ProxyRoute.CollapseScenario | src/app/api/proxy/route.ts:29-34 | two identical requests to a fresh proxy within the lifetime make one upstream call, a miss then a hit |

## Left out

- `formatField` and the UI components are not part of this model. The chat panel, the `lib/` adapters and widget polling are not either.
- The zustand `persist` layer (localStorage) is left out, as is `setState` from outside the store. The store is a plain object.
- Widget ids are not promised unique: two widgets added at the same millisecond get the same id, as in the code.
- Numbers are exact reals, not IEEE doubles: rounding, `-0` and precision are not modelled. Division by 1000 and `Math.floor` are exact.
- The host conversions `Number(string)`, `parseFloat`, `Date.parse`, `Date.prototype.toISOString`, `JSON.parse` and number printing are uninterpreted parameters. They are not modelled character by character.
- `toLowerCase` is modelled as ASCII lowercasing. The code only compares the result with ASCII literals.
- `Array.prototype.sort` is modelled as a stable insertion sort. A NaN comparison result (a time that is not a number) is not specified by JavaScript; the model puts such rows last.
- Adapters.SortByTime: promises the comparator order, not the exact permutation a particular engine's sort produces for equal or NaN keys.
- Building the upstream URL, the request headers and `fetch` are left out. The proxy's state step takes the upstream reply (or a thrown error) as an input.
- Each request reads the clock once (`now`). The code calls `Date.now()` separately for the pause check, the expiry check and the new deadline.
- Concurrent requests interleaving inside one `POST` are not modelled; each request is one atomic step.
- A request body that is not JSON, or a `provider` or `endpoint` that is not a string, is not modelled. So are `params` that are not a plain object.
- A missing `params` is the empty object; a missing `intent` is "data".
- The message of the `TypeError` thrown when `error` is truthy but has no `includes` is a fixed string; engines word it differently.
- An `error` member of a kind JSON cannot produce (a function, an object with its own `includes`) is out of scope.
- DashboardStore.Imported: `data.widgets` that is truthy but not an array is not modelled; the import takes `Option<seq<Widget>>`.
- Cache key: parameters keep insertion order, as `URLSearchParams` does; the key is not sorted, so the same parameters in another order give another key.
- Every upstream reply other than 429 and 403 that passes the access check is cached, including 5xx replies and `{raw: text}` bodies.
- Adapter prices are not promised finite: rows are tested with `isFiniteNum` (`parseFloat`) but store unary `+`, so a price like "12abc" is kept as NaN (see `Adapters.AcceptedPriceMayBeNaN`).
- Array path segments: `getByPath` indexes an array with `Number(segment)`, so an empty segment (as in "a..b") reads index 0 and a segment such as " 1" reads index 1.
- Strings are sequences of Unicode scalar values. A JavaScript string is a sequence of UTF-16 code units and may hold lone surrogates, which `URLSearchParams` replaces by U+FFFD. So two parameter values that differ only there share a cache key in the program; the model does not capture this. String `length` and indexing by code unit (`"😀".length` is 2) are not modelled either: the model counts scalar values.
- Property access reads only own members: inherited prototype members are not modelled. In JavaScript, `getByPath(x, "constructor")` is a truthy function; in the model it is undefined.
