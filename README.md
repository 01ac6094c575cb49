# Weather lookup client: cache, retries, icons, history

A Dafny model of the data-access core of a desktop weather application that queries
the QWeather service. The window and its tables are not modelled. These parts are:

- **The TTL cache** (`cache.dfy`, module `Cache`). There is one JSON file per
  (namespace, key), named `{namespace}_{key}.json`. Each file holds a `timestamp` and
  the `data`. A read returns the data only if the file exists, parses to an object
  with a numeric timestamp and a `data` key, and is at most 1800 seconds old. Every
  other case reads as absent. A write replaces the whole file. The cache directory is
  the field `files` of class `CacheManager`: a map from file name to the JSON
  document in that file.
- **The retry loop** (`retry.dfy`, module `Retry`). The four fetch procedures share
  it. `RunFrom` is the specification function and `FetchWithRetries` is the loop that
  implements it. They are generic in the reply type and in the endpoint's treatment
  of an HTTP 200 reply (`Endpoint`, `Verdict`).
- **The fetch procedures** (`provider.dfy`, module `Provider`): city lookup, one
  life index, current conditions, the 3-day forecast, and the batch of all six life
  indices. For each one, a specification function (`CityLookup`, `LifeIndexLookup`,
  `ReportLookup`, `IndicesFrom`) gives the result, the request and pause counts, and
  the cache afterwards. The method that implements it is proved equal to that
  function.
- **Icon choice** (`icons.dfy`, module `Icons`) and **the list of recent cities**
  (`history.dfy`, module `History`).
- **JSON values and Python truthiness** (`json.dfy`, module `JsonValues`).

How the environment is modelled:
- The network is a sequence of attempt outcomes: `Timeout`, `NetErr(detail)` for any
  other request exception, or `Status(code, envelope)` with the decoded body. Attempt
  `i` gets `outcomes[i]`.
- The clock is an integer `now` in seconds, passed to each operation.
- A one-second pause is counted in `sleeps`.

The code behaves differently from a tidier design in these places, and the model
follows the code:
- An HTTP status other than 200 is not final. It falls through to the pause and the
  next attempt. If it persists, the result is the exhaustion message.
- For a life index, an application code other than "200" is retried as well. The
  life-index query ends in the sentinel pair ("未知", "未知").
- City lookup, current conditions and forecast return at once when the code is not
  "200". City lookup does the same when the list of matches is empty.
- The cache test is Python truthiness. A cached empty list or empty object is
  stored but never served, so the next query hits the network again.
- A failed cache write is not swallowed: it propagates to the caller.
- The cache key is the city name exactly as given. Trimming happens in the window's
  search handler, outside the core.
- The UV index is not merged into the current conditions by the core. The window
  makes a separate life-index query of type "5".

## Model

| member | source | states |
|---|---|---|
| `JsonValues.Truthy` | weather_app_optimized.py:98 | the `if cached_data:` test (also lines 129, 170 and 200): false exactly for null, false, 0, "", [] and {} |
| `Cache.CachePath` | weather_app_optimized.py:61-62 | the file name is the namespace, "_", the key and ".json", in that order, and each part can be read back from it |
| `Cache.CacheManager.constructor` | weather_app_optimized.py:53-56 | a cache directory that `ensure_cache_dir` has just created holds no files; every other member takes any directory, such as one an earlier run left behind |
| `Cache.CacheManager.SaveToCache` | weather_app_optimized.py:64-73 | the entry for (key, type) becomes `{timestamp: now, data}`; every other file is unchanged |
| `Cache.CacheManager.GetFromCache` | weather_app_optimized.py:75-91 | returns data iff the file exists, has a numeric timestamp no more than 1800 s old, and has a `data` key; the result is then exactly that data; otherwise absent |
| `Cache.ReadAfterSave` | weather_app_optimized.py:65-89 | a read within 1800 s of a write returns exactly the data written |
| `Cache.ReadAfterExpiry` | weather_app_optimized.py:86-87 | a read more than 1800 s after the write finds nothing |
| `Cache.SaveOverwrites` | weather_app_optimized.py:65-73 | a second write replaces both payload and timestamp of the first |
| `Cache.CachePathInjective` | weather_app_optimized.py:61-62 | within one namespace, distinct keys give distinct file names |
| `Cache.NamespacesDisjoint` | weather_app_optimized.py:61-62 | the four namespaces in use never share a file name |
| `Cache.PathRuleCollides` | weather_app_optimized.py:61-62 | the naming rule alone is not injective across arbitrary namespaces |
| `Cache.SaveLeavesOthers` | weather_app_optimized.py:61-73 | a write leaves every other (key, namespace in use) reading as before |
| `Retry.RunFrom` | weather_app_optimized.py:103-123 | the specification of the attempt loop from attempt `retry` on: never more than `max_retries` requests in all; the outcome of each attempt is characterised by `RunFirstStop` and `RunNoStop` |
| `Retry.FetchWithRetries` | weather_app_optimized.py:103-123 | the attempt loop returns the run the specification gives, and it caches the accepted payload and nothing else |
| `Retry.RunFirstStop` | weather_app_optimized.py:103-122 | the first attempt that stops the loop decides the result: a final timeout, a final network error, or a 200 reply the endpoint accepts or rejects; that attempt is the last request |
| `Retry.RunNoStop` | weather_app_optimized.py:103-123 | if no attempt stops the loop, all attempts are made and the exhaustion result is returned |
| `Retry.RunBounds` | weather_app_optimized.py:103-122 | at most `max_retries` requests, and pauses = requests - 1: one pause between consecutive requests, none after the last |
| `Retry.RunOrigin` | weather_app_optimized.py:108-123 | the result comes from the last attempt made: a payload is cached only when that attempt got a 200 reply the endpoint accepted with that result and payload; otherwise all attempts were used up (exhaustion result), or the last attempt timed out (timeout result), failed with a transport error (network-error result with that error's detail) or got a 200 reply the endpoint rejected (its rejection result) |
| `Retry.AllTimeouts` | weather_app_optimized.py:115-117 | a service that always times out gets exactly `max_retries` requests, and the timeout result comes after the last |
| `Retry.RecoversAfterFailures` | weather_app_optimized.py:105-122 | timeouts and network errors before an accepted reply leave no trace in the result |
| `Retry.PersistentHttpError` | weather_app_optimized.py:106-123 | a non-200 status on every attempt uses all attempts and ends in the exhaustion result |
| `Provider.CityVerdict` | weather_app_optimized.py:106-114 | a 200 reply is never retried; it is accepted iff its code is "200" and it has a match; the result is then the first match's id and name, and the cached payload is the truthy `{id, name}` object holding them; any other reply gives "城市搜索失败: " followed by the message, or by "未知错误" when the reply has none |
| `Provider.GetCityId` | weather_app_optimized.py:94-123 | result, counts and new cache equal `CityLookup`: a truthy cache hit is answered with its `id` and `name`; otherwise the retry loop runs with the city verdict, "请求超时，请检查网络连接" for a final timeout, "网络请求异常: " and the detail for a final network error, and "请求失败，请稍后重试" on exhaustion |
| `Provider.CityHitServed` | weather_app_optimized.py:96-99 | a truthy cache entry gives its `id` and `name` with no request and no write |
| `Provider.CityRejectedWithoutRetry` | weather_app_optimized.py:106-114 | a code other than "200", or an empty match list, ends the lookup at that attempt with the service message (or "未知错误") and caches nothing |
| `Provider.CityTimeoutsAtDefault` | weather_app_optimized.py:94-117 | with the default of 3 attempts, a service that always times out gets 3 requests and 2 pauses, the timeout message and no write |
| `Provider.CityResolvedThenCached` | weather_app_optimized.py:96-112 | a lookup answered by the network caches `{id, name}` of the first match; a second lookup within 1800 s returns the same city with no request |
| `Provider.IndexKey` | weather_app_optimized.py:127 | the index cache key is the city id, "_" and the type code, and each part can be read back from it |
| `Provider.IndexVerdict` | weather_app_optimized.py:142-148 | a 200 reply is never final by rejection: it is accepted iff its code is "200", with the first day's level and category as result and as the fields of the cached payload; any other code falls through to the next attempt |
| `Provider.GetLifeIndex` | weather_app_optimized.py:125-157 | result, counts and new cache equal `LifeIndexLookup`: a truthy cache hit is answered with its `level` and `category`; otherwise the retry loop runs with the index verdict, ("未知", "请求超时") for a final timeout, ("未知", "网络异常") for a final network error, and ("未知", "未知") on exhaustion |
| `Provider.LifeIndexRejectionRetried` | weather_app_optimized.py:139-157 | a code other than "200" on every attempt uses all attempts and returns ("未知", "未知") |
| `Provider.LifeIndexFetchedThenCached` | weather_app_optimized.py:127-148 | a fetched `{level, category}` of the first day is cached and served by a second query within 1800 s with no request |
| `Provider.IndexKeyInjective` | weather_app_optimized.py:127 | with type codes free of "_", the key `{city_id}_{index_type}` determines city and type |
| `Provider.IndexPathsDistinct` | weather_app_optimized.py:44-51 | the six index types of one city use six distinct cache files |
| `Provider.ReportVerdict` | weather_app_optimized.py:178-185 | a 200 reply is never retried (also lines 208-215); it is accepted iff its code is "200", returning and caching the body unchanged; otherwise the error is "错误: {code} - {message}" |
| `Provider.GetWeather` | weather_app_optimized.py:166-194 | result, counts and new cache equal `ReportLookup` in namespace "weather": a truthy cache hit is returned as is; otherwise the retry loop runs with the report verdict and the same timeout, network-error and exhaustion messages as the city lookup |
| `Provider.Get3DayForecast` | weather_app_optimized.py:196-224 | result, counts and new cache equal `ReportLookup` in namespace "forecast", with the same cases as `GetWeather` |
| `Provider.ReportRejectedWithoutRetry` | weather_app_optimized.py:178-185 | a code other than "200" ends the query at that attempt with "错误: {code} - {message}" and caches nothing |
| `Provider.ReportFetchedThenCached` | weather_app_optimized.py:168-183 | a fetched truthy body is cached and served by a second query within 1800 s with no request |
| `Provider.ReportFalsyBodyRefetched` | weather_app_optimized.py:168-171 | a fetched falsy body is cached but not served: the next query makes requests again |
| `Provider.GetAllLifeIndices` | weather_app_optimized.py:159-164 | the batch and final cache equal the sequential composition of six life-index queries in table order |
| `Provider.AllIndicesAsQueried` | weather_app_optimized.py:159-164 | exactly six entries, in table order, each named after its type; each value is what that type's query alone returns on the starting cache, sentinels included |
| `Provider.LifeIndexNamesDistinct` | weather_app_optimized.py:44-51 | the six display names are distinct, so the result holds six keys |
| `Icons.ExactIcon` | weather_app_optimized.py:229-230 | the dictionary lookup: a result exactly when some table entry's description equals the text, and then that entry's icon |
| `Icons.GetWeatherIcon` | weather_app_optimized.py:227-238 | an exact description gets its icon; otherwise the icon of the first description in table order that occurs in the text; otherwise "unknown.png" |
| `Icons.KeysDistinct` | weather_app_optimized.py:26-41 | the icon table's descriptions are distinct |
| `Icons.ScanAgreesWithExact` | weather_app_optimized.py:26-41 | no description occurs inside a later one, so for this table the exact lookup never changes what the scan picks |
| `History.WeatherApp.constructor` | weather_app_optimized.py:247-249 | the list starts empty with limit 10 |
| `History.WeatherApp.AddToHistory` | weather_app_optimized.py:433-441 | the list becomes the recent-first update: the city at the front and at most 10 entries; a list without repetitions stays so, with the city once |
| `History.RemoveFirst` | weather_app_optimized.py:435-436 | `list.remove` takes out one occurrence: the multiset loses one copy of the city, the length drops by one when it was present, and an absent city leaves the list unchanged |
| `History.WithRecent` | weather_app_optimized.py:435-441 | the updated list is within the limit, starts with the city when the limit is positive, and holds only the city and earlier entries |
| `History.RemoveFirstCutsFirst` | weather_app_optimized.py:435-436 | `list.remove` cuts out exactly the first occurrence, keeping the rest in order |
| `History.RecentFirst` | weather_app_optimized.py:437-441 | the city is first, and the length is between 1 and the limit and at most one more than before |
| `History.RecentKeepsOrder` | weather_app_optimized.py:435-441 | after the head comes a prefix of the old list with the city's first occurrence cut out, so the others keep their relative order |
| `History.RecentUnique` | weather_app_optimized.py:435-441 | from a list without repetitions: the result has none, and the city occurs only at the front |

## Left out

- The window, tabs, tables, styles, splash screen, timer and status bar. They are presentation only.
- Real HTTP requests. Each attempt's outcome is an input. The per-request `timeout` argument is not modelled, because the outcome already says whether the request timed out.
- A 200 reply whose body is not JSON. Depending on the version of the HTTP library, this is either a request exception or an uncaught error. The model treats a request exception as a `NetErr` outcome.
- `time.sleep`. A pause is counted, not performed.
- `time.time()`. It becomes an integer `now`, read once per operation, so a cache write is stamped with the same time as the read before it. Fractional seconds are not modelled.
- File-system and JSON serialisation details: creating the cache directory, opening files, encoding. The cache is an in-memory map, and a file's content is its decoded JSON.
- Write failures at line 72 and path characters that break the file name. The source lets these errors propagate, and the model has no such failure.
- Missing keys in a service reply. The source raises `KeyError` and lets it propagate. The model's typed replies always carry the keys the code reads, and a life-index reply always has at least one day.
- A truthy cached city or index entry without the keys the code reads. The source raises there, so the fetch procedures require such an entry to have those keys (`CityHitUsable`, `IndexHitUsable`).
- `save_history`, `load_history`, `save_last_city`, `load_last_city` and `update_completer_model`. These are file I/O and presentation with swallowed errors. Because `load_history` can install any list, `AddToHistory` promises the front position and the size bound unconditionally, and uniqueness only for a list without repetitions.
- The exact message texts are used as opaque constants. A detail string is concatenated exactly as the code formats it.
- Python's `None` as the first element of a failed result is encoded as a distinct constructor (`CityFailed`, `ReportFailed`).
- GetCityId: a cached city entry that is truthy but whose `id` is falsy (`{"id": null, "name": "X"}`, or an empty id) stays `CityFound` with that id. The window's `if not city_id` test reads it as a failure and shows the name as the error. The window is not modelled, so the model does not identify these two cases.
- GetAllLifeIndices: all six queries are stamped with the one `now` the batch is given. The source reads the clock afresh in every cache read and write (lines 69 and 86), and up to three requests and two pauses fall between two queries. So an entry that expires during the batch is served from the cache in the model, but refetched by the source.
