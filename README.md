# Air-quality dashboard core, modelled in Dafny

The dashboard shows live air-quality readings for stations in Thailand. It has two halves:

- An Express server that proxies the WAQI service. It has two routes:
  - `GET /api/nearby` returns only the Thai stations from one bounds query.
  - `GET /api/aqi/:uid` returns one station's feed.

  Both routes answer through a read-through cache with a 600-second time-to-live.
- A React client. It validates and patches what the server sends, and it colours readings by AQI band.

This project models the core of both halves:

- **Geofence** (`thailand_region.dfy`, `geo_membership.dfy`).
  - The region constant is a GeoJSON Feature whose geometry is a Polygon with one closed ring of `[lon, lat]` positions.
  - The point test builds the point as `[lon, lat]` and checks containment in the ring, boundary included.
  - The name test has seven case-sensitive keywords. `String.prototype.includes` is modelled as a recursive predicate and proved to be substring containment.
  - `isThaiStation` is the name test or the point test.
- **Read-through cache** (`response_cache.dfy`, `aqi_routes.dfy`).
  - The node-cache store is a `Cache` class over a map from key to `(value, insertedAt)`, read and written against an explicit millisecond clock.
  - A request reads the cache at its arrival time. A fetched body is stored at the time upstream answered, which the upstream outcome carries, so expiry counts from the answer.
  - An entry is live up to and including 600000 ms after it was set. A read that finds an expired entry deletes it.
  - `cacheWrap` is specified by the pure function `AqiRoutes.Wrap`:
    - A live truthy value is returned without calling upstream.
    - Otherwise upstream is called and its body is stored.
    - A throwing upstream stores nothing.
- **Routes** (`aqi_routes.dfy`).
  - A handler's answer is a `Reply`: 200 with a body, 502 with `{message: 'WAQI error'}`, or an error passed to `next`.
  - The `/nearby` filter callback follows JavaScript semantics. This includes the `TypeError` of reading `station.name` from a missing `station`, and "`includes` is not a function" for a name that is neither a string nor an array.
  - `Nearby` and `Aqi` are module-level methods that take the `Cache` as an argument and change it. Their `ensures` equal the pure `Handle` function.
- **Client validation** (`client_api.dfy`).
  - `fetchStations` checks, in order: the body is truthy, `status` is `ok`, and `data` is an array. It then filters the records by their shape.
  - `fetchAqi` checks the body, `status`, `data` and `data.aqi`, then patches `data.forecast` and `data.iaqi`.
  - Each function receives the parsed response body as a parameter instead of making the request.
  - Request paths are modelled. They are shown to reach the server route with the station's own uid, and hence a cache key of its own.
- **AQI bands** (`aqi_bands.dfy`).
  - The gauge's colour and level chains and the map's colour chain are modelled as written.
  - All three are proved equal to one reference definition. The band is the number of upper bounds in `[50, 100, 150, 200, 300]` that the value exceeds.

JavaScript values are the `Json.Json` datatype, with `undefined` as `None`. Truthiness, property reads, the `typeof` tests and `Array.isArray` are written out in `json.dfy`; the `typeof` operator's string result is `ClientApi.TypeOf`. Exceptions are `Json.Fault` or `ClientApi.ClientError` values.

Where the repository's own tests and its code disagree, the model follows the code:

- The route code answers a non-`ok` upstream body with `{message: 'WAQI error'}` only. `tests/server/nearby.test.ts:50` and `tests/server/aqi.test.ts:38` expect a `detail` field carrying the upstream body. The model sends no `detail` (`AqiRoutes.WaqiError`).
- `cacheWrap` stores every body before the route checks its status. So an upstream `{status: 'error'}` body is cached and replayed as 502 for the whole time-to-live. This is proved in `AqiRoutes.NonOkBodyIsCached` and `AqiRoutes.InvalidKeyAnswerIsCached`.

## Model

| member | source | states |
|---|---|---|
| Json.Member | server/src/routes/aqi.ts:33 | definition of the property read `v[key]`: `TypeError` on `null`/`undefined`, otherwise the object's own field, or `undefined` for every other value and for an object without the key |
| Seqs.Filter | client/src/services/api.ts:92-99 | the filtered list is no longer than the input and every kept element satisfies the predicate |
| Seqs.FilterIsSubsequence | client/src/services/api.ts:92-99 | `filter` keeps an order-preserving subsequence of its input |
| Seqs.FilterCount | client/src/services/api.ts:92-99 | an element is kept exactly as many times as it occurs if it passes, and never otherwise |
| Seqs.FilterMembership | server/src/routes/aqi.ts:33 | an element is in the result iff it is in the input and passes |
| Seqs.FilterKeepsAll | client/src/services/api.ts:92-99 | filtering a list whose elements all pass returns the list itself |
| Seqs.FilterIdempotent | client/src/services/api.ts:92-99 | filtering twice equals filtering once |
| ThailandRegion.RingExtent | server/src/assets/thailand.ts:6-14 | the computed box contains every ring position, and each of its four bounds is attained by some position |
| ThailandRegion.RegionExtent | server/src/assets/thailand.ts:8-12 | the region's box is longitude 97.343..105.637 by latitude 5.613..20.465 |
| ThailandRegion.RingIsClosedRectangle | server/src/assets/thailand.ts:6-14 | the polygon has one ring of five positions; it is closed; its four corners are distinct; it uses two longitudes and two latitudes; every edge is axis-parallel |
| GeoMembership.InThailand | server/src/utils/isThailand.ts:5-6 | definition of `inThailand`: containment of the point `[lon, lat]` in the region's ring; what it means is stated by `InThailandIff` |
| GeoMembership.InThailandIff | server/src/utils/isThailand.ts:5-6 | `inThailand(lat, lon)` holds iff lat is in [5.613, 20.465] and lon is in [97.343, 105.637], boundary included, because the point is built as `[lon, lat]` |
| GeoMembership.InThailandSamples | server/src/utils/isThailand.ts:5-6 | (13, 100) is inside; (0, 0) is outside; swapped arguments (100, 13) are outside |
| GeoMembership.Includes | server/src/utils/isThailand.ts:19 | definition of `name.includes(k)`; `IncludesIff` proves it is substring containment |
| GeoMembership.IncludesOccurs | server/src/utils/isThailand.ts:19 | if `includes` holds, the keyword occurs at some index of the name |
| GeoMembership.OccursIncludes | server/src/utils/isThailand.ts:19 | an occurrence at any index makes `includes` hold |
| GeoMembership.IncludesIff | server/src/utils/isThailand.ts:19 | `includes` is exactly substring containment |
| GeoMembership.IncludedCharacters | server/src/utils/isThailand.ts:19 | every character of an included keyword occurs in the name |
| GeoMembership.NameMatches | server/src/utils/isThailand.ts:8-19 | definition of `nameKw.some((k) => name.includes(k))` over the seven keywords; characterised by `IsThaiStationIff` |
| GeoMembership.KeywordOccurrenceMatches | server/src/utils/isThailand.ts:8-16 | a name in which any of the seven keywords of `nameKw` (the constant `GeoMembership.NameKeywords`, in source order and spelling) occurs at any position matches |
| GeoMembership.IsThaiStation | server/src/utils/isThailand.ts:18-19 | definition of `isThaiStation`: the keyword test or the point test; characterised by `IsThaiStationIff` |
| GeoMembership.IsThaiStationIff | server/src/utils/isThailand.ts:8-19 | a station is Thai iff some keyword occurs in its name (whatever the position) or its position is in the closed box (whatever the name) |
| GeoMembership.NoKeywordInitial | server/src/utils/isThailand.ts:8-16 | a name that contains none of the keywords' first characters matches no keyword |
| GeoMembership.IsThaiStationByName | server/src/utils/isThailand.ts:18-19 | "Bangkok Thailand" at (0, 0) is Thai by its name |
| GeoMembership.IsThaiStationByPosition | server/src/utils/isThailand.ts:18-19 | the name "Somewhere" at (13, 100) is Thai by its position |
| GeoMembership.IsThaiStationNeither | server/src/utils/isThailand.ts:18-19 | the name "Somewhere" at (0, 0) is not Thai |
| GeoMembership.IsThaiStationParisNeither | server/src/utils/isThailand.ts:18-19 | "Paris" at (48, 2) is not Thai |
| GeoMembership.LowerCaseNameDoesNotMatch | server/src/utils/isThailand.ts:8-16 | matching is case-sensitive: "bangkok thailand" matches no keyword |
| ResponseCache.Read | server/src/routes/aqi.ts:19 | definition of `cache.get` on the store: the value while live, otherwise nothing and the entry deleted; its properties are the three lemmas below |
| ResponseCache.Write | server/src/routes/aqi.ts:22 | definition of `cache.set` on the store: the key's entry replaced by the value stamped with the time of the call |
| ResponseCache.ReadAfterWrite | server/src/routes/aqi.ts:7 | a value set at t0 is read back at every t1 ≤ t0 + 600000 ms and at no later time |
| ResponseCache.OtherKeysUntouched | server/src/routes/aqi.ts:19-22 | a get or set of one key leaves every other key's presence and entry unchanged |
| ResponseCache.ReadEvictsOnlyExpired | server/src/routes/aqi.ts:19 | deleting an expired entry on read changes no later read of that key |
| ResponseCache.Cache.constructor | server/src/routes/aqi.ts:7 | a new cache is empty |
| ResponseCache.Cache.Get | server/src/routes/aqi.ts:19 | `cache.get` returns the live value, or nothing and deletes the expired entry; the new store is the one the read specification gives |
| ResponseCache.Cache.Set | server/src/routes/aqi.ts:22 | `cache.set` replaces the key's entry with the value stamped at the time of the call and changes nothing else |
| AqiRoutes.Wrap | server/src/routes/aqi.ts:18-24 | definition of `cacheWrap`: a read at the request time, then on a miss the upstream body stored at the time upstream answered; its properties are the `Wrap…` lemmas below |
| AqiRoutes.WrapHit | server/src/routes/aqi.ts:19-20 | on a live truthy value the cached value is returned, upstream is not called and the store is unchanged |
| AqiRoutes.WrapMiss | server/src/routes/aqi.ts:21-23 | otherwise (including a live falsy value) upstream is called; its body is stored, stamped with the time upstream answered, and returned; its error is returned and nothing is added |
| AqiRoutes.WrapThrowIsUnobservable | server/src/routes/aqi.ts:21-22 | after a throwing upstream every later read of every key is what it would have been without the call |
| AqiRoutes.WrapOtherKeys | server/src/routes/aqi.ts:18-24 | `cacheWrap` on one key never adds, removes or changes another key's entry |
| AqiRoutes.WrapRepeatWithinTtl | server/src/routes/aqi.ts:18-24 | after a miss stored a truthy body answered at `at`, a repeat at any time from `at` to `at` + 600000 ms returns it without calling upstream and without changing the store |
| AqiRoutes.WrapAfterTtl | server/src/routes/aqi.ts:7-24 | a repeat more than 600000 ms after upstream answered calls upstream again |
| AqiRoutes.WrapExpiryCountsFromAnswer | server/src/routes/aqi.ts:21-22 | expiry counts from the answer, not the request: a miss at 0 answered at 5000 still hits at 600001 and misses at 605001 |
| AqiRoutes.WrapRetryAfterThrow | server/src/routes/aqi.ts:21-23 | after a throwing upstream, the next call is a miss and calls upstream again |
| AqiRoutes.AqiKey | server/src/routes/aqi.ts:44 | definition of the key `aqi-${uid}`; `AqiKeysDistinct` proves it injective and distinct from `nearby` |
| AqiRoutes.AqiKeysDistinct | server/src/routes/aqi.ts:44 | `aqi-${uid}` keys are equal iff the uids are equal, and never equal the `nearby` key |
| AqiRoutes.StatusIsOk | server/src/routes/aqi.ts:30 | definition of the test `status !== 'ok'` of both routes (also line 45), with the `TypeError` on `null`; characterised by `StatusIsOkIff` |
| AqiRoutes.StatusIsOkIff | server/src/routes/aqi.ts:30 | the status check throws exactly on a `null` body, and passes exactly on an object whose `status` is the string `ok` |
| AqiRoutes.NameTest | server/src/routes/aqi.ts:33 | definition of the keyword test on the name as upstream sent it: substring search on a string, element search on an array, `TypeError` otherwise |
| AqiRoutes.StationTest | server/src/routes/aqi.ts:33 | definition of the filter callback on one element: `TypeError` on a missing `station`, the name test, then the point test; `StationTestWellFormed` gives its value on well-formed records |
| AqiRoutes.StationTestWellFormed | server/src/routes/aqi.ts:33 | on a record with numeric `lat`/`lon` and a string `station.name`, the callback does not throw and returns `isThaiStation` of its fields |
| AqiRoutes.SelectThai | server/src/routes/aqi.ts:33 | definition of `raw.data.filter(...)` with the callback's exceptions aborting it; its properties are the three lemmas below |
| AqiRoutes.SelectThaiWellFormed | server/src/routes/aqi.ts:33 | on well-formed records the filter does not throw and keeps exactly the Thai records, in order |
| AqiRoutes.SelectThaiOkIff | server/src/routes/aqi.ts:33 | the filter throws exactly when the callback throws on some element |
| AqiRoutes.SelectThaiSound | server/src/routes/aqi.ts:33 | when every callback returns, the filter returns exactly `Seqs.Filter` of the elements whose callback answers `true`, in order and with their multiplicity; so it is an ordered subsequence, kept elements pass, passing elements are kept, and filtering again changes nothing |
| AqiRoutes.Handle | server/src/routes/aqi.ts:27-37 | definition of a handler's `try`/`catch`: `cacheWrap` on the route's key, then the route's answer on its body, and a thrown error passed to `next(err)`; the `/aqi/:uid` handler at lines 41-51 has the same shape; `NonOkBodyIsCached`, `ThrowIsNotCached` and `NearbyOkReply` give its behaviour |
| AqiRoutes.NearbyReply | server/src/routes/aqi.ts:30-34 | definition of the `/nearby` answer for the cached or fetched body: `next(err)` with a `TypeError` on a `null` body, 502 on any other non-`ok` body, `next(err)` with a `TypeError` when `data` is not an array and with the callback's error when a filter callback throws, else 200 with the filtered list; see `NearbyReplyOutcomes` and `NearbyOkReply` |
| AqiRoutes.AqiReply | server/src/routes/aqi.ts:45-48 | definition of the `/aqi/:uid` answer: `next(err)` with a `TypeError` on a `null` body, 502 on any other non-`ok` body, else 200 with the body itself; see `AqiReplyOutcomes` |
| AqiRoutes.AqiReplyOutcomes | server/src/routes/aqi.ts:45-48 | the `/aqi/:uid` answer is `next(err)` exactly on a `null` body, where reading `status` throws `TypeError`; 502 `WAQI error` exactly on the other bodies that are not an object with `status` `ok`; 200 with the body itself exactly on those that are |
| AqiRoutes.NearbyReplyOutcomes | server/src/routes/aqi.ts:30-34 | the `/nearby` answer is 502 exactly on a non-`null` body that is not an object with `status` `ok`; `next(err)` exactly on a `null` body, on an `ok` body whose `data` is not an array (a `TypeError`) or whose filter has a throwing callback; 200 exactly otherwise |
| AqiRoutes.NonOkBodyIsCached | server/src/routes/aqi.ts:29-31 | any truthy upstream body whose status is not `ok` (an error object, a string, an array) is answered 502 `WAQI error` and stored; a repeat within the TTL answers 502 again without calling upstream |
| AqiRoutes.FalsyBodyIsRefetched | server/src/routes/aqi.ts:19-22 | a falsy upstream body is stored too, but the next request calls upstream again |
| AqiRoutes.ThrowIsNotCached | server/src/routes/aqi.ts:26-38 | an upstream error goes to `next(err)`, and the next request calls upstream and answers from the new body |
| AqiRoutes.NearbyOkReply | server/src/routes/aqi.ts:30-34 | on an `ok` body of well-formed records `/nearby` answers 200 `{status: 'ok', data}` with exactly the Thai records in upstream order |
| AqiRoutes.StationRecordFields | server/src/routes/aqi.ts:10-16 | a record of the upstream station shape is well formed, and it is Thai iff `isThaiStation` holds of its name and position |
| AqiRoutes.FilterFirstOfTwo | server/src/routes/aqi.ts:33 | of a Thai record followed by a non-Thai one, the filter keeps just the first |
| AqiRoutes.BangkokIsThaiParisIsNot | server/src/routes/aqi.ts:33 | a "Bangkok Thailand" record at (13, 100) is Thai and a "Paris" record at (48, 2) is not, so filtering the two keeps only Bangkok |
| AqiRoutes.InvalidKeyAnswerIsCached | server/src/routes/aqi.ts:44-46 | the upstream answer `{status: 'error', data: 'Invalid key'}` is answered 502 and stays cached under `aqi-${uid}` |
| AqiRoutes.CacheWrap | server/src/routes/aqi.ts:18-24 | the cache's new state, the result and whether upstream was called are those of `Wrap` |
| AqiRoutes.Nearby | server/src/routes/aqi.ts:26-38 | the `/nearby` handler goes through the cache under the key `nearby`; its reply and new cache state are those of `Handle` with the `/nearby` answer |
| AqiRoutes.Aqi | server/src/routes/aqi.ts:40-52 | the `/aqi/:uid` handler goes through the cache under `aqi-${uid}`; its reply and new cache state are those of `Handle` with the `/aqi/:uid` answer: the body when `status` is `ok`, `next(err)` on a `null` body or an upstream error, and 502 otherwise |
| ClientApi.Decimal | client/src/services/api.ts:112 | a uid is rendered as a non-empty string of decimal digits |
| ClientApi.DecimalRoundTrip | client/src/services/api.ts:112 | reading the rendered digits back gives the uid |
| ClientApi.AqiPath | client/src/services/api.ts:112 | definition of the path `${base}/api/aqi/${uid}` |
| ClientApi.RouteUid | server/src/routes/aqi.ts:40 | definition of the `/aqi/:uid` route's binding of its `:uid` segment under the `/api` mount (server/src/index.ts:16), for paths written as the literal prefix `/api/aqi/` followed by one non-empty segment, such as the client's own feed paths; any other path is taken as no match |
| ClientApi.AqiPathReachesRoute | client/src/services/api.ts:112 | `/api/aqi/${uid}` binds the route's `:uid` to the decimal uid; distinct uids give distinct paths and distinct server cache keys, none equal to `nearby` |
| ClientApi.StationsPathReachesRoute | client/src/services/api.ts:76 | `${base}/api/nearby` is the router's `/nearby` route under the `/api` mount, binds no `:uid` and is never a feed path |
| ClientApi.KeepStation | client/src/services/api.ts:92-99 | definition of the list filter's callback, check by check; characterised by `KeepStationIff` |
| ClientApi.KeepStationIff | client/src/services/api.ts:92-99 | the callback's checks admit exactly objects with numeric `uid`, `lat` and `lon` and an object `station` with a string `name` |
| ClientApi.FetchStations | client/src/services/api.ts:78-102 | a falsy body, a non-`ok` status and a non-array `data` each give their error, with `typeof data` in the last; success happens iff none applies |
| ClientApi.FetchStationsResult | client/src/services/api.ts:92-102 | the returned list is an ordered subsequence of `data`; all its records are valid; each valid record appears as often as in `data`; validating it again returns it |
| ClientApi.ValidListPassesValidation | client/src/services/api.ts:92-102 | an `ok` body whose records are all valid is returned unchanged |
| ClientApi.NearbyReplyPassesValidation | client/src/services/api.ts:76-102 | the server's `/nearby` answer for well-formed upstream records with numeric uids passes client validation and yields exactly the Thai records |
| ClientApi.HasPm25Array | client/src/services/api.ts:131-133 | definition of the forecast test `forecast && forecast.daily && Array.isArray(forecast.daily.pm25)` used by `FetchAqi` |
| ClientApi.FetchAqi | client/src/services/api.ts:114-144 | each rejecting check gives its error, and success happens iff all pass; on success the patches below apply, nothing else changes, and the result is normalised |
| AqiBands.Band | client/src/components/Gauge.tsx:9-16 | the band index lies in 0..5 and so selects a colour and a level |
| AqiBands.BandMonotone | client/src/components/Gauge.tsx:9-26 | a higher AQI never falls in a better band |
| AqiBands.BandIff | client/src/components/Gauge.tsx:9-16 | band i holds exactly the values above bound i−1 and at most bound i |
| AqiBands.InclusiveBounds | client/src/components/Gauge.tsx:10-14 | each of 50, 100, 150, 200 and 300 belongs to its own band, and one above it belongs to the next |
| AqiBands.GetAqiColor | client/src/components/Gauge.tsx:9-16 | definition of the gauge's colour chain, as written; `GaugeFollowsBand` ties it to `Band` |
| AqiBands.GetAqiLevel | client/src/components/Gauge.tsx:19-26 | definition of the gauge's level chain, as written; `GaugeFollowsBand` ties it to `Band` |
| AqiBands.ColorByAqi | client/src/components/Map.tsx:10-17 | definition of the map's colour chain, as written; `MapFollowsBand` ties it to `Band` |
| AqiBands.GaugeFollowsBand | client/src/components/Gauge.tsx:9-26 | `getAqiColor` and `getAqiLevel` return the colour and level of the value's band |
| AqiBands.MapFollowsBand | client/src/components/Map.tsx:10-17 | `colorByAqi` returns the colour of the value's band, hence the gauge's colour for every value |
| AqiBands.BandNamesDistinct | client/src/components/Gauge.tsx:9-26 | there are six colours and six levels, pairwise distinct |
| AqiBands.ColorAndLevelAgree | client/src/components/Gauge.tsx:9-26 | two values share a colour iff they share a level; every value above 300 is `#7e0023` / `危险` in both components |
| AqiBands.Percentage | client/src/components/Gauge.tsx:33 | the fill is at most 100; it is 100 exactly from AQI 500 up; below 500 it is AQI/5 |

The `FetchAqi` row in full:

- Top-level keys are kept, and every top-level field other than `data` is unchanged.
- `data` gains `forecast` and `iaqi`, and its other fields are unchanged.
- `forecast` is kept when it has a `daily.pm25` array. Otherwise it becomes `{daily: {pm25: []}}`.
- `iaqi` is kept when it is truthy. Otherwise it becomes `{}`.
- An already-normalised body is returned as is.

## Left out

- HTTP transport is left out: axios, the request/response interceptors, the logging and the upstream URLs with their token (client/src/services/api.ts:1-69, server/src/routes/aqi.ts:8, 28, 43). The server routes receive the upstream outcome as an argument: the parsed body with the time it arrived, or the error the call throws. The client functions receive only the parsed body; a failed client request, which they rethrow (client/src/services/api.ts:103-106, 145-148), is not modelled.
- The Express wiring is left out: CORS, the one-request-per-second rate limiter (server/src/index.ts:13) and the error handler's 502/500 mapping (server/src/index.ts:19-24). A handler's `NextError` reply stands for `next(err)`. The `/api` mount (server/src/index.ts:16) appears only as the path prefix `ClientApi.ApiMount`.
- Parts of node-cache are left out: the periodic expiry sweep, clones of stored values, statistics and size limits. Entries expire lazily on read, which gives the same results for every read. `server/src/cache.ts` (a second cache with a 60-second TTL) is not used by the routes and is not part of this model.
- Concurrency is left out. Requests are served one at a time. Two overlapping misses on one key, which both call upstream in the source, are not modelled. Neither is a request that arrives while another request's upstream call is still pending.
- GeoMembership.InThailand: the point-in-polygon library's general algorithm is not modelled. The model uses containment in the ring's bounding box, which equals the polygon for this axis-aligned rectangle. Boundary points count as inside.
- AqiRoutes.StationTest: a `lat` or `lon` that is not a number, with no name match, is taken to make the point-in-polygon call throw. The model records the fault `Unmodelled`, which the route passes to `next(err)` like any other exception. What the library actually does with such input is not modelled.
- Numbers are exact rationals, so floating-point rounding and `NaN` are not modelled. This matters in the band comparisons and in `Percentage`.
- The map's `Number(s.aqi)` string-to-number conversion (client/src/components/Map.tsx:28) is not modelled. The bands take the number.
- ClientApi.RouteUid: only paths made of the exact prefix `/api/aqi/` and one literal segment are bound. Express's optional trailing slash (`/api/aqi/5/`), case-insensitive matching (`/API/aqi/5`) and percent-decoding of the parameter (`/api/aqi/%35`) are not modelled; the client's own paths need none of them.
- ClientApi.AqiPath: the uid is a non-negative integer. Template-literal rendering of negative, fractional or exponent-notation numbers is not modelled.
- ClientApi.FetchAqi: the source patches the response object in place, which the caller's own reference to it would observe. The model returns the patched body as a new value, so that aliasing is not captured.
- React rendering, `App.tsx`, `Panel.tsx`, `Chart.tsx` and the map's refetch interval are left out. Only the pure colour, level and percentage functions are modelled.
