# Curiosity MAAS weather façade: cache, handlers and normaliser in Dafny

This project models the core of `app.py`, a small HTTP façade over the MAAS
Mars-weather provider. The model has four parts:

- **Cache**: `CACHE` maps a key to a `(t, v)` row. `TTL` is 15 minutes. A read at
  time `now` drops and misses a row whose age is strictly greater than `TTL`. A
  write overwrites unconditionally and stamps the row with the current time.
  This is the class `TtlCache.Cache`, whose map field `entries` its methods `Get`
  and `Set` change in place. Both methods are tied to the pure functions `Lookup`
  and `Store`.
- **Normaliser**: `_normalize_maas` and its inner `to_float`. A pure function from
  an upstream JSON object to the service's own record. The record always carries
  the `source` tag. Each numeric field is `to_float` of its upstream key. Every
  other field is `d.get` of its upstream key.
- **Handlers**:
  - `weather_latest` and `weather_by_sol` are state machines over the cache: read,
    fetch on a miss, reject (by-sol only), normalise, store, return.
  - Each is a pure step function from (cache, `now`, upstream result) to
    (response, path fetched, new cache): `LatestStep` and `BySolStep`.
  - The methods `WeatherLatest` and `WeatherBySol` run that step on a `Cache<Json>`.
  - `maas` never reads or writes the cache, so it is a pure function `Maas` with no
    cache argument.
- **Key and path rendering**: `f"sol:{sol}"` and `f"/{sol}"` use Python's decimal
  rendering of an integer. `Decimal` spells it out and proves it injective. So
  distinct sols never share a cache entry or an upstream path.

The upstream call `_fetch_maas` is an argument of type `Fetch`. It is
`Fetched(doc)` for the decoded document, or `Failed(cause)` for a transport
error. Its `HTTPException(502)` becomes `Failure.UpstreamError(cause)`. The other
exceptions are `NoData(sol)` (404) and `EmptyResponse` (502). `Status` maps each
kind to its HTTP code. The clock is an integer argument `now`. Python's `float()`
on a string is an abstract `FloatParser` argument.

`maas` never reads or writes `CACHE` (app.py:115-119), unlike the two weather
endpoints, so `Maas` takes no cache argument.

## Model

| member | source | states |
|---|---|---|
| TtlCache.Lookup | app.py:24-31 | If the key has no entry, the read misses and misses only. A value comes back exactly when a fresh entry is stored, with age at most TTL (an age of exactly 900 s still hits). That value is the stored one. A stale entry is deleted. No other key and no value is touched. |
| TtlCache.Store | app.py:33-34 | The key now maps to `(now, value)` and every other entry is unchanged. A read of the key at any time up to `now + TTL` returns `value` and leaves the cache as it is. |
| TtlCache.StoreThenExpire | app.py:22-30 | A read more than TTL after a store misses and removes exactly that key. |
| TtlCache.Cache.constructor | app.py:21 | The cache starts empty. |
| TtlCache.Cache.Get | app.py:24-31 | Its result and the new `entries` are those of `Lookup` on the old entries. |
| TtlCache.Cache.Set | app.py:33-34 | The new `entries` are `Store` applied to the old ones. |
| Decimal.NatToStringRoundTrip | app.py:95 | The decimal rendering of a natural is a non-empty digit string, and reading it back gives the number. |
| Decimal.IntToStringInjective | app.py:95-99 | `str(a) == str(b)` exactly when `a == b`, and no rendering is empty. |
| Normalizer.Normalize | app.py:45-70 | The result is a JSON object with exactly the eleven output keys, and never fails. `source` is `"curiosity_rems_maas"`. Each copied field equals `d.get` of its upstream key, following the table `CopiedFields`. `pressure_pa` and the four entries of `temperature_c` (a four-key object, table `TemperatureFields`) are `to_float` of their upstream key. They are null when the key is missing or `float` would raise. |
| Normalizer.ToJsonInjective | app.py:53-70 | The output dictionary keeps every field of the record: two records give the same dictionary exactly when they are equal. |
| Normalizer.NormalizeReadsOnlySourceKeys | app.py:53-70 | Two upstream records that agree on the thirteen keys it reads normalise to the same record. |
| Normalizer.NormalizeNumericFieldsAreNumbers | app.py:47-64 | `pressure_pa` and every temperature are a number or null. |
| Normalizer.NormalizeIsTruthy | app.py:53-54 | A normalised record is a non-empty dict, so Python treats it as true. |
| Normalizer.CoercionExample | app.py:47-64 | With a parser that accepts "-70.5" and rejects "abc", `{"min_temp": "-70.5", "max_temp": "abc"}` gives min -70.5, max null, and null for both ground temperatures. |
| Handlers.Status | app.py:42-43 | Failures map to HTTP codes: NoData is 404 (app.py:101). UpstreamError (app.py:43) and EmptyResponse (app.py:118) are 502. |
| Handlers.Detail | app.py:43 | The detail text of an upstream error ends with the cause of the transport failure. |
| Handlers.NoDataDetailNamesSol | app.py:101 | Two 404 details "No data for sol <n>" are equal exactly when their sols are. |
| Handlers.MaasPath | app.py:115 | The path is `"/"` exactly when sol is 0. Otherwise it is `"/<sol>"`. |
| Handlers.SolKeysDistinct | app.py:95 | `"sol:<a>"` equals `"sol:<b>"` exactly when a equals b, and no sol key equals `"latest"`. |
| Handlers.SolPathsDistinct | app.py:99 | `"/<a>"` equals `"/<b>"` exactly when a equals b, and no sol path is the latest path `"/"`. |
| Handlers.LatestStep | app.py:82-91 | On a hit (a fresh, truthy entry under `"latest"`), it returns that value, fetches nothing and leaves the cache unchanged. On a miss it fetches `"/"`. A failed fetch gives a 502 carrying the cause, with no entry written or rewritten: the cache is exactly as the read left it, so at most a stale `"latest"` entry is gone. A fetched object gives its normalised record, stored under `"latest"` with time `now`. |
| Handlers.BySolStep | app.py:93-104 | The same with key `"sol:<sol>"` and path `"/<sol>"`, plus one more case. An empty document, or an object whose `"error"` field is truthy, gives `NoData(sol)` (404) and writes nothing; on it and on a failed fetch the cache is exactly as the read left it. Any other document is normalised, stored under the key and returned. |
| Handlers.Maas | app.py:107-119 | It fetches `MaasPath(sol)` and has no cache to read or write. It succeeds exactly when the fetch succeeded with a truthy document, and then returns that document unchanged. A failed fetch is a 502 with the cause. An empty document is `EmptyResponse` (502). |
| Handlers.WeatherLatest | app.py:82-91 | Response, fetched path and new cache contents are those of `LatestStep` on the old cache. |
| Handlers.WeatherBySol | app.py:93-104 | Response, fetched path and new cache contents are those of `BySolStep` on the old cache. |
| Handlers.LatestKeepsCacheTruthy | app.py:88-90 | If every cached value is truthy, it still is after `weather_latest` runs. |
| Handlers.BySolKeepsCacheTruthy | app.py:99-103 | If every cached value is truthy, it still is after `weather_by_sol` runs. |
| Handlers.FreshEntryIsServed | app.py:86-97 | In such a cache, a hit is exactly a fresh entry. The `if cached:` test never causes a refetch. |
| Handlers.LatestRepeatWithinTtl | app.py:85-91 | After a `weather_latest` that missed and fetched a document at `now`, a second call at any time up to `now + TTL` returns the same record without fetching. It leaves the cache as it was, whatever the upstream would now return. |
| Handlers.BySolRepeatWithinTtl | app.py:96-104 | The same for `weather_by_sol`: at most one upstream fetch per sol per TTL window. |
| Handlers.BySolRefetchAfterTtl | app.py:28-30 | A call more than TTL after a miss whose fetched document was stored fetches `"/<sol>"` again. If that fetch is accepted, the entry is restamped with the new time. |
| Handlers.BySolLeavesOtherKeys | app.py:95-104 | A `weather_by_sol(a)` request leaves the entry of every other sol, and the `"latest"` entry, exactly as it was. |
| Handlers.LatestLeavesSolKeys | app.py:84-91 | A `weather_latest` request leaves every sol's entry exactly as it was. |
| Handlers.ErrorMarkerIsNotFound | app.py:100-101 | Upstream `{"error": "no data"}` for sol 5 on an empty cache gives a 404 after fetching `"/5"`, and the cache stays empty. |

## Left out

- FastAPI app, CORS middleware and route decorators: framework glue. The `Query(ge=0)` check on `maas` is the precondition `sol >= 0`.
- Health endpoints `/ping` and `/healthz`: they return the constant `{"ok": True}` and touch nothing.
- `_fetch_maas` internals: `MAAS_BASE`, URL concatenation, the 20 s timeout, `raise_for_status` and `r.json()` are network I/O. The call is replaced by the `Fetch` argument, and the text of the caught exception is the abstract `cause` string.
- `time.time()`: the clock is the integer `now`, in whole seconds, so sub-second float timestamps are not modelled.
- Handlers.LatestStep: the source reads the clock a second time, after the fetch, to stamp the new entry. The model stamps it with the request's `now`, so the time spent fetching is not modelled.
- Handlers.BySolStep: same single-clock simplification as LatestStep.
- `float()` parsing of strings is the abstract `FloatParser`. Its floating-point semantics are not modelled, nor are NaN and infinities (not reals).
- JSON numbers are reals. The model does not capture two things: the difference between a Python int and a float in passed-through fields, and the rounding or `OverflowError` when `float()` converts a very large int.
- The key order of the returned dicts is not modelled: the model uses unordered maps.
- Handlers.LatestStep: if the upstream document is not a JSON object, `_normalize_maas` would raise. The model requires the document to be an object instead.
- Handlers.BySolStep: the same applies to a truthy document that is not an object and carries no error marker. The model requires such a document to be an object.
- Concurrent requests on the shared `CACHE`: the model runs one request at a time.
