/**
 The three data endpoints of app.py. `weather_latest` and `weather_by_sol` read
 the cache, fetch on a miss, normalise, store and return; `maas` fetches and
 passes the document through without touching the cache. The upstream call is
 an argument: the result the fetch would produce if it were made.
 */
module Handlers {
  import opened Optional
  import opened Json
  import opened Decimal
  import opened TtlCache
  import opened Normalizer

  /** Outcome of `_fetch_maas(path)`: the decoded document, or the transport error's text. */
  datatype Fetch = Fetched(doc: Json) | Failed(cause: string)

  /** The `HTTPException`s the endpoints raise. */
  datatype Failure =
    | UpstreamError(cause: string)   // transport failure in `_fetch_maas`
    | NoData(sol: int)               // `weather_by_sol` got an empty or error-marked document
    | EmptyResponse                  // `maas` got an empty document

  /** The HTTP status each failure is raised with. */
  function Status(f: Failure): (code: int)
    ensures code == 404 <==> f.NoData?
    ensures code == 502 <==> (f.UpstreamError? || f.EmptyResponse?)
  {
    match f
    case UpstreamError(_) => 502
    case NoData(_) => 404
    case EmptyResponse => 502
  }

  /** The `detail` text of each failure; an upstream error's text ends with its cause. */
  function Detail(f: Failure): (text: string)
    ensures f.UpstreamError? ==> |f.cause| <= |text| && text[|text| - |f.cause|..] == f.cause
  {
    match f
    case UpstreamError(cause) => "Upstream MAAS error: " + cause
    case NoData(sol) => "No data for sol " + IntToString(sol)
    case EmptyResponse => "Empty MAAS response"
  }

  /** A 404's detail names its sol: two sols get the same text exactly when they are equal. */
  lemma NoDataDetailNamesSol(a: int, b: int)
    ensures Detail(NoData(a)) == Detail(NoData(b)) <==> a == b
  {
    IntToStringInjective(a, b);
    var prefix: string := "No data for sol ";
    assert Detail(NoData(a))[|prefix|..] == IntToString(a);
    assert Detail(NoData(b))[|prefix|..] == IntToString(b);
  }

  datatype Response = Ok(body: Json) | Error(failure: Failure)

  /** What one request does: its response, the path it fetched (if any), and the cache after it. */
  datatype Outcome = Outcome(response: Response, fetched: Option<string>, entries: map<string, Entry<Json>>)

  const LatestKey: string := "latest"
  const LatestPath: string := "/"

  function SolKey(sol: int): string {
    "sol:" + IntToString(sol)
  }

  function SolPath(sol: int): string {
    "/" + IntToString(sol)
  }

  /** The path `maas` fetches: the latest observation for sol 0, that sol's otherwise. */
  function MaasPath(sol: int): (path: string)
    requires sol >= 0
    ensures path == LatestPath <==> sol == 0
    ensures sol > 0 ==> path == SolPath(sol)
  {
    IntToStringInjective(sol, 0);
    if sol == 0 then "/" else SolPath(sol)
  }

  /** Different sols are cached under different keys, and none of them under "latest". */
  lemma SolKeysDistinct(a: int, b: int)
    ensures SolKey(a) == SolKey(b) <==> a == b
    ensures SolKey(a) != LatestKey
  {
    IntToStringInjective(a, b);
    var p: string := "sol:";
    assert SolKey(a)[..4] == p && SolKey(a)[4..] == IntToString(a);
    assert SolKey(b)[4..] == IntToString(b);
    assert SolKey(a)[0] == 's' && LatestKey[0] == 'l';
  }

  /** Different sols are fetched from different paths, and none of them from the latest path. */
  lemma SolPathsDistinct(a: int, b: int)
    ensures SolPath(a) == SolPath(b) <==> a == b
    ensures SolPath(a) != LatestPath
  {
    IntToStringInjective(a, b);
    assert SolPath(a)[1..] == IntToString(a);
    assert SolPath(b)[1..] == IntToString(b);
  }

  /** The cache serves `key` without refetching: a fresh entry with a truthy value. */
  predicate Hit(entries: map<string, Entry<Json>>, key: string, now: int) {
    key in entries && !Expired(entries[key], now) && Truthy(entries[key].value)
  }

  /** `after` holds no new or rewritten entry, and lost at most the entry under `key`. */
  predicate NoWrite(before: map<string, Entry<Json>>, after: map<string, Entry<Json>>, key: string) {
    && (forall k :: k in after ==> k in before && after[k] == before[k])
    && (forall k :: k in before && k != key ==> k in after)
  }

  /** `weather_by_sol` refuses an empty document or an object with a truthy "error" field. */
  predicate Rejected(doc: Json) {
    !Truthy(doc) || (doc.JObj? && Truthy(Get(doc.fields, "error")))
  }

  /** `weather_latest` as a function of the cache, the clock and the upstream result. */
  function LatestStep(entries: map<string, Entry<Json>>, now: int, upstream: Fetch, parse: FloatParser): (r: Outcome)
    requires upstream.Fetched? ==> upstream.doc.JObj?
    ensures Hit(entries, LatestKey, now) ==>
              r == Outcome(Ok(entries[LatestKey].value), None, entries)
    ensures !Hit(entries, LatestKey, now) ==> r.fetched == Some(LatestPath)
    ensures !Hit(entries, LatestKey, now) && upstream.Failed? ==>
              r.response == Error(UpstreamError(upstream.cause)) && NoWrite(entries, r.entries, LatestKey)
              && r.entries == Lookup(entries, LatestKey, now).entries
    ensures !Hit(entries, LatestKey, now) && upstream.Fetched? ==>
              var out := Normalize(upstream.doc.fields, parse);
              r.response == Ok(out) && r.entries == Store(entries, LatestKey, out, now)
  {
    var read := Lookup(entries, LatestKey, now);
    if read.value.Some? && Truthy(read.value.value) then
      Outcome(Ok(read.value.value), None, read.entries)
    else
      match upstream
      case Failed(cause) =>
        Outcome(Error(UpstreamError(cause)), Some(LatestPath), read.entries)
      case Fetched(doc) =>
        var out := Normalize(doc.fields, parse);
        assert Store(read.entries, LatestKey, out, now) == Store(entries, LatestKey, out, now);
        Outcome(Ok(out), Some(LatestPath), Store(read.entries, LatestKey, out, now))
  }

  /** `weather_by_sol(sol)` as a function of the cache, the clock and the upstream result. */
  function BySolStep(entries: map<string, Entry<Json>>, now: int, sol: int, upstream: Fetch, parse: FloatParser): (r: Outcome)
    requires upstream.Fetched? && !Rejected(upstream.doc) ==> upstream.doc.JObj?
    ensures Hit(entries, SolKey(sol), now) ==>
              r == Outcome(Ok(entries[SolKey(sol)].value), None, entries)
    ensures !Hit(entries, SolKey(sol), now) ==> r.fetched == Some(SolPath(sol))
    ensures !Hit(entries, SolKey(sol), now) && upstream.Failed? ==>
              r.response == Error(UpstreamError(upstream.cause)) && NoWrite(entries, r.entries, SolKey(sol))
              && r.entries == Lookup(entries, SolKey(sol), now).entries
    ensures !Hit(entries, SolKey(sol), now) && upstream.Fetched? && Rejected(upstream.doc) ==>
              r.response == Error(NoData(sol)) && NoWrite(entries, r.entries, SolKey(sol))
              && r.entries == Lookup(entries, SolKey(sol), now).entries
    ensures !Hit(entries, SolKey(sol), now) && upstream.Fetched? && !Rejected(upstream.doc) ==>
              var out := Normalize(upstream.doc.fields, parse);
              r.response == Ok(out) && r.entries == Store(entries, SolKey(sol), out, now)
  {
    var key := SolKey(sol);
    var read := Lookup(entries, key, now);
    if read.value.Some? && Truthy(read.value.value) then
      Outcome(Ok(read.value.value), None, read.entries)
    else
      match upstream
      case Failed(cause) =>
        Outcome(Error(UpstreamError(cause)), Some(SolPath(sol)), read.entries)
      case Fetched(doc) =>
        if Rejected(doc) then
          Outcome(Error(NoData(sol)), Some(SolPath(sol)), read.entries)
        else
          var out := Normalize(doc.fields, parse);
          assert Store(read.entries, key, out, now) == Store(entries, key, out, now);
          Outcome(Ok(out), Some(SolPath(sol)), Store(read.entries, key, out, now))
  }

  /** What `maas` does: its response and the path it fetched; it has no cache to touch. */
  datatype Passthrough = Passthrough(response: Response, fetched: string)

  /** `maas(sol)`: the upstream document unchanged, unless the fetch failed or it is empty. */
  function Maas(sol: int, upstream: Fetch): (r: Passthrough)
    requires sol >= 0
    ensures r.fetched == MaasPath(sol)
    ensures r.response.Ok? <==> upstream.Fetched? && Truthy(upstream.doc)
    ensures r.response.Ok? ==> r.response.body == upstream.doc
    ensures upstream.Failed? ==> r.response == Error(UpstreamError(upstream.cause))
    ensures upstream.Fetched? && !Truthy(upstream.doc) ==> r.response == Error(EmptyResponse)
  {
    var path := if sol == 0 then "/" else SolPath(sol);
    match upstream
    case Failed(cause) => Passthrough(Error(UpstreamError(cause)), path)
    case Fetched(doc) =>
      if !Truthy(doc) then Passthrough(Error(EmptyResponse), path) else Passthrough(Ok(doc), path)
  }

  /** Every cached value is truthy: true of the empty cache, kept by both cached endpoints. */
  predicate CacheTruthy(entries: map<string, Entry<Json>>) {
    forall k :: k in entries ==> Truthy(entries[k].value)
  }

  /** `weather_latest` only ever stores a normalised record, so the cache stays truthy. */
  lemma LatestKeepsCacheTruthy(entries: map<string, Entry<Json>>, now: int, upstream: Fetch, parse: FloatParser)
    requires CacheTruthy(entries)
    requires upstream.Fetched? ==> upstream.doc.JObj?
    ensures CacheTruthy(LatestStep(entries, now, upstream, parse).entries)
  {
  }

  /** The same for `weather_by_sol`. */
  lemma BySolKeepsCacheTruthy(entries: map<string, Entry<Json>>, now: int, sol: int, upstream: Fetch, parse: FloatParser)
    requires CacheTruthy(entries)
    requires upstream.Fetched? && !Rejected(upstream.doc) ==> upstream.doc.JObj?
    ensures CacheTruthy(BySolStep(entries, now, sol, upstream, parse).entries)
  {
  }

  /** In a truthy cache the `if cached:` test never turns a fresh entry into a refetch. */
  lemma FreshEntryIsServed(entries: map<string, Entry<Json>>, key: string, now: int)
    requires CacheTruthy(entries)
    ensures Hit(entries, key, now) <==> key in entries && !Expired(entries[key], now)
  {
  }

  /**
   A second `weather_latest` within TTL of a call that missed and fetched a
   document returns the same record, fetches nothing and leaves the cache as
   the first call left it, whatever the upstream would now say.
   */
  lemma LatestRepeatWithinTtl(entries: map<string, Entry<Json>>, now: int, upstream: Fetch,
                              later: int, upstream': Fetch, parse: FloatParser)
    requires !Hit(entries, LatestKey, now) && upstream.Fetched? && upstream.doc.JObj?
    requires upstream'.Fetched? ==> upstream'.doc.JObj?
    requires later <= now + TTL
    ensures var first := LatestStep(entries, now, upstream, parse);
            LatestStep(first.entries, later, upstream', parse) == Outcome(first.response, None, first.entries)
  {
  }

  /** The same for `weather_by_sol`: one upstream fetch per sol per TTL window. */
  lemma BySolRepeatWithinTtl(entries: map<string, Entry<Json>>, now: int, sol: int, upstream: Fetch,
                             later: int, upstream': Fetch, parse: FloatParser)
    requires !Hit(entries, SolKey(sol), now) && upstream.Fetched? && !Rejected(upstream.doc) && upstream.doc.JObj?
    requires upstream'.Fetched? && !Rejected(upstream'.doc) ==> upstream'.doc.JObj?
    requires later <= now + TTL
    ensures var first := BySolStep(entries, now, sol, upstream, parse);
            BySolStep(first.entries, later, sol, upstream', parse) == Outcome(first.response, None, first.entries)
  {
  }

  /**
   Once more than TTL has passed since `weather_by_sol` missed and stored a
   record, the next call fetches again, and on success restamps the entry with
   the new time.
   */
  lemma BySolRefetchAfterTtl(entries: map<string, Entry<Json>>, now: int, sol: int, upstream: Fetch,
                             later: int, upstream': Fetch, parse: FloatParser)
    requires !Hit(entries, SolKey(sol), now) && upstream.Fetched? && !Rejected(upstream.doc) && upstream.doc.JObj?
    requires upstream'.Fetched? && !Rejected(upstream'.doc) ==> upstream'.doc.JObj?
    requires later > now + TTL
    ensures var second := BySolStep(BySolStep(entries, now, sol, upstream, parse).entries, later, sol, upstream', parse);
            && second.fetched == Some(SolPath(sol))
            && (upstream'.Fetched? && !Rejected(upstream'.doc) ==>
                  second.entries[SolKey(sol)] == Entry(later, Normalize(upstream'.doc.fields, parse)))
  {
  }

  /** A `weather_by_sol(a)` request never changes the entry of another sol, nor the latest entry. */
  lemma BySolLeavesOtherKeys(entries: map<string, Entry<Json>>, now: int, a: int, b: int, upstream: Fetch, parse: FloatParser)
    requires upstream.Fetched? && !Rejected(upstream.doc) ==> upstream.doc.JObj?
    requires a != b
    ensures var after := BySolStep(entries, now, a, upstream, parse).entries;
            && (SolKey(b) in after <==> SolKey(b) in entries)
            && (SolKey(b) in after ==> after[SolKey(b)] == entries[SolKey(b)])
            && (LatestKey in after <==> LatestKey in entries)
            && (LatestKey in after ==> after[LatestKey] == entries[LatestKey])
  {
    SolKeysDistinct(a, b);
  }

  /** A `weather_latest` request never changes the entry of any sol. */
  lemma LatestLeavesSolKeys(entries: map<string, Entry<Json>>, now: int, sol: int, upstream: Fetch, parse: FloatParser)
    requires upstream.Fetched? ==> upstream.doc.JObj?
    ensures var after := LatestStep(entries, now, upstream, parse).entries;
            && (SolKey(sol) in after <==> SolKey(sol) in entries)
            && (SolKey(sol) in after ==> after[SolKey(sol)] == entries[SolKey(sol)])
  {
    SolKeysDistinct(sol, sol);
  }

  /**
   An upstream `{"error": "no data"}` for sol 5 on an empty cache is a 404,
   and nothing is cached.
   */
  lemma ErrorMarkerIsNotFound(now: int, parse: FloatParser)
    ensures var r := BySolStep(map[], now, 5, Fetched(JObj(map["error" := JStr("no data")])), parse);
            && r.response == Error(NoData(5)) && Status(r.response.failure) == 404
            && r.fetched == Some("/5") && r.entries == map[]
  {
    assert IntToString(5) == NatToString(5) == [DigitChar(5)] == "5";
    assert SolPath(5) == "/" + "5" == "/5";
  }

  /** `weather_latest` against the shared cache. */
  method WeatherLatest(cache: Cache<Json>, now: int, upstream: Fetch, parse: FloatParser)
    returns (response: Response, fetched: Option<string>)
    requires upstream.Fetched? ==> upstream.doc.JObj?
    modifies cache
    ensures Outcome(response, fetched, cache.entries) == LatestStep(old(cache.entries), now, upstream, parse)
  {
    var cached := cache.Get(LatestKey, now);
    if cached.Some? && Truthy(cached.value) {
      return Ok(cached.value), None;
    }
    fetched := Some(LatestPath);
    match upstream {
      case Failed(cause) =>
        response := Error(UpstreamError(cause));
      case Fetched(doc) =>
        var out := Normalize(doc.fields, parse);
        cache.Set(LatestKey, out, now);
        response := Ok(out);
    }
  }

  /** `weather_by_sol` against the shared cache. */
  method WeatherBySol(cache: Cache<Json>, now: int, sol: int, upstream: Fetch, parse: FloatParser)
    returns (response: Response, fetched: Option<string>)
    requires upstream.Fetched? && !Rejected(upstream.doc) ==> upstream.doc.JObj?
    modifies cache
    ensures Outcome(response, fetched, cache.entries) == BySolStep(old(cache.entries), now, sol, upstream, parse)
  {
    var key := SolKey(sol);
    var cached := cache.Get(key, now);
    if cached.Some? && Truthy(cached.value) {
      return Ok(cached.value), None;
    }
    fetched := Some(SolPath(sol));
    match upstream {
      case Failed(cause) =>
        response := Error(UpstreamError(cause));
      case Fetched(doc) =>
        if Rejected(doc) {
          response := Error(NoData(sol));
        } else {
          var out := Normalize(doc.fields, parse);
          cache.Set(key, out, now);
          response := Ok(out);
        }
    }
  }
}
